/**
 Names whatever their case, told letter by letter, and what they make of a head:
 which fields it has, and the framing it asks for or is refused for.
 */
module HttpNames {
  import opened Basics
  import opened HttpBytes
  import opened HttpText
  import opened HttpFraming

  // ----- names, whatever their case -----

  /** Letter by letter: equal, or one a capital and the other 32 higher. */
  predicate SameLetter(x: char, y: char) {
    || x == y
    || (65 <= x as int <= 90 && y as int == x as int + 32)
    || (65 <= y as int <= 90 && x as int == y as int + 32)
  }

  predicate SameName(x: string, y: string) {
    |x| == |y| && forall i :: 0 <= i < |x| ==> SameLetter(x[i], y[i])
  }

  /** Two names are matched exactly when they are the same but for the case of their letters. */
  lemma MatchedExactly(x: string, y: string)
    ensures Lower(x) == Lower(y) <==> SameName(x, y)
  {
    if Lower(x) == Lower(y) {
      assert |x| == |Lower(x)| == |y|;
      forall i | 0 <= i < |x| ensures SameLetter(x[i], y[i]) { assert Lower(x)[i] == Lower(y)[i]; }
    }
    if SameName(x, y) {
      forall i | 0 <= i < |x| ensures Lower(x)[i] == Lower(y)[i] { assert SameLetter(x[i], y[i]); }
    }
  }

  /** The values under every same name, in order. */
  function Under(hs: seq<Header>, name: string): seq<string> {
    if hs == [] then [] else (if SameName(hs[0].name, name) then [hs[0].value] else []) + Under(hs[1..], name)
  }

  lemma {:induction false} GetAllIs(hs: seq<Header>, name: string)
    ensures GetAll(hs, name) == Under(hs, name)
  {
    if hs != [] {
      MatchedExactly(hs[0].name, name);
      GetAllIs(hs[1..], name);
      hide Lower, SameName;
    }
  }

  predicate Owns(names: seq<string>, name: string) {
    exists i :: 0 <= i < |names| && SameName(name, names[i])
  }

  /** Dropping names drops them in any case, and keeps every other value, in order. */
  lemma WithoutKeeps(hs: seq<Header>, names: seq<string>, name: string)
    ensures Under(Without(hs, names), name) == if Owns(names, name) then [] else Under(hs, name)
  {
    WithoutGets(hs, names, name);
    GetAllIs(Without(hs, names), name);
    GetAllIs(hs, name);
    forall i | 0 <= i < |names| ensures Lower(name) == Lower(names[i]) <==> SameName(name, names[i]) { MatchedExactly(name, names[i]); }
    hide Lower, SameName, GetAll, Under, Without;
  }

  predicate Has(hs: seq<Header>, name: string) {
    exists i :: 0 <= i < |hs| && SameName(hs[i].name, name)
  }

  lemma {:induction false} HasUnder(hs: seq<Header>, name: string)
    ensures Has(hs, name) <==> Under(hs, name) != []
  {
    if hs != [] {
      HasUnder(hs[1..], name);
      hide SameName;
      if Has(hs, name) && !SameName(hs[0].name, name) {
        var i :| 0 <= i < |hs| && SameName(hs[i].name, name);
        assert hs[1..][i - 1] == hs[i];
      }
      if Has(hs[1..], name) {
        var i :| 0 <= i < |hs[1..]| && SameName(hs[1..][i].name, name);
        assert hs[i + 1] == hs[1..][i];
      }
    }
  }

  lemma {:induction false} UnderAppend(x: seq<Header>, y: seq<Header>, name: string)
    ensures Under(x + y, name) == Under(x, name) + Under(y, name)
  {
    GetAllIs(x + y, name);
    GetAllIs(x, name);
    GetAllIs(y, name);
    GetAllAppend(x, y, name);
  }

  lemma UnderOne(h: Header, name: string)
    ensures Under([h], name) == if SameName(h.name, name) then [h.value] else []
  {
    assert [h][1..] == [];
  }

  // ----- framing -----

  /** The one field under `name`, anywhere in the head. */
  predicate Only(x: seq<Header>, h: Header, y: seq<Header>, name: string) {
    !Has(x, name) && !Has(y, name) && SameName(h.name, name)
  }

  lemma OnlyIs(x: seq<Header>, h: Header, y: seq<Header>, name: string)
    requires !Has(x, name) && !Has(y, name)
    ensures GetAll(x + [h] + y, name) == if SameName(h.name, name) then [h.value] else []
  {
    HasUnder(x, name);
    HasUnder(y, name);
    UnderAppend(x + [h], y, name);
    UnderAppend(x, [h], name);
    UnderOne(h, name);
    GetAllIs(x + [h] + y, name);
    hide Under, SameName, GetAll;
  }

  const LENGTH := "Content-Length"
  const CODING := "Transfer-Encoding"

  lemma Fields()
    ensures !SameName(LENGTH, CODING) && !SameName(CODING, LENGTH)
    ensures SameName("content-length", LENGTH) && SameName("transfer-encoding", CODING)
  {
  }

  lemma SameTrans(x: string, y: string, z: string)
    ensures SameName(x, y) && SameName(y, z) ==> SameName(x, z)
    ensures SameName(x, y) == SameName(y, x)
  {
    MatchedExactly(x, y);
    MatchedExactly(y, z);
    MatchedExactly(x, z);
    MatchedExactly(y, x);
    hide Lower, SameName;
  }

  lemma SameUnder(hs: seq<Header>, x: string, y: string)
    requires SameName(x, y)
    ensures GetAll(hs, x) == GetAll(hs, y)
  {
    MatchedExactly(x, y);
    SameLower(hs, x, y);
  }

  lemma {:induction false} SameLower(hs: seq<Header>, x: string, y: string)
    requires Lower(x) == Lower(y)
    ensures GetAll(hs, x) == GetAll(hs, y)
  {
    hide Lower;
    if hs != [] { SameLower(hs[1..], x, y); }
  }

  /** A head's two framing fields, whatever their case. */
  lemma FramingFields(hs: seq<Header>)
    ensures GetAll(hs, "content-length") == Under(hs, LENGTH)
    ensures GetAll(hs, "transfer-encoding") == Under(hs, CODING)
  {
    Fields();
    SameUnder(hs, "content-length", LENGTH);
    SameUnder(hs, "transfer-encoding", CODING);
    GetAllIs(hs, LENGTH);
    GetAllIs(hs, CODING);
    hide GetAll, Under, SameName;
  }

  /** A length declared under any casing of its name, among any other fields, is the body's length. */
  lemma LengthInAnyCase(x: seq<Header>, h: Header, y: seq<Header>, n: nat, version: string)
    requires Only(x, h, y, LENGTH) && !Has(x, CODING) && !Has(y, CODING)
    requires h.value == Decimal(n) && n < 1_000_000_000_000_000
    ensures ResolveFraming(x + [h] + y, version) == Some(Sized(n))
  {
    FramingFields(x + [h] + y);
    GetAllIs(x + [h] + y, LENGTH);
    GetAllIs(x + [h] + y, CODING);
    OnlyIs(x, h, y, LENGTH);
    OnlyIs(x, h, y, CODING);
    Fields();
    SameTrans(CODING, h.name, LENGTH);
    SameTrans(h.name, CODING, LENGTH);
    LengthBack(n);
    hide GetAll, Under, SameName, Has, ParseContentLength, Decimal;
  }

  lemma OneCoding(v: string)
    requires SameName(v, "chunked")
    ensures Codings(Pieces([v])) == ["chunked"]
  {
    assert forall i :: 0 <= i < |v| ==> SameLetter(v[i], "chunked"[i]);
    assert IndexOf(v, ',') == |v|;
    assert Split(v, ',') == [v];
    assert Trim(v) == v;
    OnePiece(v);
    assert Trimmed([v]) == [v];
    MatchedExactly(v, "chunked");
    assert Lower("chunked") == "chunked";
    var one: seq<string> := [v];
    assert one[1..] == [];
  }

  /** So for the chunked coding, its own name in any case too; HTTP/1.0 has none. */
  lemma ChunkedInAnyCase(x: seq<Header>, h: Header, y: seq<Header>, version: string)
    requires Only(x, h, y, CODING) && !Has(x, LENGTH) && !Has(y, LENGTH) && SameName(h.value, "chunked")
    ensures ResolveFraming(x + [h] + y, version) == if version == "HTTP/1.0" then None else Some(Chunked)
  {
    FramingFields(x + [h] + y);
    GetAllIs(x + [h] + y, LENGTH);
    GetAllIs(x + [h] + y, CODING);
    OnlyIs(x, h, y, LENGTH);
    OnlyIs(x, h, y, CODING);
    Fields();
    SameTrans(LENGTH, h.name, CODING);
    SameTrans(h.name, LENGTH, CODING);
    OneCoding(h.value);
    hide GetAll, Under, SameName, Has, Codings, Pieces;
  }

  /** A head that declares a length and a coding, in any case and order, is refused. */
  lemma BothRefused(hs: seq<Header>, version: string)
    requires Has(hs, LENGTH) && Has(hs, CODING)
    ensures ResolveFraming(hs, version) == None
  {
    FramingFields(hs);
    HasUnder(hs, LENGTH);
    HasUnder(hs, CODING);
    hide GetAll, Under, Has;
  }

  /** With neither there is no framing: nothing in a request, all that follows in a response. */
  lemma NeitherIsBare(hs: seq<Header>, version: string)
    requires !Has(hs, LENGTH) && !Has(hs, CODING)
    ensures ResolveFraming(hs, version) == Some(Bare)
  {
    FramingFields(hs);
    HasUnder(hs, LENGTH);
    HasUnder(hs, CODING);
    hide GetAll, Under, Has;
  }

  /** A length within the safe range, declared once under any casing, and no coding. */
  predicate DeclaresLength(hs: seq<Header>, n: nat) {
    exists i :: 0 <= i < |hs| && Only(hs[..i], hs[i], hs[i + 1..], LENGTH) && hs[i].value == Decimal(n) && !Has(hs, CODING)
  }

  lemma HasPart(x: seq<Header>, y: seq<Header>, name: string)
    ensures Has(x + y, name) <==> Has(x, name) || Has(y, name)
  {
    HasUnder(x + y, name);
    HasUnder(x, name);
    HasUnder(y, name);
    UnderAppend(x, y, name);
    hide Has, Under;
  }

  lemma LengthIs(hs: seq<Header>, n: nat, version: string)
    requires DeclaresLength(hs, n) && n < 1_000_000_000_000_000
    ensures ResolveFraming(hs, version) == Some(Sized(n))
  {
    var i :| 0 <= i < |hs| && Only(hs[..i], hs[i], hs[i + 1..], LENGTH) && hs[i].value == Decimal(n) && !Has(hs, CODING);
    var x, y := hs[..i], hs[i + 1..];
    assert hs == x + [hs[i]] + y;
    hide Has, SameName, Decimal, ResolveFraming;
    HasPart(x + [hs[i]], y, CODING);
    HasPart(x, [hs[i]], CODING);
    LengthInAnyCase(x, hs[i], y, n, version);
  }
}
