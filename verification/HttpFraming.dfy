/** Which bytes are the body: Content-Length, Transfer-Encoding, and section 6.3 of RFC 9112. */
module HttpFraming {
  import opened Basics
  import opened HttpBytes
  import opened HttpText

  /** What `trim` removes. */
  predicate Space(c: char) {
    var code := c as int;
    9 <= code <= 13 || code in {0x20, 0xA0, 0x1680, 0x2028, 0x2029, 0x202F, 0x205F, 0x3000, 0xFEFF} || 0x2000 <= code <= 0x200A
  }

  function Trim(s: string): string {
    if s == [] then s
    else if Space(s[0]) then Trim(s[1..])
    else if Space(s[|s| - 1]) then Trim(s[..|s| - 1])
    else s
  }

  function Split(s: string, c: char): (parts: seq<string>)
    ensures parts != []
    decreases |s|
  {
    var i := IndexOf(s, c);
    if i == |s| then [s] else [s[..i]] + Split(s[i + 1..], c)
  }

  /** The comma-separated elements of all the values, trimmed. */
  function Pieces(values: seq<string>): (r: seq<string>)
    ensures values != [] ==> r != []
  {
    if values == [] then [] else Trimmed(Split(values[0], ',')) + Pieces(values[1..])
  }

  function Trimmed(parts: seq<string>): (r: seq<string>)
    ensures |r| == |parts|
  {
    seq(|parts|, i requires 0 <= i < |parts| => Trim(parts[i]))
  }

  function DecimalValue(s: string): nat
    requires AllDigits(s)
  {
    if s == [] then 0 else DecimalValue(s[..|s| - 1]) * 10 + (s[|s| - 1] as int - '0' as int)
  }

  datatype Length = Absent | Exactly(n: nat) | Unreadable

  /** One number, given once or as a list of copies; anything else is a refusal. */
  function ParseContentLength(values: seq<string>): Length {
    var parts := Pieces(values);
    if values == [] then Absent
    else if exists i :: 0 <= i < |parts| && parts[i] != parts[0] then Unreadable
    else if 1 <= |parts[0]| <= 15 && AllDigits(parts[0]) then Exactly(DecimalValue(parts[0]))
    else Unreadable
  }

  datatype Framing = Chunked | Sized(n: nat) | Bare

  function Codings(pieces: seq<string>): seq<string> {
    if pieces == [] then []
    else (if pieces[0] == "" then [] else [Lower(pieces[0])]) + Codings(pieces[1..])
  }

  predicate Version(s: string) { s == "HTTP/1.1" || s == "HTTP/1.0" }

  /** Every ambiguity is a refusal. */
  function ResolveFraming(headers: seq<Header>, version: string): Option<Framing> {
    var te := GetAll(headers, "transfer-encoding");
    var cl := GetAll(headers, "content-length");
    if te != [] && cl != [] then None
    else if te != [] then
      if Codings(Pieces(te)) != ["chunked"] || version == "HTTP/1.0" then None else Some(Chunked)
    else match ParseContentLength(cl)
      case Absent => Some(Bare)
      case Exactly(n) => Some(Sized(n))
      case Unreadable => None
  }

  predicate BodylessStatus(status: int) { status < 200 || status == 204 || status == 304 }

  // ----- Content-Length -----

  lemma {:induction false} PiecesAppend(x: seq<string>, y: seq<string>)
    ensures Pieces(x + y) == Pieces(x) + Pieces(y)
  {
    if x == [] {
      assert x + y == y;
    } else {
      assert (x + y)[1..] == x[1..] + y;
      PiecesAppend(x[1..], y);
      assert Trimmed(Split(x[0], ',')) + (Pieces(x[1..]) + Pieces(y)) == Pieces(x) + Pieces(y);
    }
  }

  lemma SplitFirst(x: string, rest: string, c: char)
    requires c !in x
    ensures Split(x + [c] + rest, c) == [x] + Split(rest, c)
  {
    IndexOfAt(x, c, rest);
    var all := x + [c] + rest;
    assert all[..|x|] == x && all[|x| + 1..] == rest;
    hide IndexOf;
  }

  lemma {:induction false} SplitAppend(v: string, w: string, c: char)
    ensures Split(v + [c] + w, c) == Split(v, c) + Split(w, c)
    decreases |v|, 1
  {
    hide IndexOf;
    var i := IndexOf(v, c);
    if i == |v| {
      assert v[..i] == v;
      SplitFirst(v, w, c);
    } else {
      SplitLater(v[..i], v[i + 1..], w, c);
      assert v == v[..i] + [c] + v[i + 1..];
    }
  }

  lemma {:induction false} SplitLater(x: string, y: string, w: string, c: char)
    requires c !in x
    ensures Split(x + [c] + y + [c] + w, c) == Split(x + [c] + y, c) + Split(w, c)
    decreases |x| + 1 + |y|, 0
  {
    hide Split;
    SplitFirst(x, y, c);
    SplitFirst(x, y + [c] + w, c);
    SplitAppend(y, w, c);
    Regroup(x + [c], y, [c], w);
    Regroup([x], Split(y, c), Split(w, c), []);
  }

  lemma Regroup<T>(x: seq<T>, y: seq<T>, z: seq<T>, w: seq<T>)
    ensures x + y + z + w == x + (y + z + w)
    ensures x + y + z == x + (y + z)
  {
  }

  /** Two values fold into one number exactly when each is one and they are written the same. */
  lemma LengthsFold(xs: seq<string>, ys: seq<string>, n: nat)
    requires xs != [] && ys != []
    ensures ParseContentLength(xs + ys) == Exactly(n) <==>
              ParseContentLength(xs) == Exactly(n) && ParseContentLength(ys) == Exactly(n) && Pieces(xs)[0] == Pieces(ys)[0]
  {
    PiecesAppend(xs, ys);
    var p, q := Pieces(xs), Pieces(ys);
    assert p != [] && q != [];
    assert (p + q)[0] == p[0] && (p + q)[|p|] == q[0];
    if exists i :: 0 <= i < |p| && p[i] != p[0] {
      var i :| 0 <= i < |p| && p[i] != p[0];
      assert (p + q)[i] != (p + q)[0];
    }
    if exists j :: 0 <= j < |q| && q[j] != q[0] {
      var j :| 0 <= j < |q| && q[j] != q[0];
      assert (p + q)[|p| + j] == q[j];
    }
  }

  /** A list in one field means what the same values in two fields mean. */
  lemma ListIsFields(v: string, w: string)
    ensures ParseContentLength([v + "," + w]) == ParseContentLength([v, w])
  {
    hide Split, Trim, ParseContentLength;
    SplitAppend(v, w, ',');
    assert v + "," + w == v + [','] + w;
    OnePiece(v + "," + w);
    OnePiece(v);
    OnePiece(w);
    PiecesAppend([v], [w]);
    assert [v] + [w] == [v, w];
    TrimmedAppend(Split(v, ','), Split(w, ','));
    SamePieces([v + "," + w], [v, w]);
  }

  lemma SamePieces(xs: seq<string>, ys: seq<string>)
    requires xs != [] && ys != [] && Pieces(xs) == Pieces(ys)
    ensures ParseContentLength(xs) == ParseContentLength(ys)
  {
  }

  lemma TrimmedAppend(x: seq<string>, y: seq<string>)
    ensures Trimmed(x + y) == Trimmed(x) + Trimmed(y)
  {
  }

  lemma OnePiece(v: string)
    ensures Pieces([v]) == Trimmed(Split(v, ','))
  {
    var one: seq<string> := [v];
    assert one[1..] == [];
    assert Trimmed(Split(v, ',')) + [] == Trimmed(Split(v, ','));
  }

  /** A length as a caller writes it. */
  function Decimal(n: nat): string {
    if n < 10 then [('0' as int + n) as char] else Decimal(n / 10) + [('0' as int + n % 10) as char]
  }

  function Tens(k: nat): nat { if k == 0 then 1 else 10 * Tens(k - 1) }

  lemma {:induction false} DecimalBack(n: nat)
    ensures Decimal(n) != [] && AllDigits(Decimal(n)) && DecimalValue(Decimal(n)) == n
  {
    var s := Decimal(n);
    if n >= 10 {
      DecimalBack(n / 10);
      assert s[..|s| - 1] == Decimal(n / 10);
    } else {
      assert s[..0] == [];
    }
  }

  lemma {:induction false} DecimalLength(n: nat, k: nat)
    requires k >= 1
    ensures |Decimal(n)| <= k <==> n < Tens(k)
  {
    DecimalBack(n);
    if n >= 10 {
      DecimalBack(n / 10);
      if k > 1 { DecimalLength(n / 10, k - 1); } else { assert Tens(1) == 10; }
    } else {
      TensGrow(k);
    }
  }

  lemma {:induction false} TensGrow(k: nat)
    requires k >= 1
    ensures Tens(k) >= 10
  {
    if k > 1 { TensGrow(k - 1); }
  }

  /** A length declared in decimal is read as that length, if and only if it has at most fifteen digits. */
  lemma LengthBack(n: nat)
    ensures ParseContentLength([Decimal(n)]) == if n < 1_000_000_000_000_000 then Exactly(n) else Unreadable
  {
    var s := Decimal(n);
    DecimalBack(n);
    assert Tens(8) == 1_0000_0000;
    assert Tens(15) == 1_000_000_000_000_000;
    DecimalLength(n, 15);
    DigitsAlone(s);
    OnePiece(s);
    assert Trimmed([s]) == [s];
    hide Decimal, DecimalValue, AllDigits, Pieces;
  }

  lemma DigitsAlone(s: string)
    requires AllDigits(s) && s != []
    ensures Split(s, ',') == [s] && Trim(s) == s
  {
    assert Digit(s[0]) && Digit(s[|s| - 1]);
    assert ',' !in s;
    assert IndexOf(s, ',') == |s|;
  }

  // ----- the framing of what an encoder wrote -----

  lemma ChunkedIsChunked()
    ensures Codings(Pieces(["chunked"])) == ["chunked"]
  {
    var s := "chunked";
    assert ',' !in s;
    assert IndexOf(s, ',') == |s|;
    assert Split(s, ',') == [s];
    assert Trimmed([s]) == [s];
    var one: seq<string> := [s];
    assert one[1..] == [];
    assert Pieces(one) == one;
    assert Lower(s) == s;
    assert Codings(one) == one;
  }

  lemma OneGet(name: string, value: string, want: string)
    ensures GetAll([Header(name, value)], want) == if Lower(name) == Lower(want) then [value] else []
  {
    assert [Header(name, value)][1..] == [];
  }
}
