/** Strings as UTF-16 code units, and their UTF-8 bytes (section 3 of RFC 3629). */
module Utf8 {
  import opened Basics
  import opened Values

  predicate High(c: int) { 0xd800 <= c < 0xdc00 }
  predicate Low(c: int) { 0xdc00 <= c < 0xe000 }

  function Pair(c: unit, c2: unit): int
    requires High(c) && Low(c2)
  {
    0x1_0000 + (c - 0xd800) * 0x400 + (c2 - 0xdc00)
  }

  function Three(c: int): (r: Bytes)
    ensures |r| == 3
    requires 0x800 <= c < 0x1_0000
  {
    [c / 4096 + 224, c / 64 % 64 + 128, c % 64 + 128]
  }

  function Four(c: int): (r: Bytes)
    ensures |r| == 4
    requires 0x1_0000 <= c < 0x11_0000
  {
    [c / 0x4_0000 + 240, c / 4096 % 64 + 128, c / 64 % 64 + 128, c % 64 + 128]
  }

  /** The bytes of a scalar value. */
  function Spell(c: int): (r: Bytes)
    requires 0 <= c < 0x11_0000
    ensures 1 <= |r| <= 4
  {
    if c < 128 then [c] else if c < 2048 then [c / 64 + 192, c % 64 + 128] else if c < 0x1_0000 then Three(c) else Four(c)
  }

  predicate Paired(s: Units) { |s| > 1 && High(s[0]) && Low(s[1]) }

  /** The units of the first character. */
  function Width(s: Units): nat { if Paired(s) then 2 else 1 }

  /** The scalar value written for it: a surrogate without its partner counts as U+FFFD. */
  function ScalarAt(s: Units): (c: int)
    requires s != []
    ensures 0 <= c < 0x11_0000 && !High(c) && !Low(c)
  {
    if Paired(s) then Pair(s[0], s[1]) else if High(s[0]) || Low(s[0]) then 0xfffd else s[0]
  }

  function Encode(s: Units): Bytes
    decreases |s|
  {
    if s == [] then [] else Spell(ScalarAt(s)) + Encode(s[Width(s)..])
  }

  /** What a reader gets of a string: its lone surrogates replaced. */
  function Normal(s: Units): Units
    decreases |s|
  {
    if s == [] then []
    else if Paired(s) then s[..2] + Normal(s[2..])
    else [if High(s[0]) || Low(s[0]) then 0xfffd else s[0]] + Normal(s[1..])
  }

  predicate Tail(b: int) { 128 <= b < 192 }

  function Join2(a: int, b: int): int { (a - 192) * 64 + (b - 128) }
  function Join3(a: int, b: int, c: int): int { ((a - 224) * 64 + (b - 128)) * 64 + (c - 128) }
  function Join4(a: int, b: int, c: int, d: int): int { (((a - 240) * 64 + (b - 128)) * 64 + (c - 128)) * 64 + (d - 128) }

  /** The scalar value at the front of well-formed bytes, and how many it takes. */
  datatype Scalar = Scalar(value: int, size: nat) | Malformed

  function First(b: Bytes): (r: Scalar)
    requires b != []
    ensures r.Scalar? ==> 1 <= r.size <= |b| && r.size <= 4 && 0 <= r.value < 0x11_0000 && !High(r.value) && !Low(r.value)
  {
    var a := b[0];
    if a < 128 then Scalar(a, 1)
    else if 0xc2 <= a <= 0xdf && |b| >= 2 && Tail(b[1]) then Scalar(Join2(a, b[1]), 2)
    else if 0xe0 <= a <= 0xef && |b| >= 3 && Tail(b[1]) && Tail(b[2]) then
      var c := Join3(a, b[1], b[2]);
      if c < 0x800 || High(c) || Low(c) then Malformed else Scalar(c, 3)
    else if 0xf0 <= a <= 0xf4 && |b| >= 4 && Tail(b[1]) && Tail(b[2]) && Tail(b[3]) then
      var c := Join4(a, b[1], b[2], b[3]);
      if c < 0x1_0000 || c >= 0x11_0000 then Malformed else Scalar(c, 4)
    else Malformed
  }

  function UnitsOf(c: int): Units
    requires 0 <= c < 0x11_0000
  {
    if c < 0x1_0000 then [c] else [0xd800 + (c - 0x1_0000) / 0x400, 0xdc00 + (c - 0x1_0000) % 0x400]
  }

  /** Strict decoding: `None` for anything that is not well-formed UTF-8. */
  function Decode(b: Bytes): Option<Units> {
    if b == [] then Some([])
    else match First(b)
      case Malformed => None
      case Scalar(c, n) =>
        match Decode(b[n..])
        case None => None
        case Some(rest) => Some(UnitsOf(c) + rest)
  }

  // ----- round trip -----

  lemma Digits2(q: int, m: int)
    requires 0 <= m < 64
    ensures (q * 64 + m) / 64 == q && (q * 64 + m) % 64 == m
  {
  }

  lemma Nested(c: int)
    ensures c == c / 64 * 64 + c % 64 && c / 64 / 64 == c / 4096 && c / 4096 / 64 == c / 0x4_0000
    ensures c / 64 == c / 4096 * 64 + c / 64 % 64 && c / 4096 == c / 0x4_0000 * 64 + c / 4096 % 64
  {
  }

  lemma SpellFirst(c: int, rest: Bytes)
    requires 0 <= c < 0x11_0000 && !High(c) && !Low(c)
    ensures First(Spell(c) + rest) == Scalar(c, |Spell(c)|)
  {
    var b := Spell(c) + rest;
    Nested(c);
    if c >= 0x1_0000 {
      assert b[0] == c / 0x4_0000 + 240 && b[1] == c / 4096 % 64 + 128 && b[2] == c / 64 % 64 + 128 && b[3] == c % 64 + 128;
    } else if c >= 2048 {
      assert b[0] == c / 4096 + 224 && b[1] == c / 64 % 64 + 128 && b[2] == c % 64 + 128;
    } else if c >= 128 {
      assert b[0] == c / 64 + 192 && b[1] == c % 64 + 128;
    } else {
      assert b[0] == c;
    }
  }

  lemma DecodeNext(piece: Bytes, tail: Bytes, c: int)
    requires 0 <= c < 0x11_0000 && piece != [] && First(piece + tail) == Scalar(c, |piece|)
    ensures Decode(tail).Some? ==> Decode(piece + tail) == Some(UnitsOf(c) + Decode(tail).value)
  {
    assert (piece + tail)[|piece|..] == tail;
    hide First;
  }

  /** What is encoded is well-formed, and decodes to the string with its lone surrogates replaced. */
  lemma {:induction false} RoundTrip(s: Units)
    ensures Decode(Encode(s)) == Some(Normal(s))
    decreases |s|
  {
    if s != [] {
      var c, w := ScalarAt(s), Width(s);
      RoundTrip(s[w..]);
      SpellFirst(c, Encode(s[w..]));
      DecodeNext(Spell(c), Encode(s[w..]), c);
      assert Normal(s) == UnitsOf(c) + Normal(s[w..]) by {
        if Paired(s) { assert UnitsOf(c) == s[..2]; }
      }
      hide Decode, First, Spell;
    }
  }

  lemma EncodeOne(c: int, rest: Units)
    requires 0 <= c < 0x11_0000 && !High(c) && !Low(c)
    ensures Encode(UnitsOf(c) + rest) == Spell(c) + Encode(rest)
  {
    var s := UnitsOf(c) + rest;
    if c < 0x1_0000 {
      assert s[1..] == rest;
    } else {
      assert s[2..] == rest;
      assert Pair(s[0], s[1]) == c;
    }
    hide Spell;
  }

  lemma FirstBytes(b: Bytes)
    requires b != [] && First(b).Scalar?
    ensures b[..First(b).size] == Spell(First(b).value)
  {
    match First(b).size
    case 1 =>
    case 2 => Digits2(b[0] - 192, b[1] - 128);
    case 3 => FirstThree(b[0], b[1], b[2]);
    case 4 => FirstFour(b[0], b[1], b[2], b[3]);
  }

  lemma FirstThree(a: int, b: int, c: int)
    requires Tail(b) && Tail(c)
    ensures Join3(a, b, c) / 4096 == a - 224 && Join3(a, b, c) / 64 % 64 == b - 128 && Join3(a, b, c) % 64 == c - 128
  {
    Digits2((a - 224) * 64 + (b - 128), c - 128);
    Digits2(a - 224, b - 128);
    Nested(Join3(a, b, c));
  }

  lemma FirstFour(a: int, b: int, c: int, d: int)
    requires Tail(b) && Tail(c) && Tail(d)
    ensures Join4(a, b, c, d) / 0x4_0000 == a - 240 && Join4(a, b, c, d) / 4096 % 64 == b - 128
    ensures Join4(a, b, c, d) / 64 % 64 == c - 128 && Join4(a, b, c, d) % 64 == d - 128
  {
    Digits2(((a - 240) * 64 + (b - 128)) * 64 + (c - 128), d - 128);
    Digits2((a - 240) * 64 + (b - 128), c - 128);
    Digits2(a - 240, b - 128);
    Nested(Join4(a, b, c, d));
  }

  /** Every well-formed byte string is the encoding of what it decodes to: no two spell the same string. */
  lemma {:induction false} Canonical(b: Bytes)
    requires Decode(b).Some?
    ensures Encode(Decode(b).value) == b
    decreases |b|
  {
    if b != [] {
      var f := First(b);
      FirstBytes(b);
      assert b == b[..f.size] + b[f.size..];
      hide First, Spell;
      Canonical(b[f.size..]);
      EncodeOne(f.value, Decode(b[f.size..]).value);
      hide Encode;
    }
  }

  // ----- the loop -----

  function Room(units: nat, ascii: bool): nat { if ascii then units else 4 * units }

  method AllAscii(s: Units) returns (ascii: bool)
    ensures ascii <==> forall i :: 0 <= i < |s| ==> s[i] < 128
  {
    for x := 0 to |s|
      invariant forall i :: 0 <= i < x ==> s[i] < 128
    {
      if s[x] > 127 { return false; }
    }
    return true;
  }

  /** `encodeUtf8`: into a buffer of one byte a unit if all are ASCII, else four. */
  method EncodeLoop(s: Units) returns (r: Bytes)
    ensures r == Encode(s)
  {
    var ascii := AllAscii(s);
    var bytes := new byte[Room(|s|, ascii)](_ => 0);
    var i := Fill(s, ascii, bytes);
    r := bytes[..i];
  }

  method Fill(s: Units, ascii: bool, bytes: array<byte>) returns (i: nat)
    requires (ascii ==> forall i :: 0 <= i < |s| ==> s[i] < 128) && bytes.Length == Room(|s|, ascii)
    modifies bytes
    ensures i <= bytes.Length && bytes[..i] == Encode(s)
  {
    i := 0;
    var ci: nat := 0;
    assert s[0..] == s && s[|s|..] == [] && Encode([]) == [];
    ghost var all := Encode(s);
    hide Encode, Normal, Decode, Spell, ScalarAt, Width;
    while ci < |s|
      invariant ci <= |s| && i + Room(|s| - ci, ascii) <= bytes.Length
      invariant bytes[..i] + Encode(s[ci..]) == all
      decreases |s| - ci
    {
      EncodeStep(s, ci, bytes[..i], all);
      i, ci := FillOne(s, ascii, bytes, i, ci);
    }
    assert bytes[..i] + [] == bytes[..i];
  }

  lemma EncodeStep(s: Units, ci: nat, done: Bytes, all: Bytes)
    requires ci < |s| && done + Encode(s[ci..]) == all
    ensures var w := Width(s[ci..]);
            ci + w <= |s| && (done + Spell(ScalarAt(s[ci..]))) + Encode(s[ci + w..]) == all
  {
    var t := s[ci..];
    assert t[Width(t)..] == s[ci + Width(t)..];
    Advance(done, Spell(ScalarAt(t)), Encode(s[ci + Width(t)..]), Encode(t), all);
  }

  /** One character goes into the buffer. */
  method FillOne(s: Units, ascii: bool, bytes: array<byte>, i: nat, ci: nat) returns (i': nat, ci': nat)
    requires (ascii ==> forall i :: 0 <= i < |s| ==> s[i] < 128) && ci < |s| && i + Room(|s| - ci, ascii) <= bytes.Length
    modifies bytes
    ensures ci < ci' <= |s| && ci' == ci + Width(s[ci..]) && i' + Room(|s| - ci', ascii) <= bytes.Length
    ensures bytes[..i'] == old(bytes[..i]) + Spell(ScalarAt(s[ci..]))
  {
    var step, piece := Next(s, ci, ascii);
    hide Spell, ScalarAt, Width;
    PutBytes(bytes, i, piece);
    i', ci' := i + |piece|, ci + step;
  }

  lemma Advance(done: Bytes, piece: Bytes, rest: Bytes, left: Bytes, all: Bytes)
    requires left == piece + rest && done + left == all
    ensures (done + piece) + rest == all
  {
  }

  method PutBytes(a: array<byte>, at: nat, piece: Bytes)
    requires at + |piece| <= a.Length
    modifies a
    ensures a[..at + |piece|] == old(a[..at]) + piece
  {
    ghost var before := a[..at];
    forall j | 0 <= j < |piece| { a[at + j] := piece[j]; }
    assert a[..at] == before && a[at..at + |piece|] == piece;
    assert a[..at + |piece|] == a[..at] + a[at..at + |piece|];
  }

  /** The bytes of the next character, and the units it takes. */
  method Next(s: Units, ci: nat, ascii: bool) returns (step: nat, piece: Bytes)
    requires ci < |s| && (ascii ==> forall i :: 0 <= i < |s| ==> s[i] < 128)
    ensures step == Width(s[ci..]) && ci + step <= |s| && piece == Spell(ScalarAt(s[ci..])) && |piece| <= Room(step, ascii)
  {
    var c: int := s[ci];
    if c < 128 { return 1, [c]; }
    if c < 2048 { return 1, [c / 64 + 192, c % 64 + 128]; }
    var c2: int := if High(c) && ci + 1 < |s| then s[ci + 1] else 0;
    if Low(c2) { return 2, Four(Pair(s[ci], s[ci + 1])); }
    if High(c) || Low(c) { c := 0xfffd; }
    return 1, Three(c);
  }
}
