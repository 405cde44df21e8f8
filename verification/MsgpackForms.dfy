/**
 The layouts of MessagePack, lead byte by lead byte: every one of them is read as
 the value it stands for, and none shorter than what the writer chose would do.
 */
module MsgpackForms {
  import opened Basics
  import opened MsgpackInts
  import opened Utf8
  import opened Values
  import opened Msgpack
  import opened MsgpackProofs

  // ----- reading: nil, booleans, integers, floats -----

  /** The lead bytes that are whole values, and the one that is none. */
  lemma FixedForms(h: Host, b: Bytes, pos: nat, lead: int)
    requires pos < |b| && lead == b[pos]
    ensures lead <= 127 ==> Read(h, b, pos) == Got(Int(lead), pos + 1)
    ensures lead >= 224 ==> Read(h, b, pos) == Got(Int(lead - 256), pos + 1)
    ensures lead == 192 ==> Read(h, b, pos) == Got(Null, pos + 1)
    ensures lead == 193 ==> Read(h, b, pos) == Bad
    ensures lead == 194 ==> Read(h, b, pos) == Got(Bool(false), pos + 1)
    ensures lead == 195 ==> Read(h, b, pos) == Got(Bool(true), pos + 1)
  {
  }

  /** One, two, four or eight bytes behind a lead byte. */
  predicate Width(k: nat) { k == 1 || k == 2 || k == 4 || k == 8 }

  function Log(k: nat): nat
    requires Width(k)
  {
    if k == 1 then 0 else if k == 2 then 1 else if k == 4 then 2 else 3
  }

  /** 0xcc to 0xcf, unsigned; 0xd0 to 0xd3, two's complement. */
  lemma IntegerForms(h: Host, b: Bytes, pos: nat, k: nat, n: int)
    requires Width(k)
    ensures At(b, pos, [204 + Log(k)] + BigEndian(n, k)) && 0 <= n < Pow256(k) ==> Read(h, b, pos) == Got(Int(n), pos + 1 + k)
    ensures At(b, pos, [208 + Log(k)] + BigEndian(n, k)) && -128 * Pow256(k - 1) <= n < 128 * Pow256(k - 1) ==> Read(h, b, pos) == Got(Int(n), pos + 1 + k)
  {
    assert KindOf(204 + Log(k)) == UIntOf(k) && KindOf(208 + Log(k)) == SIntOf(k);
    hide BigEndian, KindOf, Pow256, Read, At;
    if At(b, pos, [204 + Log(k)] + BigEndian(n, k)) && 0 <= n < Pow256(k) { ReadForm(h, b, pos, n, Form(204 + Log(k), false, k)); }
    if At(b, pos, [208 + Log(k)] + BigEndian(n, k)) && -128 * Pow256(k - 1) <= n < 128 * Pow256(k - 1) { ReadForm(h, b, pos, n, Form(208 + Log(k), true, k)); }
  }

  lemma FloatForms(h: Host, b: Bytes, pos: nat, bits: Bytes)
    ensures |bits| == 4 && At(b, pos, [202] + bits) ==> Read(h, b, pos) == Got(Float32(bits), pos + 5)
    ensures |bits| == 8 && At(b, pos, [203] + bits) ==> Read(h, b, pos) == Got(Float(bits), pos + 9)
  {
    if |bits| == 4 && At(b, pos, [202] + bits) { FloatAt(h, b, pos, 202, bits); }
    if |bits| == 8 && At(b, pos, [203] + bits) { FloatAt(h, b, pos, 203, bits); }
  }

  lemma FloatAt(h: Host, b: Bytes, pos: nat, lead: byte, bits: Bytes)
    requires At(b, pos, [lead] + bits) && KindOf(lead) == FloatOf(|bits|)
    ensures Read(h, b, pos) == Got(if |bits| == 4 then Float32(bits) else Float(bits), pos + 1 + |bits|)
  {
    AtFirst(b, pos, lead, bits);
    TakeAt(b, pos + 1, bits);
  }

  // ----- reading: lengths -----

  /** The heads of one family: with the length in the lead byte, or in one, two or four bytes behind it. */
  datatype Family = Family(fix: nat, limit: int, one: nat, two: nat, four: nat)

  const TEXTS := Family(160, 31, 217, 218, 219)
  const BINS := Family(0, -1, 196, 197, 198)
  const ARRAYS := Family(144, 15, 0, 220, 221)
  const MAPS := Family(128, 15, 0, 222, 223)

  /** `x` is a head of the family for the length `n`. */
  predicate IsHead(f: Family, x: Bytes, n: nat) {
    |x| > 0 &&
    var lead: int := x[0];
    || (n <= f.limit && lead == f.fix + n && |x| == 1)
    || (f.one > 0 && n < 256 && lead == f.one && x[1..] == [n])
    || (n < 65536 && lead == f.two && x[1..] == [n / 256, n % 256])
    || (n < 4294967296 && lead == f.four && x[1..] == [n / 16777216, n / 65536 % 256, n / 256 % 256, n % 256])
  }

  /** The length a head's kind gives. */
  predicate KindIs(f: Family, kind: Kind, len: Len) {
    kind == if f == TEXTS then TextOf(len) else if f == BINS then BinOf(len) else if f == ARRAYS then ArrOf(len) else MapOf(len)
  }

  lemma Big2(n: nat)
    requires n < 65536
    ensures BigEndian(n, 2) == [n / 256, n % 256]
  {
    assert BigEndian(n / 256, 1) == BigEndian(n / 256 / 256, 0) + [n / 256 % 256];
  }

  lemma Big4(n: nat)
    requires n < 4294967296
    ensures BigEndian(n, 4) == [n / 16777216, n / 65536 % 256, n / 256 % 256, n % 256]
  {
    Big2(n / 65536);
    assert BigEndian(n / 256 / 256, 2) == [n / 16777216, n / 65536 % 256];
    assert BigEndian(n / 256, 3) == BigEndian(n / 256 / 256, 2) + [n / 256 % 256];
    assert BigEndian(n, 4) == BigEndian(n / 256, 3) + [n % 256];
  }

  /** How many bytes of length a head has behind its lead byte. */
  function Behind(x: Bytes, n: nat): Len
    requires |x| > 0
  {
    if |x| == 1 then Fixed(n) else Sized(|x| - 1)
  }

  lemma HeadMeans(f: Family, x: Bytes, n: nat)
    requires f == TEXTS || f == BINS || f == ARRAYS || f == MAPS
    requires IsHead(f, x, n)
    ensures x == HeadOf(x[0], n, Behind(x, n)) && Fits(n, Behind(x, n)) && KindIs(f, KindOf(x[0]), Behind(x, n))
  {
    assert x == [x[0]] + x[1..];
    OneByte(n);
    if n < 65536 { Big2(n); }
    if n < 4294967296 { Big4(n); }
    Powers();
    hide BigEndian, Pow256;
  }

  lemma HeadRead(f: Family, b: Bytes, pos: nat, x: Bytes, n: nat)
    requires f == TEXTS || f == BINS || f == ARRAYS || f == MAPS
    requires IsHead(f, x, n) && At(b, pos, x)
    ensures pos < |b| && b[pos] == x[0] && ReadLength(b, pos + 1, Behind(x, n)) == Length(n, pos + |x|)
  {
    HeadMeans(f, x, n);
    hide IsHead, KindOf, KindIs, At, HeadOf, Fits;
    ReadHead(b, pos, x[0], n, Behind(x, n));
  }

  /** Text and binary data are read whole behind any head of their family. */
  lemma TextForms(h: Host, b: Bytes, pos: nat, head: Bytes, x: Bytes)
    requires IsHead(TEXTS, head, |x|) && At(b, pos, head + x)
    ensures Read(h, b, pos) == Got(Text(ReadText(h, x)), pos + |head| + |x|)
  {
    AtSplit(b, pos, head, x);
    HeadMeans(TEXTS, head, |x|);
    hide IsHead, KindOf, Read, ReadLength, ReadText, HeadOf, Fits, At;
    HeadRead(TEXTS, b, pos, head, |x|);
    ReadTextOf(h, b, pos, Behind(head, |x|), x, pos + |head|);
  }

  lemma BinForms(h: Host, b: Bytes, pos: nat, head: Bytes, x: Bytes)
    requires IsHead(BINS, head, |x|) && At(b, pos, head + x)
    ensures Read(h, b, pos) == Got(Bin(x), pos + |head| + |x|)
  {
    AtSplit(b, pos, head, x);
    HeadMeans(BINS, head, |x|);
    hide IsHead, KindOf, Read, ReadLength, HeadOf, Fits, At;
    HeadRead(BINS, b, pos, head, |x|);
    ReadBinOf(h, b, pos, Behind(head, |x|), x, pos + |head|);
  }

  lemma KindAt(f: Family, b: Bytes, pos: nat, head: Bytes, n: nat)
    requires f == ARRAYS || f == MAPS
    requires IsHead(f, head, n) && At(b, pos, head)
    ensures pos + |head| <= |b| && pos < |b| && |head| > 0
    ensures ReadLength(b, pos + 1, Behind(head, n)) == Length(n, pos + |head|)
    ensures KindOf(b[pos]) == if f == ARRAYS then ArrOf(Behind(head, n)) else MapOf(Behind(head, n))
  {
    HeadMeans(f, head, n);
    HeadRead(f, b, pos, head, n);
    hide IsHead, KindOf, ReadLength, HeadOf, Fits;
  }

  lemma ArrayOf(h: Host, b: Bytes, pos: nat, len: Len, n: nat, from: nat)
    requires pos < |b| && KindOf(b[pos]) == ArrOf(len) && ReadLength(b, pos + 1, len) == Length(n, from)
    ensures match ReadMany(h, b, from, n)
            case GotAll(vs, next) => Read(h, b, pos) == Got(Arr(vs), next)
            case NoneShort => Read(h, b, pos) == Short
            case NoneBad => Read(h, b, pos) == Bad
  {
    hide KindOf, ReadLength, ReadMany;
  }

  lemma MapOfPairs(h: Host, b: Bytes, pos: nat, len: Len, n: nat, from: nat)
    requires pos < |b| && KindOf(b[pos]) == MapOf(len) && ReadLength(b, pos + 1, len) == Length(n, from)
    ensures match ReadPairs(h, b, from, n, [])
            case GotPairs(fs, next) => Read(h, b, pos) == Got(Obj(fs), next)
            case PairsShort => Read(h, b, pos) == Short
            case PairsBad => Read(h, b, pos) == Bad
  {
    hide KindOf, ReadLength, ReadPairs;
  }

  /** An array is as many values as its head says, read one after another; so is a map, of pairs. */
  lemma ArrayForms(h: Host, b: Bytes, pos: nat, head: Bytes, n: nat)
    requires IsHead(ARRAYS, head, n) && At(b, pos, head)
    ensures match ReadMany(h, b, pos + |head|, n)
            case GotAll(vs, next) => Read(h, b, pos) == Got(Arr(vs), next)
            case NoneShort => Read(h, b, pos) == Short
            case NoneBad => Read(h, b, pos) == Bad
  {
    hide IsHead, KindOf, ReadLength, ReadMany, Read;
    KindAt(ARRAYS, b, pos, head, n);
    hide At, Behind;
    ArrayOf(h, b, pos, Behind(head, n), n, pos + |head|);
  }

  lemma MapForms(h: Host, b: Bytes, pos: nat, head: Bytes, n: nat)
    requires IsHead(MAPS, head, n) && At(b, pos, head)
    ensures match ReadPairs(h, b, pos + |head|, n, [])
            case GotPairs(fs, next) => Read(h, b, pos) == Got(Obj(fs), next)
            case PairsShort => Read(h, b, pos) == Short
            case PairsBad => Read(h, b, pos) == Bad
  {
    hide IsHead, KindOf, ReadLength, ReadPairs, Read;
    KindAt(MAPS, b, pos, head, n);
    hide At, Behind;
    MapOfPairs(h, b, pos, Behind(head, n), n, pos + |head|);
  }

  // ----- reading: extensions -----

  /** 0xd4 to 0xd8 for 1, 2, 4, 8 and 16 bytes; 0xc7 to 0xc9 with the length behind in 1, 2 or 4 bytes. */
  predicate IsExtHead(x: Bytes, n: nat) {
    |x| > 0 &&
    var lead: int := x[0];
    || (|x| == 1 && ((lead == 212 && n == 1) || (lead == 213 && n == 2) || (lead == 214 && n == 4) || (lead == 215 && n == 8) || (lead == 216 && n == 16)))
    || (n < 256 && lead == 199 && x[1..] == [n])
    || (n < 65536 && lead == 200 && x[1..] == [n / 256, n % 256])
    || (n < 4294967296 && lead == 201 && x[1..] == [n / 16777216, n / 65536 % 256, n / 256 % 256, n % 256])
  }

  lemma ExtKind(x: Bytes, n: nat)
    requires IsExtHead(x, n)
    ensures |x| == 1 || |x| == 2 || |x| == 3 || |x| == 5
    ensures KindOf(x[0]) == ExtOf(Behind(x, n))
  {
  }

  lemma ExtMeans(x: Bytes, n: nat)
    requires IsExtHead(x, n)
    ensures x == HeadOf(x[0], n, Behind(x, n)) && Fits(n, Behind(x, n)) && KindOf(x[0]) == ExtOf(Behind(x, n))
  {
    ExtKind(x, n);
    hide KindOf;
    assert x == [x[0]] + x[1..];
    if |x| > 1 {
      OneByte(n);
      if n < 65536 { Big2(n); }
      if n < 4294967296 { Big4(n); }
      Powers();
      hide BigEndian, Pow256;
    }
  }

  /** An extension of any type but the timestamp is kept as it is; a timestamp of a length that is none is refused. */
  lemma ExtForms(h: Host, b: Bytes, pos: nat, head: Bytes, kind: byte, x: Bytes)
    requires IsExtHead(head, |x|) && At(b, pos, head + ([kind] + x))
    ensures kind != 255 ==> Read(h, b, pos) == Got(Ext(kind, x), pos + |head| + 1 + |x|)
    ensures kind == 255 && |x| != 4 && |x| != 8 && |x| != 12 ==> Read(h, b, pos) == Bad
  {
    AtSplit(b, pos, head, [kind] + x);
    ExtMeans(head, |x|);
    hide IsExtHead, KindOf, HeadOf, Fits, Read, ReadLength, At;
    ReadHead(b, pos, head[0], |x|, Behind(head, |x|));
    ExtOfBody(h, b, pos, Behind(head, |x|), pos + |head|, kind, x);
  }

  lemma ExtOfBody(h: Host, b: Bytes, pos: nat, len: Len, at: nat, kind: byte, x: Bytes)
    requires pos < |b| && KindOf(b[pos]) == ExtOf(len) && ReadLength(b, pos + 1, len) == Length(|x|, at)
    requires at <= |b| && At(b, at, [kind] + x)
    ensures kind != 255 ==> Read(h, b, pos) == Got(Ext(kind, x), at + 1 + |x|)
    ensures kind == 255 && |x| != 4 && |x| != 8 && |x| != 12 ==> Read(h, b, pos) == Bad
  {
    AtFirst(b, at, kind, x);
    hide KindOf, ReadLength;
    TakeAt(b, at + 1, x);
  }

  // ----- writing: the shortest form -----

  lemma {:induction false} UIntUnder(x: Bytes)
    ensures UInt(x) < Pow256(|x|)
  {
    if x != [] { UIntUnder(x[..|x| - 1]); }
  }

  lemma {:induction false} SIntUnder(x: Bytes)
    requires x != []
    ensures -128 * Pow256(|x| - 1) <= SInt(x) < 128 * Pow256(|x| - 1)
  {
    if |x| > 1 { SIntUnder(x[..|x| - 1]); }
  }

  lemma NumberSize(n: int)
    requires Safe(n)
    ensures |Number(n)| ==
              if -32 <= n <= 127 then 1
              else if -128 <= n <= 255 then 2
              else if -32768 <= n <= 65535 then 3
              else if -2147483648 <= n <= 4294967295 then 5
              else 9
  {
    if !(-32 <= n <= 127) { NumberForm(n); }
    hide Byte, Half16, Half32, Int64, KindOf, Pow256;
  }

  /** How much a kind of integer takes, and what it can hold. */
  lemma IntegerRead(h: Host, x: Bytes, n: int)
    requires x != [] && Read(h, x, 0) == Got(Int(n), |x|)
    ensures match KindOf(x[0])
            case SmallInt(m) => n == m && -32 <= n <= 127
            case UIntOf(k) => |x| == 1 + k && Width(k) && 0 <= n < Pow256(k)
            case SIntOf(k) => |x| == 1 + k && Width(k) && -128 * Pow256(k - 1) <= n < 128 * Pow256(k - 1)
            case _ => false
  {
    IntegerKinds(x[0]);
    match KindOf(x[0])
    case UIntOf(k) => UIntUnder(x[1..1 + k]);
    case SIntOf(k) => SIntUnder(x[1..1 + k]);
    case MapOf(_) => hide ReadPairs;
    case ArrOf(_) => hide ReadMany;
    case _ =>
  }

  lemma IntegerKinds(b: byte)
    ensures match KindOf(b) case UIntOf(k) => Width(k) case SIntOf(k) => Width(k) case SmallInt(m) => -32 <= m <= 127 case _ => true
  {
  }

  /** Nothing shorter than what is written for an integer reads as it. */
  lemma ShortestNumber(h: Host, x: Bytes, n: int)
    requires Safe(n) && x != [] && Read(h, x, 0) == Got(Int(n), |x|)
    ensures |Number(n)| <= |x|
  {
    IntegerRead(h, x, n);
    NumberSize(n);
    Powers();
    hide Read, KindOf, Number, Pow256;
  }

  /** The heads that are written are heads of their families, and none is shorter. */
  lemma ShortestHeads(n: nat, x: Bytes)
    requires n < 4294967296
    ensures IsHead(TEXTS, TextHead(n), n) && IsHead(BINS, BinHead(n), n) && IsHead(ARRAYS, ArrHead(n), n) && IsHead(MAPS, ObjHead(n), n)
    ensures IsHead(TEXTS, x, n) ==> |TextHead(n)| <= |x|
    ensures IsHead(BINS, x, n) ==> |BinHead(n)| <= |x|
    ensures IsHead(ARRAYS, x, n) ==> |ArrHead(n)| <= |x|
    ensures IsHead(MAPS, x, n) ==> |ObjHead(n)| <= |x|
  {
    HeadBytes(n);
    hide Half16, Half32;
  }

  lemma HeadBytes(n: nat)
    requires n < 4294967296
    ensures n < 65536 ==> Half16(n) == [n / 256, n % 256]
    ensures Half32(n) == [n / 16777216, n / 65536 % 256, n / 256 % 256, n % 256]
  {
    Half32Is(n);
    Big4(n);
    if n < 65536 {
      Half16Is(n);
      Big2(n);
    }
  }
}
