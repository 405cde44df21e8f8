/** The reader gives back what was written, takes exactly its bytes, and misses every cut. */
module MsgpackProofs {
  import opened Basics
  import opened MsgpackInts
  import opened Utf8
  import opened Values
  import opened Msgpack

  /** `x` stands in `b` from `pos` on. */
  predicate At(b: Bytes, pos: nat, x: Bytes) {
    pos + |x| <= |b| && b[pos..pos + |x|] == x
  }

  lemma AtSplit(b: Bytes, pos: nat, x: Bytes, y: Bytes)
    requires At(b, pos, x + y)
    ensures At(b, pos, x) && At(b, pos + |x|, y)
  {
    var z := b[pos..pos + |x + y|];
    assert z[..|x|] == x && z[|x|..] == y;
    assert b[pos..pos + |x|] == z[..|x|];
    assert b[pos + |x|..pos + |x| + |y|] == z[|x|..];
  }

  lemma AtFirst(b: Bytes, pos: nat, a: byte, x: Bytes)
    requires At(b, pos, [a] + x)
    ensures pos < |b| && b[pos] == a && At(b, pos + 1, x)
  {
    AtSplit(b, pos, [a], x);
    assert b[pos..pos + 1][0] == a;
  }

  lemma TakeAt(b: Bytes, pos: nat, x: Bytes)
    requires At(b, pos, x)
    ensures Take(b, pos, |x|) == Piece(x, pos + |x|)
  {
  }

  // ----- numbers -----

  lemma ReadUnsigned(b: Bytes, pos: nat, x: int, k: nat)
    requires At(b, pos, BigEndian(x, k)) && 0 <= x < Pow256(k)
    ensures Take(b, pos, k).Piece? && UInt(Take(b, pos, k).bytes) == x
  {
    TakeAt(b, pos, BigEndian(x, k));
    UIntBack(x, k);
  }

  lemma ReadSigned(b: Bytes, pos: nat, x: int, k: nat)
    requires k >= 1 && At(b, pos, BigEndian(x, k)) && -128 * Pow256(k - 1) <= x < 128 * Pow256(k - 1)
    ensures Take(b, pos, k).Piece? && SInt(Take(b, pos, k).bytes) == x
  {
    TakeAt(b, pos, BigEndian(x, k));
    SIntBack(x, k);
  }

  lemma OneByte(x: int)
    ensures BigEndian(x, 1) == [Byte(x)]
  {
    assert BigEndian(x / 256, 0) == [];
  }

  /** The lead byte a number takes, and the bytes behind it. */
  datatype Form = Form(lead: byte, signed: bool, size: nat)

  function FormOf(n: int): Form {
    if 0 < n <= 0xff then Form(0xcc, false, 1)
    else if -0x80 <= n <= 0x7f then Form(0xd0, true, 1)
    else if 0 < n <= 0xffff then Form(0xcd, false, 2)
    else if -0x8000 <= n <= 0x7fff then Form(0xd1, true, 2)
    else if 0 < n <= 0xffff_ffff then Form(0xce, false, 4)
    else if -0x8000_0000 <= n <= 0x7fff_ffff then Form(0xd2, true, 4)
    else if 0 < n then Form(0xcf, false, 8)
    else Form(0xd3, true, 8)
  }

  /** Outside the one-byte ranges, a number is its lead byte and its two's complement. */
  lemma NumberForm(n: int)
    requires Safe(n) && !(-0x20 <= n <= 0x7f)
    ensures var f := FormOf(n);
            && Number(n) == [f.lead] + BigEndian(n, f.size)
            && f.size >= 1 && (f.signed ==> -128 * Pow256(f.size - 1) <= n < 128 * Pow256(f.size - 1))
            && (!f.signed ==> 0 <= n < Pow256(f.size))
            && KindOf(f.lead) == if f.signed then SIntOf(f.size) else UIntOf(f.size)
  {
    OneByte(n);
    Half16Is(n);
    Half32Is(n);
    Int64Is(n);
    Powers();
    hide BigEndian, Half16, Half32, Int64, Pow256;
  }

  lemma ReadSmall(h: Host, b: Bytes, pos: nat, n: int)
    requires -0x20 <= n <= 0x7f && At(b, pos, [Byte(n)])
    ensures Read(h, b, pos) == Got(Int(n), pos + 1)
  {
    assert b[pos..pos + 1][0] == Byte(n);
  }

  lemma ReadForm(h: Host, b: Bytes, pos: nat, n: int, f: Form)
    requires f.size >= 1 && KindOf(f.lead) == (if f.signed then SIntOf(f.size) else UIntOf(f.size))
    requires if f.signed then -128 * Pow256(f.size - 1) <= n < 128 * Pow256(f.size - 1) else 0 <= n < Pow256(f.size)
    requires At(b, pos, [f.lead] + BigEndian(n, f.size))
    ensures Read(h, b, pos) == Got(Int(n), pos + 1 + f.size)
  {
    hide BigEndian, KindOf, Pow256, UInt, SInt;
    AtFirst(b, pos, f.lead, BigEndian(n, f.size));
    if f.signed { ReadSigned(b, pos + 1, n, f.size); } else { ReadUnsigned(b, pos + 1, n, f.size); }
  }

  lemma ReadNumber(h: Host, b: Bytes, pos: nat, n: int)
    requires Safe(n) && At(b, pos, Number(n))
    ensures Read(h, b, pos) == Got(Int(n), pos + |Number(n)|)
  {
    if -0x20 <= n <= 0x7f {
      assert Number(n) == [Byte(n)];
      hide Read;
      ReadSmall(h, b, pos, n);
    } else {
      NumberForm(n);
      hide *;
      ReadForm(h, b, pos, n, FormOf(n));
    }
  }

  // ----- lengths -----

  function TextLen(n: nat): Len { if n <= 0x1f then Fixed(n) else Sized(if n <= 0xff then 1 else if n <= 0xffff then 2 else 4) }
  function BinLen(n: nat): Len { Sized(if n <= 0xff then 1 else if n <= 0xffff then 2 else 4) }
  function ArrLen(n: nat): Len { if n <= 0xf then Fixed(n) else Sized(if n <= 0xffff then 2 else 4) }

  /** A lead byte, and the length behind it if the lead byte does not hold it. */
  function HeadOf(lead: byte, n: nat, len: Len): Bytes {
    match len case Fixed(_) => [lead] case Sized(k) => [lead] + BigEndian(n, k)
  }

  /** A head with its length behind it reads back. */
  lemma ReadHead(b: Bytes, pos: nat, lead: byte, n: nat, len: Len)
    requires At(b, pos, HeadOf(lead, n, len)) && Fits(n, len)
    ensures pos < |b| && b[pos] == lead && ReadLength(b, pos + 1, len) == Length(n, pos + |HeadOf(lead, n, len)|)
  {
    match len
    case Fixed(_) => assert b[pos..pos + 1][0] == lead;
    case Sized(k) =>
      AtFirst(b, pos, lead, BigEndian(n, k));
      ReadUnsigned(b, pos + 1, n, k);
  }

  function TextLead(n: nat): byte { if n <= 0x1f then 0xa0 + n else if n <= 0xff then 0xd9 else if n <= 0xffff then 0xda else 0xdb }
  function BinLead(n: nat): byte { if n <= 0xff then 0xc4 else if n <= 0xffff then 0xc5 else 0xc6 }
  function ArrLead(n: nat): byte { if n <= 0xf then 0x90 + n else if n <= 0xffff then 0xdc else 0xdd }
  function ObjLead(n: nat): byte { if n <= 0xf then 0x80 + n else if n <= 0xffff then 0xde else 0xdf }

  predicate Fits(n: nat, len: Len) {
    match len case Fixed(m) => m == n case Sized(k) => n < Pow256(k)
  }

  lemma Heads(n: nat)
    requires n < POW32
    ensures TextHead(n) == HeadOf(TextLead(n), n, TextLen(n)) && KindOf(TextLead(n)) == TextOf(TextLen(n)) && Fits(n, TextLen(n))
    ensures BinHead(n) == HeadOf(BinLead(n), n, BinLen(n)) && KindOf(BinLead(n)) == BinOf(BinLen(n)) && Fits(n, BinLen(n))
    ensures ArrHead(n) == HeadOf(ArrLead(n), n, ArrLen(n)) && KindOf(ArrLead(n)) == ArrOf(ArrLen(n)) && Fits(n, ArrLen(n))
    ensures ObjHead(n) == HeadOf(ObjLead(n), n, ArrLen(n)) && KindOf(ObjLead(n)) == MapOf(ArrLen(n))
  {
    OneByte(n);
    Half16Is(n);
    Half32Is(n);
    Powers();
    hide BigEndian, Half16, Half32, Pow256;
  }

  lemma TextHeadIs(n: nat)
    requires n < POW32
    ensures TextHead(n) == HeadOf(TextLead(n), n, TextLen(n)) && KindOf(TextLead(n)) == TextOf(TextLen(n)) && Fits(n, TextLen(n))
  {
    Heads(n);
  }

  lemma BinHeadIs(n: nat)
    requires n < POW32
    ensures BinHead(n) == HeadOf(BinLead(n), n, BinLen(n)) && KindOf(BinLead(n)) == BinOf(BinLen(n)) && Fits(n, BinLen(n))
  {
    Heads(n);
  }

  lemma ArrHeadIs(n: nat)
    requires n < POW32
    ensures ArrHead(n) == HeadOf(ArrLead(n), n, ArrLen(n)) && KindOf(ArrLead(n)) == ArrOf(ArrLen(n)) && Fits(n, ArrLen(n))
  {
    Heads(n);
  }

  lemma ObjHeadIs(n: nat)
    requires n < POW32
    ensures ObjHead(n) == HeadOf(ObjLead(n), n, ArrLen(n)) && KindOf(ObjLead(n)) == MapOf(ArrLen(n)) && Fits(n, ArrLen(n))
  {
    Heads(n);
  }

  lemma ReadTextOf(h: Host, b: Bytes, pos: nat, len: Len, x: Bytes, from: nat)
    requires pos < |b| && KindOf(b[pos]) == TextOf(len) && ReadLength(b, pos + 1, len) == Length(|x|, from) && At(b, from, x)
    ensures Read(h, b, pos) == Got(Text(ReadText(h, x)), from + |x|)
  {
    hide KindOf, ReadLength, ReadText;
  }

  lemma ReadBinOf(h: Host, b: Bytes, pos: nat, len: Len, x: Bytes, from: nat)
    requires pos < |b| && KindOf(b[pos]) == BinOf(len) && ReadLength(b, pos + 1, len) == Length(|x|, from) && At(b, from, x)
    ensures Read(h, b, pos) == Got(Bin(x), from + |x|)
  {
    hide KindOf, ReadLength;
  }

  lemma TextBack(h: Host, s: Units)
    ensures ReadText(h, Encode(s)) == Normal(s)
  {
    RoundTrip(s);
    hide Encode, Decode, Normal;
  }

  lemma ReadTextBack(h: Host, b: Bytes, pos: nat, s: Units)
    requires |Encode(s)| < POW32 && At(b, pos, TextHead(|Encode(s)|) + Encode(s))
    ensures Read(h, b, pos) == Got(Text(Normal(s)), pos + |TextHead(|Encode(s)|) + Encode(s)|)
  {
    hide *;
    var x := Encode(s);
    assert ReadText(h, x) == Normal(s) by { TextBack(h, s); }
    AtSplit(b, pos, TextHead(|x|), x);
    TextHeadIs(|x|);
    ReadHead(b, pos, TextLead(|x|), |x|, TextLen(|x|));
    ReadTextOf(h, b, pos, TextLen(|x|), x, pos + |TextHead(|x|)|);
  }

  lemma ReadBinBack(h: Host, b: Bytes, pos: nat, d: Bytes)
    requires |d| < POW32 && At(b, pos, BinHead(|d|) + d)
    ensures Read(h, b, pos) == Got(Bin(d), pos + |BinHead(|d|) + d|)
  {
    hide *;
    AtSplit(b, pos, BinHead(|d|), d);
    BinHeadIs(|d|);
    ReadHead(b, pos, BinLead(|d|), |d|, BinLen(|d|));
    ReadBinOf(h, b, pos, BinLen(|d|), d, pos + |BinHead(|d|)|);
  }

  // ----- dates -----

  lemma UIntHalf(x: int)
    requires 0 <= x < POW32
    ensures UInt(Half32(x)) == x
  {
    Half32Is(x);
    Powers();
    UIntBack(x, 4);
  }

  lemma SIntInt64(x: int)
    requires Safe(x)
    ensures SInt(Int64(x)) == x && |Int64(x)| == 8
  {
    Int64Is(x);
    Powers();
    SIntBack(x, 8);
  }

  lemma LowBits(ns: int, hi: int)
    requires 0 <= ns && 0 <= hi < 4
    ensures Byte(ns * 4 + hi) / 4 == ns % 64 && Byte(ns * 4 + hi) % 4 == hi
  {
    var q := ns / 64;
    assert ns * 4 + hi == q * 256 + (ns % 64 * 4 + hi);
    DivMod(q, ns % 64 * 4 + hi);
  }

  lemma Three(q: int)
    requires 0 <= q < 0x100_0000
    ensures UInt([q / 256 / 256, q / 256 % 256, q % 256]) == q
  {
    Powers();
    UIntBack(q, 3);
    assert BigEndian(q / 256 / 256, 1) == BigEndian(q / 256 / 256 / 256, 0) + [q / 256 / 256 % 256];
    assert BigEndian(q / 256, 2) == BigEndian(q / 256 / 256, 1) + [q / 256 % 256];
    assert BigEndian(q, 3) == BigEndian(q / 256, 2) + [q % 256];
    assert q / 256 / 256 % 256 == q / 256 / 256;
    assert BigEndian(q, 3) == [q / 256 / 256, q / 256 % 256, q % 256];
  }

  /** Nanoseconds split over three bytes and six bits. */
  lemma NanoBits(ns: int, hi: int)
    requires 0 <= ns < 0x4000_0000 && 0 <= hi < 4
    ensures Byte(ns * 4 + hi) / 4 == ns % 64 && Byte(ns * 4 + hi) % 4 == hi
    ensures UInt([Byte(ns / 0x40_0000), Byte(ns / 0x4000), Byte(ns / 0x40)]) * 0x40 + ns % 64 == ns
  {
    LowBits(ns, hi);
    var q := ns / 64;
    Three(q);
    assert q / 256 == ns / 0x4000 && q / 256 / 256 == ns / 0x40_0000;
    hide UInt;
  }

  predicate ValidDate(ms: int) { -8_640_000_000_000_000 <= ms <= 8_640_000_000_000_000 }

  lemma StampParts(ms: int)
    ensures ms == ms / 1000 * 1000 + ms % 1000 && 0 <= ms % 1000 * NANOS < 0x4000_0000
    ensures ms % 1000 * NANOS / NANOS == ms % 1000
    ensures ms % 1000 * NANOS == 0 ==> ms % 1000 == 0
  {
  }

  /** Whole seconds since 1970 below 2^32. */
  lemma Stamp32(sec: int)
    requires 0 <= sec < POW32
    ensures ReadStamp(Half32(sec)) == Some(sec * 1000)
  {
    UIntHalf(sec);
  }

  function NanoFront(ns: int, hi: int): (r: Bytes)
    ensures |r| == 4
  {
    [Byte(ns / 0x40_0000), Byte(ns / 0x4000), Byte(ns / 0x40), Byte(ns * 4 + hi)]
  }

  /** 34 bits of seconds, 30 of nanoseconds. */
  lemma Stamp64(sec: int, m: int)
    requires 0 <= sec < 4 * POW32 && 0 <= m < 1000
    ensures ReadStamp(NanoFront(m * NANOS, sec / POW32) + Half32(sec)) == Some(sec * 1000 + m)
  {
    var ns, hi, lo := m * NANOS, sec / POW32, sec % POW32;
    var front := NanoFront(ns, hi);
    var data := front + Half32(sec);
    assert front[..3] == [Byte(ns / 0x40_0000), Byte(ns / 0x4000), Byte(ns / 0x40)] && front[3] == Byte(ns * 4 + hi);
    assert data[..3] == front[..3] && data[3] == front[3] && data[4..] == Half32(sec);
    NanoBits(ns, hi);
    assert sec == hi * POW32 + lo;
    LowBytes(lo, hi, sec);
    Half32Is(sec);
    Half32Is(lo);
    UIntHalf(lo);
    hide UInt, Half32, Byte, NanoFront, BigEndian;
    assert ns / NANOS == m;
  }

  /** 64 bits of seconds, negative ones too. */
  lemma Stamp96(sec: int, m: int)
    requires Safe(sec) && 0 <= m < 1000
    ensures ReadStamp(Half32(m * NANOS) + Int64(sec)) == Some(sec * 1000 + m)
  {
    var ns := m * NANOS;
    var data := Half32(ns) + Int64(sec);
    UIntHalf(ns);
    SIntInt64(sec);
    assert data[..4] == Half32(ns) && data[4..] == Int64(sec);
    hide UInt, SInt, Half32, Int64;
  }

  lemma ReadExtBody(h: Host, b: Bytes, pos: nat, len: Len, at: nat, body: Bytes, ms: int)
    requires pos < |b| && KindOf(b[pos]) == ExtOf(len) && ReadLength(b, pos + 1, len) == Length(|body|, at)
    requires At(b, at, [0xff] + body) && ReadStamp(body) == Some(ms)
    ensures Read(h, b, pos) == Got(Date(ms), at + 1 + |body|)
  {
    AtFirst(b, at, 0xff, body);
    hide ReadStamp, KindOf, ReadLength;
    TakeAt(b, at + 1, body);
  }

  lemma ReadStampFixed(h: Host, b: Bytes, pos: nat, lead: byte, body: Bytes, ms: int)
    requires KindOf(lead) == ExtOf(Fixed(|body|)) && ReadStamp(body) == Some(ms) && At(b, pos, [lead, 0xff] + body)
    ensures Read(h, b, pos) == Got(Date(ms), pos + 2 + |body|)
  {
    assert [lead, 0xff] + body == [lead] + ([0xff] + body);
    AtFirst(b, pos, lead, [0xff] + body);
    hide ReadStamp, KindOf, Read, At;
    ReadExtBody(h, b, pos, Fixed(|body|), pos + 1, body, ms);
  }

  lemma ReadStampSized(h: Host, b: Bytes, pos: nat, lead: byte, n: byte, body: Bytes, ms: int)
    requires KindOf(lead) == ExtOf(Sized(1)) && ReadStamp(body) == Some(ms) && n == |body| && At(b, pos, [lead, n, 0xff] + body)
    ensures Read(h, b, pos) == Got(Date(ms), pos + 3 + |body|)
  {
    assert [lead, n, 0xff] + body == [lead] + ([n] + ([0xff] + body));
    AtFirst(b, pos, lead, [n] + ([0xff] + body));
    AtFirst(b, pos + 1, n, [0xff] + body);
    assert Take(b, pos + 1, 1).bytes == [n];
    assert UInt([n]) == UInt([]) * 256 + n;
    hide ReadStamp, KindOf, Read, At, UInt;
    ReadExtBody(h, b, pos, Sized(1), pos + 2, body, ms);
  }

  lemma ReadDate32(h: Host, b: Bytes, pos: nat, sec: int)
    requires 0 <= sec < POW32 && At(b, pos, [0xd6, 0xff] + Half32(sec))
    ensures Read(h, b, pos) == Got(Date(sec * 1000), pos + 6)
  {
    Stamp32(sec);
    hide Half32, ReadStamp, Read;
    ReadStampFixed(h, b, pos, 0xd6, Half32(sec), sec * 1000);
  }

  lemma ReadDate64(h: Host, b: Bytes, pos: nat, sec: int, m: int)
    requires 0 <= sec < 4 * POW32 && 0 <= m < 1000 && At(b, pos, [0xd7, 0xff] + (NanoFront(m * NANOS, sec / POW32) + Half32(sec)))
    ensures Read(h, b, pos) == Got(Date(sec * 1000 + m), pos + 10)
  {
    Stamp64(sec, m);
    var body := NanoFront(m * NANOS, sec / POW32) + Half32(sec);
    assert |body| == 8;
    hide Half32, ReadStamp, NanoFront, Read;
    ReadStampFixed(h, b, pos, 0xd7, body, sec * 1000 + m);
  }

  lemma ReadDate96(h: Host, b: Bytes, pos: nat, sec: int, m: int)
    requires Safe(sec) && 0 <= m < 1000 && At(b, pos, [0xc7, 12, 0xff] + (Half32(m * NANOS) + Int64(sec)))
    ensures Read(h, b, pos) == Got(Date(sec * 1000 + m), pos + 15)
  {
    Stamp96(sec, m);
    SIntInt64(sec);
    hide Half32, ReadStamp, Int64, Read;
    ReadStampSized(h, b, pos, 0xc7, 12, Half32(m * NANOS) + Int64(sec), sec * 1000 + m);
  }

  lemma StampForm(ms: int)
    requires ValidDate(ms)
    ensures var sec, m := ms / 1000, ms % 1000;
            Stamp(ms) ==
              if m == 0 && 0 <= sec < POW32 then [0xd6, 0xff] + Half32(sec)
              else if 0 <= sec < 4 * POW32 then [0xd7, 0xff] + (NanoFront(m * NANOS, sec / POW32) + Half32(sec))
              else [0xc7, 12, 0xff] + (Half32(m * NANOS) + Int64(sec))
  {
    var sec, ns := ms / 1000, ms % 1000 * NANOS;
    StampParts(ms);
    hide Half32, Int64;
    if !(ns == 0 && 0 <= sec < POW32) {
      if 0 <= sec < 4 * POW32 {
        assert [0xd7, 0xff] + (NanoFront(ns, sec / POW32) + Half32(sec))
            == [0xd7, 0xff, Byte(ns / 0x40_0000), Byte(ns / 0x4000), Byte(ns / 0x40), Byte(ns * 4 + sec / POW32)] + Half32(sec);
      } else {
        assert [0xc7, 12, 0xff] + (Half32(ns) + Int64(sec)) == [0xc7, 12, 0xff] + Half32(ns) + Int64(sec);
      }
    }
  }

  lemma ReadDate(h: Host, b: Bytes, pos: nat, ms: int)
    requires ValidDate(ms) && At(b, pos, Stamp(ms))
    ensures Read(h, b, pos) == Got(Date(ms), pos + |Stamp(ms)|)
  {
    hide Half32, Int64, Read, At, Stamp, ReadStamp, NanoFront;
    var sec, m := ms / 1000, ms % 1000;
    StampForm(ms);
    StampParts(ms);
    if m == 0 && 0 <= sec < POW32 {
      ReadDate32(h, b, pos, sec);
    } else if 0 <= sec < 4 * POW32 {
      ReadDate64(h, b, pos, sec, m);
    } else {
      SIntInt64(sec);
      ReadDate96(h, b, pos, sec, m);
    }
  }
}
