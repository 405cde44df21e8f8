/** Round trips of whole values, cuts, and streams of framed values. */
module MsgpackTrips {
  import opened Basics
  import opened MsgpackInts
  import opened Utf8
  import opened Values
  import opened Msgpack
  import opened MsgpackProofs
  import opened Cutter
  import U = Uint32

  lemma ReadMark(h: Host, b: Bytes, pos: nat, v: Value)
    requires (v.Undef? || v.Null? || v.Bool?) && At(b, pos, Serialize(v))
    ensures Read(h, b, pos) == Got(NormalForm(v), pos + |Serialize(v)|)
  {
    assert b[pos..pos + 1][0] == Serialize(v)[0];
  }

  lemma ReadFloatBack(h: Host, b: Bytes, pos: nat, bits: Bytes)
    requires |bits| == 8 && At(b, pos, [0xcb] + bits)
    ensures Read(h, b, pos) == Got(Float(bits), pos + 9)
  {
    AtFirst(b, pos, 0xcb, bits);
    TakeAt(b, pos + 1, bits);
  }

  lemma ReadArrOf(h: Host, b: Bytes, pos: nat, len: Len, n: nat, from: nat)
    requires pos < |b| && KindOf(b[pos]) == ArrOf(len) && ReadLength(b, pos + 1, len) == Length(n, from)
    ensures ReadMany(h, b, from, n).GotAll? ==>
              Read(h, b, pos) == Got(Arr(ReadMany(h, b, from, n).values), ReadMany(h, b, from, n).next)
  {
    hide KindOf, ReadLength;
  }

  lemma ReadMapOf(h: Host, b: Bytes, pos: nat, len: Len, n: nat, from: nat)
    requires pos < |b| && KindOf(b[pos]) == MapOf(len) && ReadLength(b, pos + 1, len) == Length(n, from)
    ensures ReadPairs(h, b, from, n, []).GotPairs? ==>
              Read(h, b, pos) == Got(Obj(ReadPairs(h, b, from, n, []).fields), ReadPairs(h, b, from, n, []).next)
  {
    hide KindOf, ReadLength;
  }

  lemma ReadArrBack(h: Host, b: Bytes, pos: nat, n: nat, body: Bytes)
    requires n < POW32 && At(b, pos, ArrHead(n) + body)
    ensures var from := pos + |ArrHead(n)|;
            && from <= |b| && At(b, from, body)
            && (ReadMany(h, b, from, n).GotAll? ==>
                  Read(h, b, pos) == Got(Arr(ReadMany(h, b, from, n).values), ReadMany(h, b, from, n).next))
  {
    AtSplit(b, pos, ArrHead(n), body);
    hide *;
    ArrHeadIs(n);
    ReadHead(b, pos, ArrLead(n), n, ArrLen(n));
    ReadArrOf(h, b, pos, ArrLen(n), n, pos + |ArrHead(n)|);
  }

  lemma ReadObjBack(h: Host, b: Bytes, pos: nat, n: nat, body: Bytes)
    requires n < POW32 && At(b, pos, ObjHead(n) + body)
    ensures var from := pos + |ObjHead(n)|;
            && from <= |b| && At(b, from, body)
            && (ReadPairs(h, b, from, n, []).GotPairs? ==>
                  Read(h, b, pos) == Got(Obj(ReadPairs(h, b, from, n, []).fields), ReadPairs(h, b, from, n, []).next))
  {
    AtSplit(b, pos, ObjHead(n), body);
    hide *;
    ObjHeadIs(n);
    ReadHead(b, pos, ObjLead(n), n, ArrLen(n));
    ReadMapOf(h, b, pos, ArrLen(n), n, pos + |ObjHead(n)|);
  }

  lemma AtEnd(b: Bytes, pos: nat, x: Bytes) returns (end: nat)
    requires At(b, pos, x)
    ensures end == pos + |x| <= |b|
  {
    end := pos + |x|;
  }

  lemma {:induction false} DefinedFew(fields: seq<Field>)
    ensures Defined(fields) <= |fields|
  {
    if fields != [] { DefinedFew(fields[1..]); }
  }

  /** Wherever a value was written, reading there gives its normal form and stops right behind it. */
  lemma {:induction false} ReadBack(h: Host, b: Bytes, pos: nat, v: Value)
    requires Writable(v) && At(b, pos, Serialize(v))
    ensures Read(h, b, pos) == Got(NormalForm(v), pos + |Serialize(v)|)
    decreases v, 0
  {
    match v
    case Int(n) => hide Read; ReadNumber(h, b, pos, n);
    case Float(bits) => hide Read; ReadFloatBack(h, b, pos, bits);
    case Text(s) => hide Read; ReadTextBack(h, b, pos, s);
    case Bin(d) => hide Read; ReadBinBack(h, b, pos, d);
    case Date(ms) => hide Read; ReadDate(h, b, pos, ms);
    case Arr(items) =>
      hide Read, ReadMany, ArrHead;
      ReadArrBack(h, b, pos, |items|, SerializeAll(items));
      ReadAllBack(h, b, pos + |ArrHead(|items|)|, items);
    case Obj(fields) =>
      hide Read, ReadPairs, ObjHead;
      DefinedFew(fields);
      ReadObjBack(h, b, pos, Defined(fields), SerializeFields(fields));
      ReadFieldsBack(h, b, pos + |ObjHead(Defined(fields))|, fields, []);
    case _ => hide Read; ReadMark(h, b, pos, v);
  }

  lemma {:induction false} ReadAllBack(h: Host, b: Bytes, pos: nat, items: seq<Value>)
    requires AllWritable(items) && pos <= |b| && At(b, pos, SerializeAll(items))
    ensures ReadMany(h, b, pos, |items|) == GotAll(NormalAll(items), pos + |SerializeAll(items)|)
    decreases items, 1
  {
    hide Read, Serialize, Writable, NormalForm, At;
    if items != [] {
      AtSplit(b, pos, Serialize(items[0]), SerializeAll(items[1..]));
      ReadBack(h, b, pos, items[0]);
      var next := AtEnd(b, pos, Serialize(items[0]));
      ReadAllBack(h, b, next, items[1..]);
    }
  }

  lemma {:induction false} ReadFieldsBack(h: Host, b: Bytes, pos: nat, fields: seq<Field>, sofar: seq<Field>)
    requires FieldsWritable(fields) && pos <= |b| && At(b, pos, SerializeFields(fields))
    ensures ReadPairs(h, b, pos, Defined(fields), sofar) == GotPairs(NormalFields(fields, sofar), pos + |SerializeFields(fields)|)
    decreases fields, 1
  {
    hide Read, Serialize, Writable, NormalForm, TextHead, Encode, Normal, Insert, At;
    if fields != [] {
      var f, rest := fields[0], fields[1..];
      if f.value.Undef? {
        assert SerializeFields(fields) == SerializeFields(rest) by { assert [] + SerializeFields(rest) == SerializeFields(rest); }
        ReadFieldsBack(h, b, pos, rest, sofar);
      } else {
        var key := TextHead(|Encode(f.key)|) + Encode(f.key);
        var value := Serialize(f.value);
        assert SerializeFields(fields) == key + (value + SerializeFields(rest));
        AtSplit(b, pos, key, value + SerializeFields(rest));
        AtSplit(b, pos + |key|, value, SerializeFields(rest));
        ReadTextBack(h, b, pos, f.key);
        var mid := AtEnd(b, pos, key);
        ReadBack(h, b, mid, f.value);
        var next := AtEnd(b, mid, value);
        var more := Insert(sofar, Field(Normal(f.key), NormalForm(f.value)));
        ReadFieldsBack(h, b, next, rest, more);
        PairFirst(h, b, pos, Defined(rest), sofar, Normal(f.key), NormalForm(f.value), mid, next);
      }
    }
  }

  lemma PairFirst(h: Host, b: Bytes, pos: nat, n: nat, sofar: seq<Field>, key: Units, v: Value, mid: nat, next: nat)
    requires pos <= |b| && Read(h, b, pos) == Got(Text(key), mid) && Read(h, b, mid) == Got(v, next)
    ensures ReadPairs(h, b, pos, n + 1, sofar) == ReadPairs(h, b, next, n, Insert(sofar, Field(key, v)))
  {
    hide Read, Insert;
  }

  /** `deserialize(serialize(v) ++ rest)` is the normal form of `v`, and exactly the serialized bytes are used. */
  lemma RoundTrip(h: Host, v: Value, rest: Bytes)
    requires Writable(v)
    ensures Serialize(v) != []
    ensures Deserialize(h, Serialize(v) + rest) == Got(NormalForm(v), |Serialize(v)|)
  {
    var b := Serialize(v) + rest;
    assert At(b, 0, Serialize(v)) by { assert b[0..|Serialize(v)|] == Serialize(v); }
    ReadBack(h, b, 0, v);
    hide Read, Serialize;
  }

  // ----- cuts -----

  lemma TakeCut(b: Bytes, n: nat, pos: nat, size: nat)
    requires pos <= n <= |b| && Take(b, pos, size).Piece?
    ensures Take(b[..n], pos, size) == if pos + size <= n then Take(b, pos, size) else TooFew
  {
    if pos + size <= n {
      var c := b[..n];
      assert c[pos..pos + size] == b[pos..pos + size];
    }
  }

  lemma LengthCut(b: Bytes, n: nat, pos: nat, len: Len)
    requires pos <= n <= |b| && ReadLength(b, pos, len).Length?
    ensures ReadLength(b[..n], pos, len) == if ReadLength(b, pos, len).next <= n then ReadLength(b, pos, len) else NoLength
  {
    if len.Sized? { TakeCut(b, n, pos, len.width); }
  }

  lemma ExtCut(b: Bytes, n: nat, pos: nat, len: Len)
    requires pos <= n <= |b| && ReadExt(b, pos, len).Got?
    ensures ReadExt(b[..n], pos, len) == if ReadExt(b, pos, len).next <= n then ReadExt(b, pos, len) else Short
  {
    LengthCut(b, n, pos, len);
    var l := ReadLength(b, pos, len);
    if l.next <= n {
      TakeCut(b, n, l.next, 1);
      if l.next + 1 <= n { TakeCut(b, n, l.next + 1, l.n); }
    }
    hide Take, ReadLength, ReadStamp;
  }

  /**
   What reads as a value reads as the same value while all its bytes are there, and
   as insufficient data wherever they are cut: at no byte in between.
   */
  lemma {:induction false} ReadCut(h: Host, b: Bytes, n: nat, pos: nat)
    requires pos <= n <= |b| && Read(h, b, pos).Got?
    ensures Read(h, b[..n], pos) == if Read(h, b, pos).next <= n then Read(h, b, pos) else Short
    decreases |b| - pos, 0
  {
    var c := b[..n];
    if pos < n {
      assert c[pos] == b[pos];
      var at := pos + 1;
      match KindOf(b[pos])
      case UIntOf(k) => hide KindOf; TakeCut(b, n, at, k);
      case SIntOf(k) => hide KindOf; TakeCut(b, n, at, k);
      case FloatOf(k) => hide KindOf; TakeCut(b, n, at, k);
      case TextOf(len) =>
        hide KindOf;
        LengthCut(b, n, at, len);
        var l := ReadLength(b, at, len);
        if l.next <= n { TakeCut(b, n, l.next, l.n); }
        hide ReadLength, Take, ReadText;
      case BinOf(len) =>
        hide KindOf;
        LengthCut(b, n, at, len);
        var l := ReadLength(b, at, len);
        if l.next <= n { TakeCut(b, n, l.next, l.n); }
        hide ReadLength, Take;
      case ExtOf(len) => hide KindOf, ReadExt; ExtCut(b, n, at, len);
      case ArrOf(len) =>
        hide KindOf;
        LengthCut(b, n, at, len);
        var l := ReadLength(b, at, len);
        if l.next <= n { ManyCut(h, b, n, l.next, l.n); }
        hide ReadLength, ReadMany;
      case MapOf(len) =>
        hide KindOf;
        LengthCut(b, n, at, len);
        var l := ReadLength(b, at, len);
        if l.next <= n { PairsCut(h, b, n, l.next, l.n, []); }
        hide ReadLength, ReadPairs;
      case _ => hide KindOf;
    }
  }

  lemma {:induction false} ManyCut(h: Host, b: Bytes, n: nat, pos: nat, count: nat)
    requires pos <= n <= |b| && ReadMany(h, b, pos, count).GotAll?
    ensures ReadMany(h, b[..n], pos, count) == if ReadMany(h, b, pos, count).next <= n then ReadMany(h, b, pos, count) else NoneShort
    decreases |b| - pos, 1
  {
    if count > 0 {
      ReadCut(h, b, n, pos);
      var r := Read(h, b, pos);
      if r.next <= n { ManyCut(h, b, n, r.next, count - 1); }
      hide Read;
    }
  }

  lemma {:induction false} PairsCut(h: Host, b: Bytes, n: nat, pos: nat, count: nat, sofar: seq<Field>)
    requires pos <= n <= |b| && ReadPairs(h, b, pos, count, sofar).GotPairs?
    ensures ReadPairs(h, b[..n], pos, count, sofar) ==
              if ReadPairs(h, b, pos, count, sofar).next <= n then ReadPairs(h, b, pos, count, sofar) else PairsShort
    decreases |b| - pos, 1
  {
    hide Read, Insert, KeyOf;
    if count > 0 {
      ReadCut(h, b, n, pos);
      var k := Read(h, b, pos);
      if k.next <= n {
        ReadCut(h, b, n, k.next);
        var v := Read(h, b, k.next);
        if v.next <= n { PairsCut(h, b, n, v.next, count - 1, Insert(sofar, Field(KeyOf(h, k.value), v.value))); }
      }
    }
  }

  /** Every strict, non-empty prefix of a serialized value fails as insufficient data. */
  lemma PrefixesFallShort(h: Host, v: Value, n: nat)
    requires Writable(v) && 0 < n < |Serialize(v)|
    ensures Deserialize(h, Serialize(v)[..n]) == Short
  {
    RoundTrip(h, v, []);
    assert Serialize(v) + [] == Serialize(v);
    hide Read, Serialize, Writable, NormalForm;
    ReadCut(h, Serialize(v), n, 0);
  }

  // ----- framed streams -----

  /** `encodeMsgpack`: a 4-byte length, then the value. */
  function WritePacket(payload: Bytes): Bytes {
    U.EncodeUint32(|payload|) + payload
  }

  /** `decodeMsgpack`: what it cuts off the front of its buffer. */
  function NextPacket(b: Bytes): Cut<Bytes> {
    match U.DecodeUint32(b)
    case None => Wait
    case Some(n) => if n < 0 || |b| < 4 + n then Wait else Frame(b[4..4 + n], 4 + n)
  }

  lemma PacketsStable()
    ensures Sound(NextPacket) && Stable(NextPacket) && NextPacket([]).Wait?
  {
    forall b: Bytes, more: Bytes | !NextPacket(b).Wait? ensures NextPacket(b + more) == NextPacket(b) {
      var n := U.DecodeUint32(b).value;
      assert U.DecodeUint32(b + more) == Some(n);
      assert (b + more)[4..4 + n] == b[4..4 + n];
    }
  }

  lemma PacketsInvert()
    ensures Inverts(NextPacket, WritePacket, p => |p| < POW32)
  {
    forall p: Bytes, rest: Bytes | |p| < POW32
      ensures NextPacket(WritePacket(p) + rest) == Frame(p, |WritePacket(p)|) && |WritePacket(p)| >= 1
    {
      U.RoundTrip(|p|, p + rest);
      var b := WritePacket(p) + rest;
      assert b == U.EncodeUint32(|p|) + (p + rest);
      assert b[4..4 + |p|] == p;
    }
  }

  function SerializeEach(items: seq<Value>): seq<Bytes> {
    if items == [] then [] else [Serialize(items[0])] + SerializeEach(items[1..])
  }

  function DeserializeEach(h: Host, packets: seq<Bytes>): seq<Result> {
    if packets == [] then [] else [Deserialize(h, packets[0])] + DeserializeEach(h, packets[1..])
  }

  lemma {:induction false} EachBack(h: Host, items: seq<Value>)
    requires AllWritable(items)
    ensures |DeserializeEach(h, SerializeEach(items))| == |items|
    ensures forall i :: 0 <= i < |items| ==>
              DeserializeEach(h, SerializeEach(items))[i] == Got(NormalForm(items[i]), |Serialize(items[i])|)
  {
    if items != [] {
      RoundTrip(h, items[0], []);
      assert Serialize(items[0]) + [] == Serialize(items[0]);
      EachBack(h, items[1..]);
      assert SerializeEach(items)[1..] == SerializeEach(items[1..]);
      hide Serialize, Writable, NormalForm, Deserialize;
    }
  }

  /** However the byte stream of encoded values is cut into chunks, each value comes back once, in order. */
  lemma PacketsRoundTrip(h: Host, items: seq<Value>, chunks: seq<Bytes>)
    requires AllWritable(items) && forall p :: p in SerializeEach(items) ==> |p| < POW32
    requires Flatten(chunks) == Written(WritePacket, SerializeEach(items))
    ensures var d := FeedAll(NextPacket, Drained([], [], false), chunks);
            && d == Drained(SerializeEach(items), [], false)
            && |DeserializeEach(h, d.items)| == |items|
            && forall i :: 0 <= i < |items| ==> DeserializeEach(h, d.items)[i] == Got(NormalForm(items[i]), |Serialize(items[i])|)
  {
    PacketsStable();
    PacketsInvert();
    SplitFramesRoundTrip(NextPacket, WritePacket, (p: Bytes) => |p| < POW32, SerializeEach(items), chunks);
    EachBack(h, items);
  }
}
