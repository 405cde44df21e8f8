/** The reader as an object: one cursor over the input, moved by loops and by a recursive walk. */
module MsgpackReader {
  import opened Basics
  import opened MsgpackInts
  import opened Msgpack
  import opened Values

  function Joined(values: seq<Value>, r: Results): Results {
    match r case GotAll(more, next) => GotAll(values + more, next) case other => other
  }

  lemma JoinedOne(h: Host, b: Bytes, pos: nat, values: seq<Value>, v: Value, next: nat, n: nat)
    requires pos <= |b| && n >= 1 && Read(h, b, pos) == Got(v, next)
    ensures Joined(values, ReadMany(h, b, pos, n)) == Joined(values + [v], ReadMany(h, b, next, n - 1))
  {
    hide Read;
    match ReadMany(h, b, next, n - 1)
    case GotAll(vs, last) => assert values + ([v] + vs) == (values + [v]) + vs;
    case _ =>
  }

  class Reader {
    const host: Host
    const input: Bytes
    var pos: nat

    constructor (host: Host, bytes: Bytes)
      ensures this.host == host && input == bytes && pos == 0
    {
      this.host, input, pos := host, bytes, 0;
    }

    predicate Valid()
      reads this
    {
      pos <= |input|
    }

    /** `need`: the check every read makes first. */
    predicate Has(size: nat)
      reads this
    {
      pos + size <= |input|
    }

    method TakeUInt(size: nat) returns (r: Option<nat>)
      requires Valid()
      modifies this
      ensures Valid()
      ensures match Take(input, old(pos), size)
              case TooFew => r == None && pos == old(pos)
              case Piece(x, next) => r == Some(UInt(x)) && pos == next
    {
      if !Has(size) { return None; }
      var value: nat := 0;
      var left: nat := size;
      ghost var from := pos;
      while left > 0
        invariant left <= size && pos == from + (size - left) && from + size <= |input|
        invariant value == UInt(input[from..pos])
      {
        assert input[from..pos + 1][..pos - from] == input[from..pos];
        value := value * 256;
        value := value + input[pos];
        pos := pos + 1;
        left := left - 1;
      }
      return Some(value);
    }

    method TakeInt(size: nat) returns (r: Option<int>)
      requires Valid() && size >= 1
      modifies this
      ensures Valid()
      ensures match Take(input, old(pos), size)
              case TooFew => r == None && pos == old(pos)
              case Piece(x, next) => r == Some(SInt(x)) && pos == next
    {
      if !Has(size) { return None; }
      var value: int := 0;
      var first := true;
      var left: nat := size;
      ghost var from := pos;
      while left > 0
        invariant left <= size && pos == from + (size - left) && from + size <= |input|
        invariant first <==> left == size
        invariant if first then value == 0 else value == SInt(input[from..pos])
      {
        var octet := input[pos];
        if first {
          assert input[from..pos + 1] == [octet];
          value := value + octet % 128;
          if octet >= 128 { value := value - 128; }
          first := false;
        } else {
          assert input[from..pos + 1][..pos - from] == input[from..pos];
          value := value * 256;
          value := value + octet;
        }
        pos := pos + 1;
        left := left - 1;
      }
      return Some(value);
    }

    method TakeBytes(size: nat) returns (r: Option<Bytes>)
      requires Valid()
      modifies this
      ensures Valid()
      ensures match Take(input, old(pos), size)
              case TooFew => r == None && pos == old(pos)
              case Piece(x, next) => r == Some(x) && pos == next
    {
      if !Has(size) { return None; }
      r := Some(input[pos..pos + size]);
      pos := pos + size;
    }

    method TakeLength(len: Len) returns (r: Option<nat>)
      requires Valid()
      modifies this
      ensures Valid()
      ensures match ReadLength(input, old(pos), len)
              case NoLength => r == None
              case Length(n, next) => r == Some(n) && pos == next
    {
      match len
      case Fixed(n) => r := Some(n);
      case Sized(width) => r := TakeUInt(width);
    }

    /** The seconds of the longest timestamp are read again, from eight bytes back. */
    method TakeStamp(data: Bytes) returns (r: Option<int>)
      requires Valid() && pos >= |data| && input[pos - |data|..pos] == data
      modifies this
      ensures pos == old(pos) && r == ReadStamp(data)
    {
      if |data| == 12 {
        pos := pos - 8;
        assert Take(input, pos, 8).bytes == data[4..];
        var sec := TakeInt(8);
        return Some(sec.value * 1000 + UInt(data[..4]) / NANOS);
      }
      return ReadStamp(data);
    }

    method TakeExt(len: Len) returns (r: Result)
      requires Valid()
      modifies this
      ensures Valid() && r == ReadExt(input, old(pos), len) && (r.Got? ==> pos == r.next)
    {
      hide UInt, SInt, ReadStamp;
      var n := TakeLength(len);
      if n.None? { return Short; }
      var kind := TakeBytes(1);
      if kind.None? { return Short; }
      var data := TakeBytes(n.value);
      if data.None? { return Short; }
      if kind.value[0] != 255 { return Got(Ext(kind.value[0], data.value), pos); }
      var ms := TakeStamp(data.value);
      return if ms.None? then Bad else Got(Date(ms.value), pos);
    }

    method TakeArray(size: nat) returns (r: Result)
      requires Valid()
      modifies this
      ensures Valid()
      ensures match ReadMany(host, input, old(pos), size)
              case GotAll(vs, next) => r == Got(Arr(vs), next) && pos == next
              case NoneShort => r == Short
              case NoneBad => r == Bad
      decreases |input| - pos, 1
    {
      hide Read;
      var data: seq<Value> := [];
      var left: nat := size;
      ghost var whole := ReadMany(host, input, pos, size);
      assert whole.GotAll? ==> [] + whole.values == whole.values;
      while left > 0
        invariant Valid() && pos >= old(pos) && Joined(data, ReadMany(host, input, pos, left)) == whole
        decreases left
      {
        ghost var at := pos;
        var v := TakeValue();
        if !v.Got? { return v; }
        JoinedOne(host, input, at, data, v.value, v.next, left);
        data := data + [v.value];
        left := left - 1;
      }
      assert data + [] == data;
      return Got(Arr(data), pos);
    }

    method TakeMap(size: nat) returns (r: Result)
      requires Valid()
      modifies this
      ensures Valid()
      ensures match ReadPairs(host, input, old(pos), size, [])
              case GotPairs(fs, next) => r == Got(Obj(fs), next) && pos == next
              case PairsShort => r == Short
              case PairsBad => r == Bad
      decreases |input| - pos, 1
    {
      hide Read;
      var data: seq<Field> := [];
      var left: nat := size;
      ghost var whole := ReadPairs(host, input, pos, size, []);
      while left > 0
        invariant Valid() && pos >= old(pos) && ReadPairs(host, input, pos, left, data) == whole
        decreases left
      {
        var k := TakeValue();
        if !k.Got? { return k; }
        var v := TakeValue();
        if !v.Got? { return v; }
        data := Insert(data, Field(KeyOf(host, k.value), v.value));
        left := left - 1;
      }
      return Got(Obj(data), pos);
    }

    method TakeFlat(kind: Kind) returns (r: Result)
      requires Valid() && 1 <= pos && KindOf(input[pos - 1]) == kind && !kind.ArrOf? && !kind.MapOf?
      modifies this
      ensures Valid() && r == Read(host, input, old(pos) - 1) && (r.Got? ==> pos == r.next)
    {
      hide UInt, SInt, ReadText, KindOf;
      match kind
      case SmallInt(n) => return Got(Int(n), pos);
      case Nil => return Got(Null, pos);
      case Truth(b) => return Got(Bool(b), pos);
      case Never => return Bad;
      case UIntOf(k) =>
        var n := TakeUInt(k);
        return if n.None? then Short else Got(Int(n.value), pos);
      case SIntOf(k) =>
        KindSizes(input[pos - 1]);
        var n := TakeInt(k);
        return if n.None? then Short else Got(Int(n.value), pos);
      case FloatOf(k) =>
        var x := TakeBytes(k);
        return if x.None? then Short else Got(if k == 4 then Float32(x.value) else Float(x.value), pos);
      case TextOf(len) =>
        var n := TakeLength(len);
        if n.None? { return Short; }
        var x := TakeBytes(n.value);
        return if x.None? then Short else Got(Text(ReadText(host, x.value)), pos);
      case BinOf(len) =>
        var n := TakeLength(len);
        if n.None? { return Short; }
        var x := TakeBytes(n.value);
        return if x.None? then Short else Got(Bin(x.value), pos);
      case ExtOf(len) => r := TakeExt(len);
    }

    /** `read`: the value at the cursor, or the error, exactly as the specification reads it. */
    method TakeValue() returns (r: Result)
      requires Valid()
      modifies this
      ensures Valid() && r == Read(host, input, old(pos)) && (r.Got? ==> pos == r.next)
      decreases |input| - pos, 0
    {
      if !Has(1) { return Short; }
      hide KindOf, UInt, ReadMany, ReadPairs;
      var kind := KindOf(input[pos]);
      pos := pos + 1;
      match kind {
        case ArrOf(len) =>
          var n := TakeLength(len);
          if n.None? { return Short; }
          r := TakeArray(n.value);
        case MapOf(len) =>
          var n := TakeLength(len);
          if n.None? { return Short; }
          r := TakeMap(n.value);
        case _ => r := TakeFlat(kind);
      }
    }
  }

  lemma KindSizes(b: byte)
    ensures KindOf(b).SIntOf? ==> KindOf(b).size >= 1
  {
  }

  method DeserializeBytes(host: Host, input: Bytes) returns (r: Result)
    ensures r == Deserialize(host, input)
  {
    if input == [] { return Bad; }
    var reader := new Reader(host, input);
    r := reader.TakeValue();
  }
}
