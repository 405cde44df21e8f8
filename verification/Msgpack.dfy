/** MessagePack values, the bytes they are written as, and the recursive reader. */
module Msgpack {
  import opened Basics
  import opened MsgpackInts
  import opened Utf8
  import opened Values

  // ----- writing -----

  function Number(n: int): Bytes {
    if 0 <= n <= 0x7f then [n]
    else if -0x20 <= n < 0 then [Byte(n)]
    else if 0 < n <= 0xff then [0xcc, Byte(n)]
    else if -0x80 <= n <= 0x7f then [0xd0, Byte(n)]
    else if 0 < n <= 0xffff then [0xcd] + Half16(n)
    else if -0x8000 <= n <= 0x7fff then [0xd1] + Half16(n)
    else if 0 < n <= 0xffff_ffff then [0xce] + Half32(n)
    else if -0x8000_0000 <= n <= 0x7fff_ffff then [0xd2] + Half32(n)
    else if 0 < n then [0xcf] + Int64(n)
    else [0xd3] + Int64(n)
  }

  function TextHead(n: nat): Bytes {
    if n <= 0x1f then [0xa0 + n] else if n <= 0xff then [0xd9, n] else if n <= 0xffff then [0xda] + Half16(n) else [0xdb] + Half32(n)
  }

  function BinHead(n: nat): Bytes {
    if n <= 0xff then [0xc4, n] else if n <= 0xffff then [0xc5] + Half16(n) else [0xc6] + Half32(n)
  }

  function ArrHead(n: nat): Bytes {
    if n <= 0xf then [0x90 + n] else if n <= 0xffff then [0xdc] + Half16(n) else [0xdd] + Half32(n)
  }

  function ObjHead(n: nat): Bytes {
    if n <= 0xf then [0x80 + n] else if n <= 0xffff then [0xde] + Half16(n) else [0xdf] + Half32(n)
  }

  const NANOS: int := 1_000_000

  /** The floored second, and the nanoseconds that remain; three layouts by what they need. */
  function Stamp(ms: int): Bytes {
    var sec, ns := ms / 1000, ms % 1000 * NANOS;
    if ns == 0 && 0 <= sec < POW32 then [0xd6, 0xff] + Half32(sec)
    else if 0 <= sec < 4 * POW32 then
      [0xd7, 0xff, Byte(ns / 0x40_0000), Byte(ns / 0x4000), Byte(ns / 0x40), Byte(ns * 4 + sec / POW32)] + Half32(sec)
    else [0xc7, 12, 0xff] + Half32(ns) + Int64(sec)
  }

  function Serialize(v: Value): Bytes {
    match v
    case Undef => [0xc0]
    case Null => [0xc0]
    case Bool(b) => [if b then 0xc3 else 0xc2]
    case Int(n) => Number(n)
    case Float(bits) => [0xcb] + bits
    case Text(s) => TextHead(|Encode(s)|) + Encode(s)
    case Bin(d) => BinHead(|d|) + d
    case Date(ms) => Stamp(ms)
    case Arr(items) => ArrHead(|items|) + SerializeAll(items)
    case Obj(fields) => ObjHead(Defined(fields)) + SerializeFields(fields)
    case Float32(_) => []
    case Ext(_, _) => []
  }

  function SerializeAll(items: seq<Value>): Bytes {
    if items == [] then [] else Serialize(items[0]) + SerializeAll(items[1..])
  }

  /** Properties that are `undefined` are left out. */
  function SerializeFields(fields: seq<Field>): Bytes {
    if fields == [] then []
    else (if fields[0].value.Undef? then [] else TextHead(|Encode(fields[0].key)|) + Encode(fields[0].key) + Serialize(fields[0].value))
         + SerializeFields(fields[1..])
  }

  function Defined(fields: seq<Field>): nat {
    if fields == [] then 0 else (if fields[0].value.Undef? then 0 else 1) + Defined(fields[1..])
  }

  /** Values the serializer takes, with lengths that fit their 32-bit headers. */
  predicate Writable(v: Value) {
    match v
    case Int(n) => Safe(n)
    case Float(bits) => |bits| == 8
    case Text(s) => |Encode(s)| < POW32
    case Bin(d) => |d| < POW32
    case Date(ms) => -8_640_000_000_000_000 <= ms <= 8_640_000_000_000_000
    case Arr(items) => |items| < POW32 && AllWritable(items)
    case Obj(fields) => |fields| < POW32 && FieldsWritable(fields)
    case Float32(_) => false
    case Ext(_, _) => false
    case _ => true
  }

  predicate AllWritable(items: seq<Value>) {
    items == [] || (Writable(items[0]) && AllWritable(items[1..]))
  }

  predicate FieldsWritable(fields: seq<Field>) {
    fields == [] || (|Encode(fields[0].key)| < POW32 && Writable(fields[0].value) && FieldsWritable(fields[1..]))
  }

  // ----- reading -----

  /** What the reader leaves to its platform: malformed text, and the name of a key that is no text. */
  datatype Host = Host(repair: Bytes -> Units, name: Value -> Units)

  datatype Result = Got(value: Value, next: nat) | Short | Bad
  datatype Results = GotAll(values: seq<Value>, next: nat) | NoneShort | NoneBad
  datatype Pairs = GotPairs(fields: seq<Field>, next: nat) | PairsShort | PairsBad

  datatype Len = Fixed(n: nat) | Sized(width: nat)

  datatype Kind =
    | SmallInt(n: int) | Nil | Truth(b: bool) | Never | UIntOf(size: nat) | SIntOf(size: nat) | FloatOf(size: nat)
    | MapOf(len: Len) | ArrOf(len: Len) | TextOf(len: Len) | BinOf(len: Len) | ExtOf(len: Len)

  function KindOf(b: byte): Kind {
    if b <= 0x7f then SmallInt(b)
    else if b <= 0x8f then MapOf(Fixed(b - 0x80))
    else if b <= 0x9f then ArrOf(Fixed(b - 0x90))
    else if b <= 0xbf then TextOf(Fixed(b - 0xa0))
    else if b >= 0xe0 then SmallInt(b - 256)
    else match b
      case 0xc0 => Nil
      case 0xc1 => Never
      case 0xc2 => Truth(false)
      case 0xc3 => Truth(true)
      case 0xc4 => BinOf(Sized(1))
      case 0xc5 => BinOf(Sized(2))
      case 0xc6 => BinOf(Sized(4))
      case 0xc7 => ExtOf(Sized(1))
      case 0xc8 => ExtOf(Sized(2))
      case 0xc9 => ExtOf(Sized(4))
      case 0xca => FloatOf(4)
      case 0xcb => FloatOf(8)
      case 0xcc => UIntOf(1)
      case 0xcd => UIntOf(2)
      case 0xce => UIntOf(4)
      case 0xcf => UIntOf(8)
      case 0xd0 => SIntOf(1)
      case 0xd1 => SIntOf(2)
      case 0xd2 => SIntOf(4)
      case 0xd3 => SIntOf(8)
      case 0xd4 => ExtOf(Fixed(1))
      case 0xd5 => ExtOf(Fixed(2))
      case 0xd6 => ExtOf(Fixed(4))
      case 0xd7 => ExtOf(Fixed(8))
      case 0xd8 => ExtOf(Fixed(16))
      case 0xd9 => TextOf(Sized(1))
      case 0xda => TextOf(Sized(2))
      case 0xdb => TextOf(Sized(4))
      case 0xdc => ArrOf(Sized(2))
      case 0xdd => ArrOf(Sized(4))
      case 0xde => MapOf(Sized(2))
      case _ => MapOf(Sized(4))
  }

  /** Bytes read at a position, or too few of them. */
  datatype Piece = Piece(bytes: Bytes, next: nat) | TooFew

  function Take(b: Bytes, pos: nat, size: nat): (r: Piece)
    requires pos <= |b|
    ensures r.Piece? ==> r.next == pos + size <= |b| && |r.bytes| == size
  {
    if pos + size > |b| then TooFew else Piece(b[pos..pos + size], pos + size)
  }

  datatype Length = Length(n: nat, next: nat) | NoLength

  function ReadLength(b: Bytes, pos: nat, len: Len): (r: Length)
    requires pos <= |b|
    ensures r.Length? ==> pos <= r.next <= |b|
  {
    match len
    case Fixed(n) => Length(n, pos)
    case Sized(width) =>
      match Take(b, pos, width)
      case TooFew => NoLength
      case Piece(x, next) => Length(UInt(x), next)
  }

  function ReadText(h: Host, x: Bytes): Units {
    match Decode(x) case Some(s) => s case None => h.repair(x)
  }

  function KeyOf(h: Host, v: Value): Units {
    if v.Text? then v.s else h.name(v)
  }

  /** Setting a property: an earlier one of the same name is replaced. */
  function Insert(fields: seq<Field>, f: Field): seq<Field> {
    if fields == [] then [f]
    else if fields[0].key == f.key then [f] + fields[1..]
    else [fields[0]] + Insert(fields[1..], f)
  }

  function ReadStamp(data: Bytes): Option<int> {
    if |data| == 4 then Some(UInt(data) * 1000)
    else if |data| == 8 then
      var b3: int := data[3];
      var ns := UInt(data[..3]) * 0x40 + b3 / 4;
      var sec := b3 % 4 * POW32 + UInt(data[4..]);
      Some(sec * 1000 + ns / NANOS)
    else if |data| == 12 then Some(SInt(data[4..]) * 1000 + UInt(data[..4]) / NANOS)
    else None
  }

  function ReadExt(b: Bytes, pos: nat, len: Len): (r: Result)
    requires pos <= |b|
    ensures r.Got? ==> pos <= r.next <= |b|
  {
    match ReadLength(b, pos, len)
    case NoLength => Short
    case Length(n, at) =>
      match Take(b, at, 1)
      case TooFew => Short
      case Piece(kind, from) =>
        match Take(b, from, n)
        case TooFew => Short
        case Piece(data, next) =>
          if kind[0] != 255 then Got(Ext(kind[0], data), next)
          else match ReadStamp(data)
            case None => Bad
            case Some(ms) => Got(Date(ms), next)
  }

  /** One value. Every `read` takes at least one byte and never looks past the input. */
  function Read(h: Host, b: Bytes, pos: nat): (r: Result)
    requires pos <= |b|
    ensures r.Got? ==> pos < r.next <= |b|
    decreases |b| - pos, 0
  {
    if pos == |b| then Short
    else
      var at := pos + 1;
      match KindOf(b[pos])
      case SmallInt(n) => Got(Int(n), at)
      case Nil => Got(Null, at)
      case Truth(v) => Got(Bool(v), at)
      case Never => Bad
      case UIntOf(k) => (match Take(b, at, k) case TooFew => Short case Piece(x, next) => Got(Int(UInt(x)), next))
      case SIntOf(k) => (match Take(b, at, k) case TooFew => Short case Piece(x, next) => Got(Int(if x == [] then 0 else SInt(x)), next))
      case FloatOf(k) =>
        (match Take(b, at, k) case TooFew => Short case Piece(x, next) => Got(if k == 4 then Float32(x) else Float(x), next))
      case TextOf(len) =>
        (match ReadLength(b, at, len)
         case NoLength => Short
         case Length(n, from) => match Take(b, from, n) case TooFew => Short case Piece(x, next) => Got(Text(ReadText(h, x)), next))
      case BinOf(len) =>
        (match ReadLength(b, at, len)
         case NoLength => Short
         case Length(n, from) => match Take(b, from, n) case TooFew => Short case Piece(x, next) => Got(Bin(x), next))
      case ExtOf(len) => ReadExt(b, at, len)
      case ArrOf(len) =>
        (match ReadLength(b, at, len)
         case NoLength => Short
         case Length(n, from) =>
           match ReadMany(h, b, from, n)
           case GotAll(vs, next) => Got(Arr(vs), next)
           case NoneShort => Short
           case NoneBad => Bad)
      case MapOf(len) =>
        (match ReadLength(b, at, len)
         case NoLength => Short
         case Length(n, from) =>
           match ReadPairs(h, b, from, n, [])
           case GotPairs(fs, next) => Got(Obj(fs), next)
           case PairsShort => Short
           case PairsBad => Bad)
  }

  function ReadMany(h: Host, b: Bytes, pos: nat, n: nat): (r: Results)
    requires pos <= |b|
    ensures r.GotAll? ==> pos <= r.next <= |b| && |r.values| == n
    decreases |b| - pos, 1
  {
    if n == 0 then GotAll([], pos)
    else match Read(h, b, pos)
      case Short => NoneShort
      case Bad => NoneBad
      case Got(v, next) =>
        match ReadMany(h, b, next, n - 1)
        case GotAll(vs, last) => GotAll([v] + vs, last)
        case other => other
  }

  function ReadPairs(h: Host, b: Bytes, pos: nat, n: nat, sofar: seq<Field>): (r: Pairs)
    requires pos <= |b|
    ensures r.GotPairs? ==> pos <= r.next <= |b|
    decreases |b| - pos, 1
  {
    if n == 0 then GotPairs(sofar, pos)
    else match Read(h, b, pos)
      case Short => PairsShort
      case Bad => PairsBad
      case Got(k, mid) =>
        match Read(h, b, mid)
        case Short => PairsShort
        case Bad => PairsBad
        case Got(v, next) => ReadPairs(h, b, next, n - 1, Insert(sofar, Field(KeyOf(h, k), v)))
  }

  /** `deserialize`: an empty input is refused, what follows the first value is ignored. */
  function Deserialize(h: Host, b: Bytes): Result {
    if b == [] then Bad else Read(h, b, 0)
  }

  // ----- the value read back -----

  function NormalForm(v: Value): Value {
    match v
    case Undef => Null
    case Text(s) => Text(Normal(s))
    case Arr(items) => Arr(NormalAll(items))
    case Obj(fields) => Obj(NormalFields(fields, []))
    case _ => v
  }

  function NormalAll(items: seq<Value>): seq<Value> {
    if items == [] then [] else [NormalForm(items[0])] + NormalAll(items[1..])
  }

  function NormalFields(fields: seq<Field>, sofar: seq<Field>): seq<Field>
    decreases fields
  {
    if fields == [] then sofar
    else if fields[0].value.Undef? then NormalFields(fields[1..], sofar)
    else NormalFields(fields[1..], Insert(sofar, Field(Normal(fields[0].key), NormalForm(fields[0].value))))
  }
}
