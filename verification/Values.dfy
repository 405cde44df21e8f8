/** The values that messages carry: what structured clone and MessagePack have in common. */
module Values {
  import opened Basics

  /** A UTF-16 code unit of a JavaScript string. */
  type unit = x: int | 0 <= x < 0x1_0000

  type Units = seq<unit>

  /** `Float` and `Float32` keep their bits as they are. `Float32` and `Ext` are only ever read. */
  datatype Value =
    | Undef | Null | Bool(b: bool) | Int(n: int) | Float(bits: Bytes) | Float32(bits: Bytes)
    | Text(s: Units) | Bin(data: Bytes) | Date(ms: int) | Ext(kind: byte, data: Bytes)
    | Arr(items: seq<Value>) | Obj(fields: seq<Field>)

  datatype Field = Field(key: Units, value: Value)

  function UnitsOfText(s: string): (r: Units)
    requires forall i :: 0 <= i < |s| ==> s[i] as int < 0x1_0000
    ensures |r| == |s| && forall i :: 0 <= i < |s| ==> r[i] == s[i] as int
  {
    seq(|s|, i requires 0 <= i < |s| => s[i] as int)
  }
}
