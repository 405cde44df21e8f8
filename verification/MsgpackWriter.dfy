/** The serializer's buffer, grown by doubling, and the recursive walk that fills it. */
module MsgpackWriter {
  import opened Basics
  import opened MsgpackInts
  import opened Utf8
  import opened Values
  import opened Msgpack

  lemma {:induction false} AllSnoc(items: seq<Value>, v: Value)
    ensures SerializeAll(items + [v]) == SerializeAll(items) + Serialize(v)
  {
    hide Serialize;
    if items == [] {
      assert (items + [v])[1..] == [];
      assert Serialize(v) + [] == Serialize(v) == [] + Serialize(v);
    } else {
      assert (items + [v])[1..] == items[1..] + [v];
      AllSnoc(items[1..], v);
      assert Serialize(items[0]) + (SerializeAll(items[1..]) + Serialize(v)) == (Serialize(items[0]) + SerializeAll(items[1..])) + Serialize(v);
    }
  }

  function OneField(f: Field): Bytes {
    if f.value.Undef? then [] else TextHead(|Encode(f.key)|) + Encode(f.key) + Serialize(f.value)
  }

  lemma {:induction false} FieldsSnoc(fields: seq<Field>, f: Field)
    ensures SerializeFields(fields + [f]) == SerializeFields(fields) + OneField(f)
    ensures Defined(fields + [f]) == Defined(fields) + (if f.value.Undef? then 0 else 1)
  {
    hide OneField;
    FieldFirst(fields + [f]);
    if fields == [] {
      assert (fields + [f])[1..] == [] && (fields + [f])[0] == f;
      assert OneField(f) + [] == OneField(f) == [] + OneField(f);
    } else {
      FieldFirst(fields);
      hide SerializeFields;
      assert (fields + [f])[1..] == fields[1..] + [f] && (fields + [f])[0] == fields[0];
      FieldsSnoc(fields[1..], f);
      assert OneField(fields[0]) + (SerializeFields(fields[1..]) + OneField(f)) == (OneField(fields[0]) + SerializeFields(fields[1..])) + OneField(f);
    }
  }

  lemma FieldFirst(fields: seq<Field>)
    requires fields != []
    ensures SerializeFields(fields) == OneField(fields[0]) + SerializeFields(fields[1..])
  {
  }

  lemma FieldsNext(fields: seq<Field>, i: nat, head: Bytes)
    requires i < |fields|
    ensures head + SerializeFields(fields[..i + 1]) == head + SerializeFields(fields[..i]) + OneField(fields[i])
  {
    assert fields[..i + 1] == fields[..i] + [fields[i]];
    FieldsSnoc(fields[..i], fields[i]);
    hide SerializeFields, OneField;
  }

  lemma FieldsNone(fields: seq<Field>, head: Bytes)
    ensures head == head + SerializeFields(fields[..0])
  {
    assert fields[..0] == [];
  }

  lemma AllNone(items: seq<Value>, head: Bytes)
    ensures head == head + SerializeAll(items[..0])
  {
    assert items[..0] == [];
  }

  lemma AllNext(items: seq<Value>, i: nat, head: Bytes)
    requires i < |items|
    ensures head + SerializeAll(items[..i]) + Serialize(items[i]) == head + SerializeAll(items[..i + 1])
  {
    hide Serialize, SerializeAll;
    assert items[..i + 1] == items[..i] + [items[i]];
    AllSnoc(items[..i], items[i]);
    HeadThen(head, SerializeAll(items[..i]), Serialize(items[i]));
  }

  lemma HeadThen(x: Bytes, y: Bytes, z: Bytes)
    ensures x + y + z == x + (y + z)
  {
  }

  class Writer {
    var buffer: array<byte>
    var length: nat

    ghost predicate Valid()
      reads this, buffer
    {
      length <= buffer.Length && buffer.Length >= 1
    }

    ghost function Contents(): Bytes
      reads this, buffer
      requires Valid()
    {
      buffer[..length]
    }

    constructor ()
      ensures Valid() && fresh(buffer) && Contents() == []
    {
      buffer := new byte[128](_ => 0);
      length := 0;
    }

    method Grow(needed: nat)
      requires Valid()
      modifies this`buffer
      ensures Valid() && buffer.Length >= needed && (buffer == old(buffer) || fresh(buffer))
      ensures Contents() == old(Contents())
    {
      if buffer.Length < needed {
        var size := buffer.Length * 2;
        while size < needed
          invariant size >= 2 * buffer.Length
          decreases needed - size
        {
          size := size * 2;
        }
        var next := new byte[size](_ => 0);
        forall i | 0 <= i < buffer.Length { next[i] := buffer[i]; }
        assert next[..length] == buffer[..length];
        buffer := next;
      }
    }

    method AppendByte(b: byte)
      requires Valid()
      modifies this, buffer
      ensures Valid() && (buffer == old(buffer) || fresh(buffer))
      ensures Contents() == old(Contents()) + [b]
    {
      Grow(length + 1);
      ghost var before := Contents();
      buffer[length] := b;
      length := length + 1;
      assert buffer[..length] == before + [b];
    }

    method AppendBytes(bytes: Bytes)
      requires Valid()
      modifies this, buffer
      ensures Valid() && (buffer == old(buffer) || fresh(buffer))
      ensures Contents() == old(Contents()) + bytes
    {
      Grow(length + |bytes|);
      ghost var before := Contents();
      PutBytes(buffer, length, bytes);
      length := length + |bytes|;
      assert buffer[..length] == before + bytes;
    }

    method AppendNumber(n: int)
      requires Valid() && Safe(n)
      modifies this, buffer
      ensures Valid() && (buffer == old(buffer) || fresh(buffer))
      ensures Contents() == old(Contents()) + Number(n)
    {
      hide Half16, Half32, Int64;
      if n >= 0 && n <= 0x7f {
        AppendByte(n);
      } else if n < 0 && n >= -0x20 {
        AppendByte(Byte(n));
      } else if n > 0 && n <= 0xff {
        AppendBytes([0xcc, Byte(n)]);
      } else if n >= -0x80 && n <= 0x7f {
        AppendBytes([0xd0, Byte(n)]);
      } else if n > 0 && n <= 0xffff {
        AppendBytes([0xcd] + Half16(n));
      } else if n >= -0x8000 && n <= 0x7fff {
        AppendBytes([0xd1] + Half16(n));
      } else if n > 0 && n <= 0xffff_ffff {
        AppendBytes([0xce] + Half32(n));
      } else if n >= -0x8000_0000 && n <= 0x7fff_ffff {
        AppendBytes([0xd2] + Half32(n));
      } else {
        AppendWide(n);
      }
    }

    method AppendWide(n: int)
      requires Valid()
      modifies this, buffer
      ensures Valid() && (buffer == old(buffer) || fresh(buffer))
      ensures Contents() == old(Contents()) + ([if n > 0 then 0xcf else 0xd3] + Int64(n))
    {
      hide Half32, Int64;
      ghost var before := Contents();
      AppendByte(if n > 0 then 0xcf else 0xd3);
      AppendBytes(Int64(n));
      assert before + [if n > 0 then 0xcf else 0xd3] + Int64(n) == before + ([if n > 0 then 0xcf else 0xd3] + Int64(n));
    }

    method AppendText(s: Units)
      requires Valid()
      modifies this, buffer
      ensures Valid() && (buffer == old(buffer) || fresh(buffer))
      ensures Contents() == old(Contents()) + (TextHead(|Encode(s)|) + Encode(s))
    {
      hide TextHead, Encode;
      ghost var before := Contents();
      var bytes := EncodeLoop(s);
      AppendBytes(TextHead(|bytes|));
      AppendBytes(bytes);
      assert before + TextHead(|bytes|) + bytes == before + (TextHead(|bytes|) + bytes);
    }

    /** One value, with everything in it. */
    method Append(v: Value)
      requires Valid() && Writable(v)
      modifies this, buffer
      ensures Valid() && (buffer == old(buffer) || fresh(buffer))
      ensures Contents() == old(Contents()) + Serialize(v)
      decreases v, 0
    {
      hide TextHead, BinHead, ArrHead, ObjHead, Number, Stamp, Encode, SerializeAll, SerializeFields;
      match v
      case Undef => AppendByte(0xc0);
      case Null => AppendByte(0xc0);
      case Bool(b) => AppendByte(if b then 0xc3 else 0xc2);
      case Int(n) => AppendNumber(n);
      case Float(bits) => AppendBytes([0xcb] + bits);
      case Text(s) => AppendText(s);
      case Bin(d) => AppendBytes(BinHead(|d|) + d);
      case Date(ms) => AppendBytes(Stamp(ms));
      case Arr(items) => AppendAll(items);
      case Obj(fields) => AppendFields(fields);
    }

    method AppendAll(items: seq<Value>)
      requires Valid() && AllWritable(items)
      modifies this, buffer
      ensures Valid() && (buffer == old(buffer) || fresh(buffer))
      ensures Contents() == old(Contents()) + (ArrHead(|items|) + SerializeAll(items))
      decreases items, 1
    {
      hide ArrHead, Serialize, SerializeAll, AllWritable;
      ghost var before := Contents();
      AppendBytes(ArrHead(|items|));
      ghost var head := Contents();
      AllNone(items, head);
      for i := 0 to |items|
        invariant Valid() && (buffer == old(buffer) || fresh(buffer))
        invariant Contents() == head + SerializeAll(items[..i])
      {
        AllWritableAt(items, i);
        AllNext(items, i, head);
        Append(items[i]);
      }
      assert items[..|items|] == items;
      HeadThen(before, ArrHead(|items|), SerializeAll(items));
    }

    method CountDefined(fields: seq<Field>) returns (n: nat)
      ensures n == Defined(fields)
    {
      n := 0;
      for i := 0 to |fields|
        invariant n == Defined(fields[..i])
      {
        assert fields[..i + 1] == fields[..i] + [fields[i]];
        FieldsSnoc(fields[..i], fields[i]);
        if !fields[i].value.Undef? { n := n + 1; }
      }
      assert fields[..|fields|] == fields;
    }

    method AppendFields(fields: seq<Field>)
      requires Valid() && FieldsWritable(fields)
      modifies this, buffer
      ensures Valid() && (buffer == old(buffer) || fresh(buffer))
      ensures Contents() == old(Contents()) + (ObjHead(Defined(fields)) + SerializeFields(fields))
      decreases fields, 1
    {
      hide ObjHead, Serialize, SerializeFields, OneField, Defined, FieldsWritable;
      ghost var before := Contents();
      var n := CountDefined(fields);
      AppendBytes(ObjHead(n));
      ghost var head := Contents();
      FieldsNone(fields, head);
      for i := 0 to |fields|
        invariant Valid() && (buffer == old(buffer) || fresh(buffer))
        invariant Contents() == head + SerializeFields(fields[..i])
      {
        FieldsWritableAt(fields, i);
        FieldsNext(fields, i, head);
        AppendField(fields[i]);
      }
      assert fields[..|fields|] == fields;
      HeadThen(before, ObjHead(n), SerializeFields(fields));
    }

    method AppendField(f: Field)
      requires Valid() && Writable(f.value)
      modifies this, buffer
      ensures Valid() && (buffer == old(buffer) || fresh(buffer))
      ensures Contents() == old(Contents()) + OneField(f)
      decreases f, 2
    {
      hide TextHead, Encode, Serialize;
      ghost var before := Contents();
      if f.value.Undef? {
        assert before + [] == before;
        return;
      }
      AppendText(f.key);
      Append(f.value);
      ghost var key := TextHead(|Encode(f.key)|) + Encode(f.key);
      assert before + key + Serialize(f.value) == before + (key + Serialize(f.value));
    }
  }

  lemma {:induction false} AllWritableAt(items: seq<Value>, i: nat)
    requires AllWritable(items) && i < |items|
    ensures Writable(items[i])
  {
    if i > 0 { AllWritableAt(items[1..], i - 1); }
  }

  lemma {:induction false} FieldsWritableAt(fields: seq<Field>, i: nat)
    requires FieldsWritable(fields) && i < |fields|
    ensures Writable(fields[i].value)
  {
    if i > 0 { FieldsWritableAt(fields[1..], i - 1); }
  }

  /** `serialize`. */
  method SerializeToBytes(v: Value) returns (r: Bytes)
    requires Writable(v)
    ensures r == Serialize(v)
  {
    var w := new Writer();
    w.Append(v);
    r := w.buffer[..w.length];
    assert [] + Serialize(v) == Serialize(v);
  }
}
