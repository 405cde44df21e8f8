/**
 The byte codec of the ports, the chunks of a stream as the values it carries,
 and what a chunk costs the window in either sizing.
 */
module PortCodecs {
  import opened Basics
  import opened Values
  import opened Utf8
  import opened MsgpackInts
  import opened Msgpack
  import opened MsgpackTrips
  import opened PortEstimate
  import P = PortSide

  const TYPE: Units := UnitsOfText("type")
  const ID: Units := UnitsOfText("id")
  const PAYLOAD: Units := UnitsOfText("payload")
  const MESSAGE: Units := UnitsOfText("message")

  // ----- what a text weighs -----

  /** A string takes at least a byte a unit, and at most three. */
  lemma {:induction false} EncodeSize(s: Units)
    ensures |s| <= |Encode(s)| <= 3 * |s|
    decreases |s|
  {
    if s != [] {
      EncodeSize(s[Width(s)..]);
      SpellSize(s);
      hide Spell, ScalarAt;
    }
  }

  lemma SpellSize(s: Units)
    requires s != []
    ensures Width(s) <= |Spell(ScalarAt(s))| <= 3 * Width(s)
  {
  }

  predicate Ascii(s: Units) { forall i :: 0 <= i < |s| ==> s[i] < 128 }

  lemma {:induction false} AsciiNormal(s: Units)
    requires Ascii(s)
    ensures Normal(s) == s
    decreases |s|
  {
    if s != [] {
      assert !High(s[0]);
      AsciiNormal(s[1..]);
      assert [s[0]] + s[1..] == s;
    }
  }

  /** A field takes its key and its value, with at least a byte to head the key. */
  lemma FieldSize(fields: seq<Field>)
    requires fields != [] && !fields[0].value.Undef?
    ensures |SerializeFields(fields)| >= 1 + |fields[0].key| + |Serialize(fields[0].value)| + |SerializeFields(fields[1..])|
  {
    EncodeSize(fields[0].key);
    hide Encode, Serialize;
  }

  lemma TextSize(s: Units)
    ensures |Serialize(Text(s))| >= 1 + |s|
  {
    EncodeSize(s);
    hide Encode;
  }

  lemma ObjSize(fields: seq<Field>)
    ensures |Serialize(Obj(fields))| >= 1 + |SerializeFields(fields)|
  {
    hide SerializeFields, Defined;
  }

  // ----- the codec -----

  /** A `message` envelope, as an object. */
  function Envelope(id: nat, p: Value): Value {
    Obj([Field(TYPE, Text(MESSAGE)), Field(ID, Int(id)), Field(PAYLOAD, p)])
  }

  function Lookup(fields: seq<Field>, key: Units): Value {
    if fields == [] then Undef else if fields[0].key == key then fields[0].value else Lookup(fields[1..], key)
  }

  /** The payload of a message on the port `id`; `None` for any other bytes. */
  function Opened(h: Host, id: nat, x: Bytes): Option<Value> {
    match Deserialize(h, x)
    case Got(v, _) =>
      if v.Obj? && Lookup(v.fields, TYPE) == Text(MESSAGE) && Lookup(v.fields, ID) == Int(id)
      then Some(Lookup(v.fields, PAYLOAD)) else None
    case _ => None
  }

  /** What MessagePack gives back as it was: nothing undefined, no lone surrogate, nothing too long. */
  predicate Carried(p: Value) {
    Writable(p) && NormalForm(p) == p
  }

  function MsgpackCodec(h: Host, id: nat): P.Codec {
    P.Codec(p => Serialize(Envelope(id, p)), x => Opened(h, id, x), p => EstimateMessageSize(p), p => Carried(p))
  }

  lemma KeysDiffer()
    ensures TYPE != ID && TYPE != PAYLOAD && ID != PAYLOAD
    ensures Ascii(TYPE) && Ascii(ID) && Ascii(PAYLOAD) && Ascii(MESSAGE)
    ensures |TYPE| == 4 && |ID| == 2 && |PAYLOAD| == 7 && |MESSAGE| == 7
  {
  }

  lemma EnvelopeWritable(id: nat, p: Value)
    requires Writable(p) && Safe(id)
    ensures Writable(Envelope(id, p))
  {
    KeysDiffer();
    EncodeSize(TYPE);
    EncodeSize(ID);
    EncodeSize(PAYLOAD);
    EncodeSize(MESSAGE);
    var fs := [Field(TYPE, Text(MESSAGE)), Field(ID, Int(id)), Field(PAYLOAD, p)];
    hide Encode;
    var none: seq<Field> := [];
    assert [fs[2]][1..] == none && [fs[1], fs[2]][1..] == [fs[2]] && fs[1..] == [fs[1], fs[2]];
    assert Writable(Text(MESSAGE));
    assert FieldsWritable([fs[2]]) && FieldsWritable([fs[1], fs[2]]) && FieldsWritable(fs);
  }

  /** Setting a property not set before adds it at the end. */
  lemma {:induction false} InsertNew(fields: seq<Field>, f: Field)
    requires forall i :: 0 <= i < |fields| ==> fields[i].key != f.key
    ensures Insert(fields, f) == fields + [f]
  {
    if fields == [] {
    } else {
      InsertNew(fields[1..], f);
      assert [fields[0]] + (fields[1..] + [f]) == fields + [f];
    }
  }

  /** A field in normal form, under a name not set before, stays as it is. */
  lemma NormalOne(fields: seq<Field>, sofar: seq<Field>)
    requires fields != [] && Normal(fields[0].key) == fields[0].key
    requires !fields[0].value.Undef? && NormalForm(fields[0].value) == fields[0].value
    requires forall i :: 0 <= i < |sofar| ==> sofar[i].key != fields[0].key
    ensures NormalFields(fields, sofar) == NormalFields(fields[1..], sofar + [fields[0]])
  {
    InsertNew(sofar, fields[0]);
    hide Normal, NormalForm, Insert;
  }

  /** A field that is its own normal form. */
  predicate Steady(f: Field) {
    Normal(f.key) == f.key && !f.value.Undef? && NormalForm(f.value) == f.value
  }

  lemma ThreeNormal(x: Field, y: Field, z: Field)
    requires Steady(x) && Steady(y) && Steady(z) && x.key != y.key && x.key != z.key && y.key != z.key
    ensures NormalForm(Obj([x, y, z])) == Obj([x, y, z])
  {
    ObjNormal([x, y, z]);
    hide Normal, NormalForm, NormalFields;
    NormalOne([x, y, z], []);
    NormalOne([y, z], [x]);
    NormalOne([z], [x, y]);
    NoFields([], [x, y, z]);
    var none: seq<Field> := [];
    assert [x, y, z][1..] == [y, z] && [y, z][1..] == [z] && [z][1..] == none;
    assert none + [x] == [x] && [x] + [y] == [x, y] && [x, y] + [z] == [x, y, z];
  }

  lemma TwoNormal(x: Field, y: Field)
    requires Steady(x) && Steady(y) && x.key != y.key
    ensures NormalForm(Obj([x, y])) == Obj([x, y])
  {
    ObjNormal([x, y]);
    hide Normal, NormalForm, NormalFields;
    NormalOne([x, y], []);
    NormalOne([y], [x]);
    NoFields([], [x, y]);
    var none: seq<Field> := [];
    assert [x, y][1..] == [y] && [y][1..] == none;
    assert none + [x] == [x] && [x] + [y] == [x, y];
  }

  lemma EnvelopeNormal(id: nat, p: Value)
    requires NormalForm(p) == p
    ensures NormalForm(Envelope(id, p)) == Envelope(id, p)
  {
    KeysDiffer();
    AsciiNormal(TYPE);
    AsciiNormal(ID);
    AsciiNormal(PAYLOAD);
    AsciiNormal(MESSAGE);
    assert NormalForm(Text(MESSAGE)) == Text(MESSAGE) && NormalForm(Int(id)) == Int(id) && !p.Undef?;
    hide Normal, NormalForm;
    ThreeNormal(Field(TYPE, Text(MESSAGE)), Field(ID, Int(id)), Field(PAYLOAD, p));
  }

  lemma NoFields(fields: seq<Field>, sofar: seq<Field>)
    requires fields == []
    ensures NormalFields(fields, sofar) == sofar
  {
  }

  lemma ObjNormal(fs: seq<Field>)
    ensures NormalForm(Obj(fs)) == Obj(NormalFields(fs, []))
  {
  }

  lemma EnvelopeOpens(id: nat, p: Value)
    ensures var fs := Envelope(id, p).fields;
            Lookup(fs, TYPE) == Text(MESSAGE) && Lookup(fs, ID) == Int(id) && Lookup(fs, PAYLOAD) == p
  {
    KeysDiffer();
    var fs := Envelope(id, p).fields;
    assert fs[1..] == [fs[1], fs[2]] && fs[1..][1..] == [fs[2]];
    assert Lookup([fs[2]], PAYLOAD) == p && Lookup([fs[1], fs[2]], PAYLOAD) == p;
    assert Lookup([fs[1], fs[2]], ID) == Int(id);
  }

  /** Every payload it carries comes back from its bytes as it was. */
  lemma MessageBack(h: Host, id: nat, p: Value)
    requires Safe(id) && Carried(p)
    ensures Opened(h, id, Serialize(Envelope(id, p))) == Some(p)
  {
    hide NormalForm, Writable, Serialize, Read, Lookup, Envelope, Deserialize;
    EnvelopeWritable(id, p);
    EnvelopeNormal(id, p);
    MsgpackTrips.RoundTrip(h, Envelope(id, p), []);
    assert Serialize(Envelope(id, p)) + [] == Serialize(Envelope(id, p));
    EnvelopeOpens(id, p);
    EnvelopeIsObj(id, p);
  }

  lemma EnvelopeIsObj(id: nat, p: Value)
    ensures Envelope(id, p).Obj?
  {
  }

  /** The byte codec is a codec as the ports need it. */
  lemma MsgpackIsCodec(h: Host, id: nat)
    requires Safe(id)
    ensures P.CodecOk(MsgpackCodec(h, id))
  {
    var c := MsgpackCodec(h, id);
    forall p ensures |c.encode(p)| >= 1 && c.estimate(p) >= 1 && (c.carries(p) ==> c.decode(c.encode(p)) == Some(p)) {
      ObjSize([Field(TYPE, Text(MESSAGE)), Field(ID, Int(id)), Field(PAYLOAD, p)]);
      if Carried(p) { MessageBack(h, id, p); }
    }
  }
}
