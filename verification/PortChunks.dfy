/**
 The messages of a stream over a port, as the values they are: what a pipelined
 chunk costs the window in either sizing, and streams the port model speaks of.
 */
module PortChunks {
  import opened Basics
  import opened Values
  import opened Utf8
  import opened MsgpackInts
  import opened Msgpack
  import opened PortEstimate
  import opened PortCodecs
  import P = PortSide
  import W = PortWorld
  import S = PortStreams
  import T = PortTheorems
  import C = PortChannel
  import R = PortRefused
  import X = PortWide

  const CHANNEL_NAME: Units := UnitsOfText("channelName")
  const CHUNK: Units := UnitsOfText("chunk")
  const PARAMS: Units := UnitsOfText("params")
  const DONE: Units := UnitsOfText("done")
  const VALUE: Units := UnitsOfText("value")
  const ERROR: Units := UnitsOfText("error")
  const CHUNK_TYPE: Units := UnitsOfText("webrun-rpc:chunk")
  const REQUEST: Units := UnitsOfText("request")
  const RESULT: Units := UnitsOfText("response:result")
  const FAILURE: Units := UnitsOfText("response:error")

  /** What a held chunk counts beyond its bytes. */
  const CHUNK_OVERHEAD: nat := 32

  // ----- what `sendChunks` posts -----

  /** `done`, then a value and an error, each left out where a codec drops what is undefined. */
  predicate ChunkFields(fs: seq<Field>) {
    && 1 <= |fs| <= 3 && fs[0].key == DONE && fs[0].value.Bool?
    && (|fs| == 2 ==> fs[1].key == VALUE || fs[1].key == ERROR)
    && (|fs| == 3 ==> fs[1].key == VALUE && fs[2].key == ERROR)
  }

  /** A pipelined chunk of the channel. */
  predicate IsChunk(channel: Units, p: Value) {
    && p.Obj? && |p.fields| == 3 && p.fields[0] == Field(TYPE, Text(CHUNK_TYPE))
    && p.fields[1] == Field(CHANNEL_NAME, Text(channel))
    && p.fields[2].key == CHUNK && p.fields[2].value.Obj? && ChunkFields(p.fields[2].value.fields)
  }

  function ValueOf(p: Value): Value {
    if p.Obj? && |p.fields| == 3 && p.fields[2].value.Obj? then Lookup(p.fields[2].value.fields, VALUE) else Undef
  }

  /** The value is bytes, or there is none. */
  predicate BytesOrNone(p: Value) { ValueOf(p).Bin? || ValueOf(p).Undef? }

  function Held(p: Value): nat {
    CHUNK_OVERHEAD + if ValueOf(p).Bin? then |ValueOf(p).data| else 0
  }

  lemma NamesDiffer()
    ensures |TYPE| == 4 && |DONE| == 4 && |VALUE| == 5 && |ERROR| == 5 && |CHANNEL_NAME| == 11 && |CHUNK| == 5 && |CHUNK_TYPE| == 16
    ensures DONE != VALUE && DONE != ERROR && VALUE != ERROR
    ensures TYPE != CHANNEL_NAME && TYPE != CHUNK && CHANNEL_NAME != CHUNK
  {
    assert VALUE[0] == 'v' as int && ERROR[0] == 'e' as int;
  }

  lemma ValueField(fs: seq<Field>)
    requires ChunkFields(fs)
    ensures Lookup(fs, VALUE) == if |fs| >= 2 && fs[1].key == VALUE then fs[1].value else Undef
  {
    NamesDiffer();
    var rest := fs[1..];
    assert Lookup(fs, VALUE) == Lookup(rest, VALUE);
    if |fs| >= 2 {
      assert rest[0] == fs[1];
      if fs[1].key == ERROR { assert rest[1..] == []; }
    }
  }

  // ----- sized by the estimate -----

  lemma FieldsWalk(fs: seq<Field>, depth: nat, budget: int)
    requires fs != []
    ensures var first := Walk(fs[0].value, depth, budget);
            WalkFields(fs, depth, budget).size == |fs[0].key| + first.size + WalkFields(fs[1..], depth, first.budget).size
  {
  }

  lemma BodyWalk(fs: seq<Field>, depth: nat, budget: int)
    requires ChunkFields(fs) && budget >= 3
    ensures WalkFields(fs, depth, budget).size >= if Lookup(fs, VALUE).Bin? then |Lookup(fs, VALUE).data| else 0
  {
    ValueField(fs);
    FieldsWalk(fs, depth, budget);
    if |fs| >= 2 { FieldsWalk(fs[1..], depth, budget - 1); }
    hide WalkFields, Lookup;
  }

  /** The estimate of a chunk is more than the receiver counts for it. */
  lemma EstimateCovers(channel: Units, p: Value)
    requires IsChunk(channel, p)
    ensures EstimateMessageSize(p) >= Held(p)
  {
    NamesDiffer();
    var fs := p.fields;
    var body := fs[2].value.fields;
    BodyWalk(body, 2, 252);
    FieldsWalk(fs, 1, 255);
    FieldsWalk(fs[1..], 1, 254);
    FieldsWalk(fs[2..], 1, 253);
    assert fs[1..][1..] == fs[2..] && fs[1..][0] == fs[1] && fs[2..][0] == fs[2];
    assert Walk(fs[0].value, 1, 255) == Walked(16, 254) && Walk(fs[1].value, 1, 254) == Walked(|channel|, 253);
    assert Walk(Obj(body), 1, 253).size == 16 + WalkFields(body, 2, 252).size;
    assert EstimateMessageSize(p) >= 16 + WalkFields(fs, 1, 255).size;
    hide WalkFields, Walk, Lookup;
  }

  // ----- sized by its bytes -----

  lemma BodySize(fs: seq<Field>)
    requires ChunkFields(fs)
    ensures |SerializeFields(fs)| >= if Lookup(fs, VALUE).Bin? then |Lookup(fs, VALUE).data| else 0
  {
    ValueField(fs);
    FieldSize(fs);
    if |fs| >= 2 && fs[1].key == VALUE && fs[1].value.Bin? {
      FieldSize(fs[1..]);
      BinSize(fs[1].value.data);
    }
    hide SerializeFields, Lookup, Serialize;
  }

  lemma BinSize(d: Bytes)
    ensures |Serialize(Bin(d))| >= |d|
  {
  }

  lemma ChunkSize(channel: Units, p: Value)
    requires IsChunk(channel, p)
    ensures |Serialize(p)| >= Held(p) + 10
  {
    NamesDiffer();
    var fs := p.fields;
    var body := fs[2].value.fields;
    BodySize(body);
    ObjSize(fs);
    ObjSize(body);
    FieldSize(fs);
    FieldSize(fs[1..]);
    FieldSize(fs[2..]);
    TextSize(CHUNK_TYPE);
    TextSize(channel);
    assert fs[1..][1..] == fs[2..] && fs[1..][0] == fs[1] && fs[2..][0] == fs[2];
    assert p == Obj(fs) && fs[2].value == Obj(body);
    hide SerializeFields, Lookup, Serialize;
  }

  /** The bytes of a chunk's envelope are more than the receiver counts for it. */
  lemma BytesCover(channel: Units, id: nat, p: Value)
    requires IsChunk(channel, p)
    ensures |Serialize(Envelope(id, p))| >= Held(p)
  {
    ChunkSize(channel, p);
    var fs := [Field(TYPE, Text(MESSAGE)), Field(ID, Int(id)), Field(PAYLOAD, p)];
    ObjSize(fs);
    FieldSize(fs);
    FieldSize(fs[1..]);
    FieldSize(fs[2..]);
    assert fs[1..][1..] == fs[2..] && fs[1..][0] == fs[1] && fs[2..][0] == fs[2];
    hide SerializeFields, Serialize, Held;
  }

  // ----- a stream as the port model speaks of it -----

  /** A wire chunk that finishes its direction: done, without an error. */
  predicate Finishes(v: Value) {
    v.Obj? && Lookup(v.fields, DONE) == Bool(true) && Lookup(v.fields, ERROR).Undef?
  }

  function KindOf(channel: Units, p: Value): C.Kind {
    if IsChunk(channel, p) then C.Chunk
    else if !p.Obj? || Lookup(p.fields, CHANNEL_NAME) != Text(channel) then C.Other
    else if Lookup(p.fields, TYPE) == Text(REQUEST) then C.Request
    else if Lookup(p.fields, TYPE) == Text(RESULT) || Lookup(p.fields, TYPE) == Text(FAILURE) then C.Reply
    else C.Other
  }

  predicate Last(channel: Units, p: Value) {
    match KindOf(channel, p)
    case Chunk => Finishes(Lookup(p.fields, CHUNK))
    case Request => Finishes(Lookup(p.fields, PARAMS))
    case _ => false
  }

  /** The chunks of `channel`, sent by the opener or by the other end. */
  function StreamChannel(channel: Units, fromA: bool): C.Channel {
    C.Channel(fromA, p => KindOf(channel, p), p => Last(channel, p), p => BytesOrNone(p),
              p => if IsChunk(channel, p) && BytesOrNone(p) then Held(p) else 0)
  }

  /** A windowed port over MessagePack; either end may be one that cannot count bytes. */
  function StreamTerms(channel: Units, h: Host, id: nat, window: nat, oa: P.Options, ob: P.Options): W.Terms {
    W.Terms(MsgpackCodec(h, id), window, oa, ob, p => IsChunk(channel, p) && BytesOrNone(p))
  }

  /**
   What the stream results take for granted of a codec and of chunks holds of
   MessagePack and the estimate, for every channel, window and port.
   */
  lemma StreamsAreCovered(channel: Units, fromA: bool, h: Host, id: nat, window: nat, oa: P.Options, ob: P.Options)
    requires Safe(id) && window >= 1 && P.OptionsOk(oa) && P.OptionsOk(ob)
    ensures var k := StreamTerms(channel, h, id, window, oa, ob);
            W.TermsOk(k) && C.ChannelOk(k, StreamChannel(channel, fromA))
  {
    MsgpackIsCodec(h, id);
    var k, ch := StreamTerms(channel, h, id, window, oa, ob), StreamChannel(channel, fromA);
    hide P.CodecOk;
    forall p | k.chunk(p) ensures ch.cost(p) <= k.codec.estimate(p) && ch.cost(p) <= |k.codec.encode(p)| {
      EstimateCovers(channel, p);
      BytesCover(channel, id, p);
      hide Held, Serialize, EstimateMessageSize;
    }
    forall p ensures if ch.kind(p).Chunk? && ch.bytes(p) then k.chunk(p) else ch.cost(p) == 0 {
      hide Held, Lookup, BytesOrNone, IsChunk;
    }
  }

  /**
   Over every run of a stream over MessagePack, in either sizing, a sender that
   follows `sendChunks` is refused only if its close sent a queue past the window.
   */
  lemma StreamNeverViolates(channel: Units, fromA: bool, h: Host, id: nat, window: nat, oa: P.Options, ob: P.Options,
                            moves: seq<C.Move>, st: C.Stream)
    requires Safe(id) && window >= 1 && P.OptionsOk(oa) && P.OptionsOk(ob) && (oa.exactCodec ==> ob.exactCodec)
    requires var k := StreamTerms(channel, h, id, window, oa, ob);
             W.TermsOk(k) ==> C.IsStreamRun(k, StreamChannel(channel, fromA), C.StreamInit(k), moves, st)
    ensures st.x.poison ==> T.EndOf(st.w, fromA).hist.spilled
  {
    var k, ch := StreamTerms(channel, h, id, window, oa, ob), StreamChannel(channel, fromA);
    assert W.Agreed(k) && ch.fromA == fromA;
    hide W.TermsOk, C.ChannelOk, C.IsStreamRun, StreamTerms, StreamChannel;
    StreamsAreCovered(channel, fromA, h, id, window, oa, ob);
    C.HonestSenderNeverViolates(k, ch, moves, st);
  }

  // ----- a chunk longer than the window -----

  function ChunkOf(channel: Units, done: bool, data: Bytes): Value {
    Obj([Field(TYPE, Text(CHUNK_TYPE)), Field(CHANNEL_NAME, Text(channel)), Field(CHUNK, Body(done, data))])
  }

  /** A channel name a byte codec gives back. */
  predicate Name(channel: Units) { Normal(channel) == channel && |Encode(channel)| < POW32 }

  lemma ChunkOfIs(channel: Units, done: bool, data: Bytes)
    ensures var p := ChunkOf(channel, done, data); IsChunk(channel, p) && BytesOrNone(p) && Held(p) == |data| + CHUNK_OVERHEAD
  {
    var p := ChunkOf(channel, done, data);
    ValueField(p.fields[2].value.fields);
  }

  lemma ChunkWritable(channel: Units, done: bool, data: Bytes)
    requires Name(channel) && |data| < POW32
    ensures Writable(ChunkOf(channel, done, data))
  {
    NamesDiffer();
    EncodeSize(TYPE);
    EncodeSize(CHANNEL_NAME);
    EncodeSize(CHUNK);
    EncodeSize(DONE);
    EncodeSize(VALUE);
    EncodeSize(CHUNK_TYPE);
    var inner := [Field(DONE, Bool(done)), Field(VALUE, Bin(data))];
    var fs := [Field(TYPE, Text(CHUNK_TYPE)), Field(CHANNEL_NAME, Text(channel)), Field(CHUNK, Obj(inner))];
    hide Encode;
    var none: seq<Field> := [];
    assert [inner[1]][1..] == none && inner[1..] == [inner[1]];
    assert FieldsWritable([inner[1]]) && FieldsWritable(inner);
    assert [fs[2]][1..] == none && [fs[1], fs[2]][1..] == [fs[2]] && fs[1..] == [fs[1], fs[2]];
    assert Writable(fs[0].value) && Writable(fs[1].value) && Writable(fs[2].value);
    assert FieldsWritable([fs[2]]) && FieldsWritable([fs[1], fs[2]]) && FieldsWritable(fs);
  }

  lemma AsciiSteady(key: Units, v: Value)
    requires Ascii(key) && !v.Undef? && NormalForm(v) == v
    ensures Steady(Field(key, v))
  {
    AsciiNormal(key);
  }

  function Body(done: bool, data: Bytes): Value { Obj([Field(DONE, Bool(done)), Field(VALUE, Bin(data))]) }

  lemma BodyNormal(done: bool, data: Bytes)
    ensures NormalForm(Body(done, data)) == Body(done, data)
  {
    NamesDiffer();
    AsciiSteady(DONE, Bool(done));
    AsciiSteady(VALUE, Bin(data));
    hide Normal, NormalForm, Steady;
    TwoNormal(Field(DONE, Bool(done)), Field(VALUE, Bin(data)));
  }

  lemma TextSteady(key: Units, s: Units)
    requires Ascii(key) && Normal(s) == s
    ensures Steady(Field(key, Text(s)))
  {
    AsciiNormal(key);
    hide Normal;
  }

  lemma HeadSteady(channel: Units)
    requires Name(channel)
    ensures Steady(Field(TYPE, Text(CHUNK_TYPE))) && Steady(Field(CHANNEL_NAME, Text(channel)))
  {
    hide Normal, NormalForm, Steady, Encode;
    AsciiNormal(CHUNK_TYPE);
    TextSteady(TYPE, CHUNK_TYPE);
    TextSteady(CHANNEL_NAME, channel);
  }

  lemma ChunkNormal(channel: Units, done: bool, data: Bytes)
    requires Name(channel)
    ensures NormalForm(ChunkOf(channel, done, data)) == ChunkOf(channel, done, data)
  {
    hide Normal, NormalForm, Steady, Body;
    NamesDiffer();
    HeadSteady(channel);
    BodyNormal(done, data);
    BodyIsObj(done, data);
    AsciiSteady(CHUNK, Body(done, data));
    hide Name;
    ThreeNormal(Field(TYPE, Text(CHUNK_TYPE)), Field(CHANNEL_NAME, Text(channel)), Field(CHUNK, Body(done, data)));
  }

  lemma BodyIsObj(done: bool, data: Bytes)
    ensures Body(done, data).Obj?
  {
  }

  /** Chunks of any bytes whose length fits its header are carried. */
  lemma ChunkCarried(channel: Units, done: bool, data: Bytes)
    requires Name(channel) && |data| < POW32
    ensures Carried(ChunkOf(channel, done, data))
  {
    ChunkWritable(channel, done, data);
    ChunkNormal(channel, done, data);
  }

  function Zeros(n: nat): (r: Bytes)
    ensures |r| == n
  {
    seq(n, i requires 0 <= i < n => 0)
  }

  /** A chunk of one byte more than the window costs more than it, in either sizing. */
  lemma WideChunkIs(channel: Units, fromA: bool, h: Host, id: nat, window: nat, oa: P.Options, ob: P.Options)
    requires Name(channel) && window < POW32 - 1
    requires R.Crosses(StreamTerms(channel, h, id, window, oa, ob), fromA, ChunkOf(channel, false, Zeros(window + 1)))
    ensures R.Wide(StreamTerms(channel, h, id, window, oa, ob), StreamChannel(channel, fromA), ChunkOf(channel, false, Zeros(window + 1)))
  {
    hide Normal, Encode, IsChunk, BytesOrNone, Held, Carried, Serialize, EstimateMessageSize, ChunkOf, R.Crosses;
    ChunkCarried(channel, false, Zeros(window + 1));
    ChunkOfIs(channel, false, Zeros(window + 1));
  }

  /**
   For every window, whichever end sends and whatever the options that agree on
   pipelining, a real chunk one byte longer than the window has a sender that
   closes its port at the wrong moment called a violator, if it gets across at all.
   */
  lemma WideChunkViolates(channel: Units, fromA: bool, h: Host, id: nat, window: nat, oa: P.Options, ob: P.Options)
    requires Safe(id) && Name(channel) && 1 <= window < POW32 - 1 && P.OptionsOk(oa) && P.OptionsOk(ob)
    requires (oa.exactCodec ==> ob.exactCodec) && P.Pipeline in oa.caps && P.Pipeline in ob.caps
    requires R.Crosses(StreamTerms(channel, h, id, window, oa, ob), fromA, ChunkOf(channel, false, Zeros(window + 1)))
    ensures var k, ch := StreamTerms(channel, h, id, window, oa, ob), StreamChannel(channel, fromA);
            && W.TermsOk(k) && C.ChannelOk(k, ch)
            && exists moves, st :: C.IsStreamRun(k, ch, C.StreamInit(k), moves, st) && st.x.poison
  {
    var k, ch := StreamTerms(channel, h, id, window, oa, ob), StreamChannel(channel, fromA);
    assert W.Agreed(k) && P.Pipeline in W.Shared(k) && ch.fromA == fromA;
    hide W.TermsOk, C.ChannelOk, R.Wide, C.IsStreamRun, StreamTerms, StreamChannel, Name, ChunkOf;
    StreamsAreCovered(channel, fromA, h, id, window, oa, ob);
    WideChunkIs(channel, fromA, h, id, window, oa, ob);
    X.ClosingCanViolate(k, ch, ChunkOf(channel, false, Zeros(window + 1)));
  }

  /** Over MessagePack too, an honest sender can be refused exactly where a chunk wider than the window gets across. */
  lemma StreamRefusedExactly(channel: Units, fromA: bool, h: Host, id: nat, window: nat, oa: P.Options, ob: P.Options)
    requires Safe(id) && window >= 1 && P.OptionsOk(oa) && P.OptionsOk(ob) && (oa.exactCodec ==> ob.exactCodec)
    ensures var k, ch := StreamTerms(channel, h, id, window, oa, ob), StreamChannel(channel, fromA);
            && W.TermsOk(k) && C.ChannelOk(k, ch)
            && ((exists moves, st :: C.IsStreamRun(k, ch, C.StreamInit(k), moves, st) && st.x.poison)
                <==> P.Pipeline in oa.caps && P.Pipeline in ob.caps && exists p :: R.Wide(k, ch, p))
  {
    var k, ch := StreamTerms(channel, h, id, window, oa, ob), StreamChannel(channel, fromA);
    assert W.Agreed(k) && (P.Pipeline in W.Shared(k) <==> P.Pipeline in oa.caps && P.Pipeline in ob.caps);
    hide W.TermsOk, C.ChannelOk, R.Wide, C.IsStreamRun, StreamTerms, StreamChannel;
    StreamsAreCovered(channel, fromA, h, id, window, oa, ob);
    X.RefusedExactly(k, ch);
  }
}
