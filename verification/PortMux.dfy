/** The multiplexer object: the maps, the ring and the counters its methods update in place. */
module PortMux {
  import opened Basics
  import opened PortSide
  import opened PortWire
  import opened PortWorld
  import opened PortTheorems
  import opened PortTable

  // ----- several operations of one port, in a row -----

  function Then(a: Effect, b: Effect): Effect {
    Effect(b.side, a.out + b.out)
  }

  /** `flush`: what the window lets go, in order. */
  function FlushAll(o: Options, c: Codec, s: Side): Effect
    requires OptionsOk(o)
    decreases |s.queue|
  {
    if !CanFlush(s) then Effect(s, [])
    else
      SendingOnly(o, c, s);
      Then(FlushOne(o, c, s), FlushAll(o, c, FlushOne(o, c, s).side))
  }

  /** The consumer ended: the `end` waits for the window, or for its turn in the ring, or is sent. */
  predicate EndUnderWay(s: Side) {
    s.half.ending && (EndItem in s.queue || End in s.outgoing || s.half.endSent)
  }

  lemma {:induction false} SendAllEnds(o: Options, s: Side, es: seq<Envelope>)
    ensures var t := SendAllOnPort(o, s, es).side;
            && t.hist == s.hist && t.half.ending == s.half.ending && (s.half.endSent ==> t.half.endSent)
            && (End in s.outgoing ==> End in t.outgoing) && (t.queue == s.queue || t.half.endSent)
            && (s.status == Live && End in es ==> End in t.outgoing || t.half.endSent)
            && (s.status == Live ==> t.status == Live || t.half.endSent)
    decreases |es|
  {
    if es != [] {
      assert es == [es[0]] + es[1..];
      var first := SendOnPort(o, s, es[0]).side;
      SendAllEnds(o, first, es[1..]);
    }
  }

  lemma FlushEnds(o: Options, c: Codec, s: Side)
    requires OptionsOk(o) && CanFlush(s)
    ensures var t := FlushOne(o, c, s).side; t.hist == s.hist && (EndUnderWay(s) ==> EndUnderWay(t))
  {
    var i := s.queue[0];
    var t := s.(queue := s.queue[1..], queued := if ItemSize(i) <= s.queued then s.queued - ItemSize(i) else 0,
                outstanding := s.outstanding + ItemSize(i));
    assert s.queue == [i] + t.queue;
    assert i.EndItem? ==> Leaving(o, c, t, i, false) == [End];
    hide Leaving, SendAllOnPort;
    SendAllEnds(o, t, Leaving(o, c, t, i, false));
  }

  lemma {:induction false} FlushAllEnds(o: Options, c: Codec, s: Side)
    requires OptionsOk(o)
    ensures var t := FlushAll(o, c, s).side; t.hist == s.hist && (EndUnderWay(s) ==> EndUnderWay(t))
    decreases |s.queue|
  {
    if CanFlush(s) {
      SendingOnly(o, c, s);
      FlushEnds(o, c, s);
      hide FlushOne, EndUnderWay, CanFlush;
      FlushAllEnds(o, c, FlushOne(o, c, s).side);
    }
  }

  /** A synchronous block: an operation, then the flush it asks for. */
  function Flushed(o: Options, c: Codec, e: Effect): Effect
    requires OptionsOk(o)
  {
    Then(e, FlushAll(o, c, e.side))
  }

  /** The block's steps are those of the step relation: the operation, then flushes until nothing more can leave. */
  ghost predicate FlushSteps(o: Options, c: Codec, sides: seq<Effect>)
    requires OptionsOk(o)
  {
    && |sides| >= 1 && !CanFlush(sides[|sides| - 1].side)
    && forall i :: 0 <= i < |sides| - 1 ==>
         CanFlush(sides[i].side) && sides[i + 1] == Then(sides[i], FlushOne(o, c, sides[i].side))
  }

  lemma {:induction false} FlushAllSteps(o: Options, c: Codec, e: Effect) returns (sides: seq<Effect>)
    requires OptionsOk(o)
    ensures FlushSteps(o, c, sides) && sides[0] == e && sides[|sides| - 1] == Flushed(o, c, e)
    decreases |e.side.queue|
  {
    if !CanFlush(e.side) {
      sides := [e];
      assert e.out + [] == e.out;
    } else {
      SendingOnly(o, c, e.side);
      var e1 := FlushOne(o, c, e.side);
      var rest := FlushAllSteps(o, c, Then(e, e1));
      sides := [e] + rest;
      assert e.out + (e1.out + FlushAll(o, c, e1.side).out) == (e.out + e1.out) + FlushAll(o, c, e1.side).out;
    }
  }

  lemma {:induction false} TagAppend(id: nat, x: seq<Envelope>, y: seq<Envelope>)
    ensures Tag(id, x + y) == Tag(id, x) + Tag(id, y)
  {
    if x == [] {
      assert x + y == y;
    } else {
      assert (x + y)[1..] == x[1..] + y;
      TagAppend(id, x[1..], y);
    }
  }

  /** Sending only adds to what waits in the ring. */
  predicate Grows(s: Side, t: Side) {
    s.outgoing != [] ==> t.outgoing != []
  }

  lemma PutPut(m: Mux, id: nat, a: Effect, b: Effect)
    requires Charged(SideOf(m, id)) <= m.reassembling && Grows(SideOf(m, id), a.side) && Grows(a.side, b.side)
    ensures Put(Put(m, id, a), id, b) == Put(m, id, Then(a, b))
    ensures Charged(a.side) <= Put(m, id, a).reassembling && SideOf(Put(m, id, a), id) == a.side
  {
    TagAppend(id, a.out, b.out);
    assert m.ports[id := a.side][id := b.side] == m.ports[id := b.side];
    assert m.pipe + Tag(id, a.out) + Tag(id, b.out) == m.pipe + (Tag(id, a.out) + Tag(id, b.out));
  }

  lemma PutNothing(m: Mux, id: nat)
    requires id in m.ports && Charged(m.ports[id]) <= m.reassembling
    ensures Put(m, id, Effect(m.ports[id], [])) == m
  {
    assert m.ports[id := m.ports[id]] == m.ports;
    assert m.pipe + [] == m.pipe;
  }

  lemma {:induction false} SendAllSnoc(o: Options, s: Side, es: seq<Envelope>, e: Envelope)
    ensures var a := SendAllOnPort(o, s, es);
            SendAllOnPort(o, s, es + [e]) == Then(a, SendOnPort(o, a.side, e))
    decreases |es|
  {
    if es == [] {
      assert (es + [e])[1..] == [];
      var one := SendOnPort(o, s, e);
      assert one.out + [] == one.out && [] + one.out == one.out;
    } else {
      var first := SendOnPort(o, s, es[0]);
      SendAllSnoc(o, first.side, es[1..], e);
      assert (es + [e])[1..] == es[1..] + [e];
      var a := SendAllOnPort(o, first.side, es[1..]);
      var last := SendOnPort(o, a.side, e);
      assert first.out + (a.out + last.out) == (first.out + a.out) + last.out;
    }
  }

  lemma {:induction false} SendAllGrows(o: Options, s: Side, es: seq<Envelope>)
    ensures Grows(s, SendAllOnPort(o, s, es).side)
    decreases |es|
  {
    if es != [] { SendAllGrows(o, SendOnPort(o, s, es[0]).side, es[1..]); }
  }

  /** One more envelope of several sent in a row. */
  lemma SendNext(o: Options, m: Mux, id: nat, sent: seq<Envelope>, e: Envelope)
    requires Charged(SideOf(m, id)) <= m.reassembling
    ensures var s := SideOf(m, id);
            var a := SendAllOnPort(o, s, sent);
            && SideOf(Put(m, id, a), id) == a.side
            && Put(Put(m, id, a), id, SendOnPort(o, a.side, e)) == Put(m, id, SendAllOnPort(o, s, sent + [e]))
  {
    var a := SendAllOnPort(o, SideOf(m, id), sent);
    SendAllSnoc(o, SideOf(m, id), sent, e);
    SendAllGrows(o, SideOf(m, id), sent);
    SendAllGrows(o, a.side, [e]);
    assert [e][1..] == [];
    hide SendAllOnPort;
    PutPut(m, id, a, SendOnPort(o, a.side, e));
  }

  /** What of the frames is left from a position on. */
  function Rest(bytes: Bytes, size: nat, at: nat): seq<Envelope>
    requires size >= 1
  {
    if at < |bytes| then Pieces(bytes[at..], size) else []
  }

  lemma RestNext(bytes: Bytes, size: nat, at: nat, sent: seq<Envelope>)
    requires size >= 1 && at < |bytes|
    ensures var last := at + size >= |bytes|;
            var piece := Frame(if last then bytes[at..] else bytes[at..at + size], last);
            sent + Rest(bytes, size, at) == (sent + [piece]) + Rest(bytes, size, at + size)
  {
    var last := at + size >= |bytes|;
    var piece := Frame(if last then bytes[at..] else bytes[at..at + size], last);
    if !last {
      assert bytes[at..][..size] == bytes[at..at + size] && bytes[at..][size..] == bytes[at + size..];
    }
    assert Rest(bytes, size, at) == [piece] + Rest(bytes, size, at + size);
    hide Rest;
    assert sent + ([piece] + Rest(bytes, size, at + size)) == (sent + [piece]) + Rest(bytes, size, at + size);
  }

  lemma SendOne(o: Options, s: Side, e: Envelope)
    ensures SendAllOnPort(o, s, [e]) == SendOnPort(o, s, e)
  {
    assert [e][1..] == [];
    var one := SendOnPort(o, s, e);
    assert one.out + [] == one.out;
  }

  /** Fields the table does not count may change first. */
  lemma PutAfter(m: Mux, id: nat, t: Side, e: Effect)
    requires t.outgoing == SideOf(m, id).outgoing && Charged(t) == Charged(SideOf(m, id))
    ensures Put(m.(ports := m.ports[id := t]), id, e) == Put(m, id, e)
  {
    assert m.ports[id := t][id := e.side] == m.ports[id := e.side];
  }

  /** One more item of the flush. */
  lemma FlushNext(o: Options, c: Codec, m: Mux, id: nat, done: Effect)
    requires OptionsOk(o) && Charged(SideOf(m, id)) <= m.reassembling && Grows(SideOf(m, id), done.side)
    requires CanFlush(done.side)
    ensures var next := FlushOne(o, c, done.side);
            && Grows(SideOf(m, id), Then(done, next).side)
            && Put(Put(m, id, done), id, next) == Put(m, id, Then(done, next))
            && Flushed(o, c, done) == Flushed(o, c, Then(done, next))
            && |next.side.queue| < |done.side.queue|
  {
    var next := FlushOne(o, c, done.side);
    SendingOnly(o, c, done.side);
    FlushGrows(o, c, done.side);
    hide FlushOne;
    PutPut(m, id, done, next);
    assert done.out + (next.out + FlushAll(o, c, next.side).out) == (done.out + next.out) + FlushAll(o, c, next.side).out;
  }

  lemma FlushGrows(o: Options, c: Codec, s: Side)
    requires OptionsOk(o) && CanFlush(s)
    ensures Grows(s, FlushOne(o, c, s).side)
  {
    var i := s.queue[0];
    var t := s.(queue := s.queue[1..], queued := if ItemSize(i) <= s.queued then s.queued - ItemSize(i) else 0,
                outstanding := s.outstanding + ItemSize(i));
    hide Leaving, SendAllOnPort;
    SendAllGrows(o, t, Leaving(o, c, t, i, false));
  }

  lemma PutKnown(m: Mux, id: nat, e: Effect)
    requires Charged(SideOf(m, id)) <= m.reassembling
    ensures var m' := Put(m, id, e); id in m'.ports && m'.ports[id] == e.side && Charged(e.side) <= m'.reassembling && m'.closed == m.closed
  {
  }

  /** A port's operation that opens nothing and takes no more excess keeps the table in order. */
  lemma ModestKeeps(cfg: Config, m: Mux, id: nat, e: Effect)
    requires MuxOk(cfg, m) && Modest(SideOf(m, id), e.side)
    ensures MuxOk(cfg, Put(m, id, e))
    ensures OpenIds(m) == {} ==> OpenIds(Put(m, id, e)) == {}
  {
    PutRingOk(m, id, e);
    PutKeeps(cfg, m, id, e, Put(m, id, e).ring);
    PutTable(m, id, e, Put(m, id, e).ring);
    assert SideOf(m, id).status == Live ==> id in OpenIds(m);
  }

  lemma {:induction false} FlushModest(o: Options, c: Codec, s: Side)
    requires OptionsOk(o) && PartialFits(s)
    ensures Modest(s, FlushAll(o, c, s).side) && Grows(s, FlushAll(o, c, s).side)
    decreases |s.queue|
  {
    if CanFlush(s) {
      LocalModest(o, c, s, Flush);
      FlushGrows(o, c, s);
      SendingOnly(o, c, s);
      hide FlushOne;
      FlushModest(o, c, FlushOne(o, c, s).side);
    }
  }

  /** An operation that only queues, and the flush behind it. */
  lemma FlushedKeeps(cfg: Config, m: Mux, id: nat, e: Effect)
    requires OptionsOk(cfg.o) && MuxOk(cfg, m) && Modest(SideOf(m, id), e.side) && Grows(SideOf(m, id), e.side)
    ensures var f := Flushed(cfg.o, cfg.codecs(id), e);
            && Put(Put(m, id, e), id, FlushAll(cfg.o, cfg.codecs(id), e.side)) == Put(m, id, f)
            && MuxOk(cfg, Put(m, id, f)) && (OpenIds(m) == {} ==> OpenIds(Put(m, id, f)) == {})
            && Charged(e.side) <= Put(m, id, e).reassembling
  {
    var c := cfg.codecs(id);
    FlushModest(cfg.o, c, e.side);
    ChargeHeld(cfg, m, id);
    hide FlushAll, MuxOk;
    PutPut(m, id, e, FlushAll(cfg.o, c, e.side));
    ModestKeeps(cfg, m, id, Flushed(cfg.o, c, e));
  }

  function WholeEnvelope(i: Item): Envelope {
    match i case EndItem => End case Send(p, _) => Message(p)
  }

  lemma {:induction false} WholeSnoc(q: seq<Item>, i: Item)
    ensures WholeItems(q + [i]) == WholeItems(q) + [WholeEnvelope(i)]
  {
    if q == [] {
      assert (q + [i])[1..] == [];
    } else {
      assert (q + [i])[1..] == q[1..] + [i];
      WholeSnoc(q[1..], i);
    }
  }

  /** A port's operation done on its record, then put in the table. */
  lemma PutRecord(m: Mux, id: nat, s: Side, out: seq<Envelope>)
    requires s.outgoing == SideOf(m, id).outgoing && Charged(s) == Charged(SideOf(m, id)) <= m.reassembling
    ensures Put(m, id, Effect(s, out)) == m.(ports := m.ports[id := s], pipe := m.pipe + Tag(id, out))
  {
  }

  lemma SpillIsPut(m: Mux, m1: Mux, id: nat, s: Side)
    requires s == SideOf(m, id) && s.status == Live && Charged(s) <= m.reassembling
    requires m1 == m.(ports := m.ports[id := Spill(s)], reassembling := m.reassembling - Charged(s))
    ensures m1 == Put(m, id, Effect(Spill(s), [])) && SideOf(m1, id) == Spill(s)
  {
    assert m.pipe + [] == m.pipe;
  }

  lemma CloseIsSends(o: Options, m: Mux, id: nat, s: Side)
    requires s == SideOf(m, id) && s.status == Live && Charged(s) <= m.reassembling
    ensures Put(Put(m, id, Effect(Spill(s), [])), id, SendAllOnPort(o, Spill(s), WholeItems(s.queue) + [Close])) == Put(m, id, CloseSide(o, s))
  {
    var e := SendAllOnPort(o, Spill(s), WholeItems(s.queue) + [Close]);
    SendAllGrows(o, Spill(s), WholeItems(s.queue) + [Close]);
    PutPut(m, id, Effect(Spill(s), []), e);
    assert [] + e.out == e.out;
  }

  /** The state a complete message leaves. */
  function FinishedSide(c: Codec, s: Side): Side
    requires s.partial.Some?
  {
    var whole := Flatten(s.partial.value.chunks);
    match c.decode(whole)
    case None => s.(partial := None)
    case Some(p) => PortSide.Deliver(s, None, p, |whole|)
  }

  lemma FinishedFree(c: Codec, s: Side)
    requires s.partial.Some?
    ensures Charged(FinishedSide(c, s)) == 0
  {
  }

  /** The three ways a frame ends: refused, kept, or the last of its message. */
  lemma FrameOutcome(o: Options, c: Codec, s: Side, e: Envelope, others: nat)
    requires e.Frame? && PartialFits(s)
    ensures var pt := PartialOf(s);
            var charged := Charge(s, pt, |e.data|);
            var kept := s.(partial := Some(Partial(pt.chunks + [e.data], pt.bytes + |e.data|, pt.room, charged)));
            && |Flatten(pt.chunks + [e.data])| == pt.bytes + |e.data|
            && TakeFrame(o, c, s, e, others) ==
                 if PastRoom(pt, |e.data|) || others + charged > o.maxReassembled then Fail(s)
                 else Effect(if e.last then FinishedSide(c, kept) else kept, [])
  {
    FlattenSnoc(PartialOf(s).chunks, e.data);
  }

  lemma PutQuiet(m: Mux, id: nat, t: Side)
    requires t.outgoing == SideOf(m, id).outgoing && Charged(SideOf(m, id)) <= m.reassembling
    ensures Put(m, id, Effect(t, [])) ==
              m.(ports := m.ports[id := t], reassembling := m.reassembling + Charged(t) - Charged(SideOf(m, id)))
  {
    assert m.pipe + [] == m.pipe;
  }

  /** What hearing an envelope leaves: a credit may let the queue go. */
  function Heard(cfg: Config, m: Mux, id: nat, e: Envelope): Effect
    requires OptionsOk(cfg.o)
  {
    var h := Handle(cfg.o, cfg.codecs(id), SideOf(m, id), e, Full(cfg, m), Others(m, id));
    if e.Credit? then Flushed(cfg.o, cfg.codecs(id), h) else h
  }

  lemma HeardKeeps(cfg: Config, m: Mux, id: nat, e: Envelope)
    requires OptionsOk(cfg.o) && MuxOk(cfg, m) && !m.closed
    ensures MuxOk(cfg, Put(m, id, Heard(cfg, m, id, e)))
  {
    var s := SideOf(m, id);
    var h := Handle(cfg.o, cfg.codecs(id), s, e, Full(cfg, m), Others(m, id));
    HandleModest(cfg.o, cfg.codecs(id), s, e, Full(cfg, m), Others(m, id));
    if e.Credit? {
      FlushedKeeps(cfg, m, id, h);
    } else {
      PutRingOk(m, id, h);
      hide Handle;
      PutKeeps(cfg, m, id, h, Put(m, id, h).ring);
    }
  }

  /** An id never heard of is a port in no table. */
  lemma Unheard(cfg: Config, m: Mux, m': Mux, id: nat, e: Envelope)
    requires OptionsOk(cfg.o) && MuxOk(cfg, m) && id !in m.ports && m' == m.(ports := m.ports[id := NO_PORT])
    ensures MuxOk(cfg, m') && Put(m', id, Heard(cfg, m', id, e)) == Put(m, id, Heard(cfg, m, id, e))
  {
    assert m'.ports[id := Heard(cfg, m', id, e).side] == m.ports[id := Heard(cfg, m', id, e).side];
    assert OpenIds(m') == OpenIds(m);
    assert m.pipe + [] == m.pipe;
    ModestKeeps(cfg, m, id, Effect(NO_PORT, []));
    assert Put(m, id, Effect(NO_PORT, [])) == m';
  }

  lemma NeverFit(cfg: Config, m: Mux, id: nat)
    requires MuxOk(cfg, m) && id !in OpenIds(m)
    ensures Charged(SideOf(m, id)) == 0
  {
    assert id in m.ports ==> PartialFits(m.ports[id]);
  }

  /** A port the multiplexer's close has nothing to say to. */
  predicate NothingToClose(s: Side) { s.status != Live && s.outgoing == [] }

  /** The ports of `done` have heard the close, the others nothing yet. */
  ghost predicate ClosedSoFar(m: Mux, m': Mux, done: set<nat>) {
    && m'.closed && m'.ring == m.ring && m'.reassembling == m.reassembling && m'.nextId == m.nextId && m'.ports.Keys == m.ports.Keys
    && (forall id :: id in m.ports ==> m'.ports[id] == if id in done then ShutdownSide(m.ports[id]).side else m.ports[id])
    && (forall id :: Of(m'.pipe, id) == Of(m.pipe, id) + if id in done && id in m.ports then ShutdownSide(m.ports[id]).out else [])
  }

  lemma ClosedMore(m: Mux, at: Mux, id: nat, done: set<nat>)
    requires ClosedSoFar(m, at, done) && id in m.ports && id !in done
    ensures at.ports[id] == m.ports[id] && id in at.ports
    ensures var e := ShutdownSide(m.ports[id]);
            ClosedSoFar(m, at.(ports := at.ports[id := e.side], pipe := at.pipe + Tag(id, e.out)), done + {id})
  {
    var e := ShutdownSide(m.ports[id]);
    var t := at.(ports := at.ports[id := e.side], pipe := at.pipe + Tag(id, e.out));
    hide ShutdownSide;
    forall x ensures Of(t.pipe, x) == Of(m.pipe, x) + if x in done + {id} && x in m.ports then ShutdownSide(m.ports[x]).out else [] {
      ClosedPipe(m, at, id, done, e.out, x);
    }
    hide Of, Tag;
  }

  lemma ClosedPipe(m: Mux, at: Mux, id: nat, done: set<nat>, out: seq<Envelope>, x: nat)
    requires ClosedSoFar(m, at, done) && id in m.ports && id !in done && out == ShutdownSide(m.ports[id]).out
    ensures Of(at.pipe + Tag(id, out), x) == Of(m.pipe, x) + if x in done + {id} && x in m.ports then ShutdownSide(m.ports[x]).out else []
  {
    hide ShutdownSide, Of, Tag;
    OfAppend(at.pipe, Tag(id, out), x);
    OfTag(out, id, x);
    assert Of(m.pipe, id) + [] == Of(m.pipe, id);
    assert Of(at.pipe, x) + [] == Of(at.pipe, x);
  }

  lemma AllClosed(m: Mux, m': Mux, done: set<nat>)
    requires ClosedSoFar(m, m'.(ring := m.ring), done) && m'.ring == []
    requires forall id :: id in m.ports ==> id in done || NothingToClose(m.ports[id])
    ensures Closes(m, m')
  {
    forall id ensures SideOf(m', id) == ShutdownSide(SideOf(m, id)).side
                      && Of(m'.pipe, id) == Of(m.pipe, id) + ShutdownSide(SideOf(m, id)).out {
      assert id in m.ports <==> id in m'.ports;
    }
  }

  lemma OpenIsNext(cfg: Config, m: Mux, id: nat, s: Side)
    requires MuxOk(cfg, m) && id !in OpenIds(m) && s == SideOf(m, id)
    ensures var e := OpenEffect(cfg, s);
            OpenNext(cfg, m, id) == m.(ports := m.ports[id := e.side], pipe := m.pipe + Tag(id, e.out), nextId := id + 2)
  {
    NeverFit(cfg, m, id);
  }

  lemma NextIsFree(m: Mux, id: nat, taken: set<nat>)
    requires taken == OpenIds(m) && id !in taken && m.nextId <= id && (id - m.nextId) % 2 == 0
    requires forall x: nat :: m.nextId <= x < id && (x - m.nextId) % 2 == 0 ==> x in taken
    ensures NextFree(m, id)
  {
  }

  lemma PostIsPut(m: Mux, id: nat, c: Codec, p: Payload)
    requires Charged(SideOf(m, id)) <= m.reassembling
    ensures var e := PostPayload(c, SideOf(m, id), p);
            Put(m, id, e) == m.(ports := m.ports[id := e.side], pipe := m.pipe + Tag(id, e.out))
  {
    PutRecord(m, id, PostPayload(c, SideOf(m, id), p).side, PostPayload(c, SideOf(m, id), p).out);
  }

  function From(ids: set<nat>, n: nat): set<nat> { set id | id in ids && n <= id }

  class PortMux {
    const cfg: Config
    var ports: map<nat, Side>
    var ring: seq<nat>
    var reassembling: nat
    var nextId: nat
    var muxClosed: bool
    var pipe: seq<Tagged>

    function State(): Mux
      reads this
    {
      Mux(ports, ring, reassembling, nextId, muxClosed, pipe)
    }

    ghost predicate Valid()
      reads this
    {
      OptionsOk(cfg.o) && MuxOk(cfg, State())
    }

    /** A known port, whose charge the counter holds. */
    predicate Known(id: nat)
      reads this
    {
      OptionsOk(cfg.o) && id in ports && Charged(ports[id]) <= reassembling
    }

    constructor (cfg: Config, first: nat)
      requires OptionsOk(cfg.o)
      ensures Valid() && this.cfg == cfg && State() == Empty(first)
    {
      this.cfg := cfg;
      ports, ring, reassembling, nextId, muxClosed, pipe := map[], [], 0, first, false, [];
      new;
      assert OpenIds(State()) == {};
      forall n: nat ensures Sum(Charged, map[], n) == 0 { NothingCharged(Empty(0), n); }
    }

    // ----- the pipe and the ring -----

    /** `post`: nothing goes out once the multiplexer is closed. */
    method Transmit(id: nat, e: Envelope)
      requires !muxClosed
      modifies this`pipe
      ensures pipe == old(pipe) + Tag(id, [e])
    {
      assert Tag(id, [e]) == [Tagged(id, e)] by { assert [e][1..] == []; }
      pipe := pipe + [Tagged(id, e)];
    }

    method FreePartial(id: nat)
      requires Known(id)
      modifies this`ports, this`reassembling
      ensures ports == old(ports)[id := old(ports[id]).(partial := None)]
      ensures reassembling == old(reassembling) - Charged(old(ports[id]))
    {
      if ports[id].partial.Some? {
        reassembling := reassembling - ports[id].partial.value.charged;
      }
      ports := ports[id := ports[id].(partial := None)];
    }

    /** The port leaves the table; what waited for the window is nobody's now. */
    method Remove(id: nat)
      requires Known(id)
      modifies this`ports, this`reassembling
      ensures ports == old(ports)[id := Die(old(ports[id]))]
      ensures reassembling == old(reassembling) - Charged(old(ports[id]))
    {
      FreePartial(id);
      ports := ports[id := ports[id].(status := Dead, queue := [], queued := 0)];
    }

    method FreeIfEnded(id: nat)
      requires Known(id)
      modifies this`ports, this`reassembling
      ensures ports == old(ports)[id := PortSide.FreeIfEnded(old(ports[id]))]
      ensures reassembling == old(reassembling) - Charged(old(ports[id])) + Charged(ports[id])
    {
      if ports[id].status != Live || !ports[id].half.endSent || !ports[id].half.peerEnded { return; }
      Remove(id);
    }

    /** One item runs: it puts its envelope on the pipe, or ends the port's direction. */
    method RunItem(id: nat, e: Envelope)
      requires Known(id) && !muxClosed
      modifies this`ports, this`reassembling, this`pipe
      ensures State() == PutRing(old(State()), id, Emit(old(ports[id]), e), old(ring))
    {
      if e.End? {
        if ports[id].status != Live { return; }
        Transmit(id, e);
        ports := ports[id := ports[id].(half := ports[id].half.(endSent := true))];
        FreeIfEnded(id);
      } else {
        Transmit(id, e);
        ports := ports[id := ports[id]];
      }
    }

    method SendOnPort(id: nat, e: Envelope)
      requires Known(id) && !muxClosed
      modifies this`ports, this`reassembling, this`pipe, this`ring
      ensures State() == Put(old(State()), id, PortSide.SendOnPort(cfg.o, old(ports[id]), e))
      ensures Known(id)
    {
      if cfg.o.frameSize.None? {
        RunItem(id, e);
        return;
      }
      if ports[id].outgoing == [] { ring := ring + [id]; }
      ports := ports[id := ports[id].(outgoing := ports[id].outgoing + [e])];
    }

    method DropOutgoing(id: nat)
      requires Known(id)
      modifies this`ports, this`ring
      ensures ports == old(ports)[id := old(ports[id]).(outgoing := [])]
      ensures ring == RingAfter(old(ring), id, old(ports[id]).outgoing != [], false)
    {
      if ports[id].outgoing == [] {
        ports := ports[id := ports[id]];
        return;
      }
      ports := ports[id := ports[id].(outgoing := [])];
      ring := Without(ring, id);
    }

    /** One turn of `pump`: the port at the head of the ring, behind the others again if more waits. */
    method Turn()
      requires Valid() && !muxClosed && ring != []
      modifies this
      ensures Valid() && Did(cfg, old(State()), PortTable.Turn, State())
    {
      assert ring[0] in ring;
      var id := ring[0];
      ChargeHeld(cfg, State(), id);
      ring := ring[1..];
      var item := ports[id].outgoing[0];
      ports := ports[id := ports[id].(outgoing := ports[id].outgoing[1..])];
      if ports[id].outgoing != [] { ring := ring + [id]; }
      RunItem(id, item);
      DeedKeeps(cfg, old(State()), PortTable.Turn, State());
    }

    // ----- the sending half -----

    /** The frames of an encoded message. */
    method SendPieces(id: nat, bytes: Bytes)
      requires Known(id) && !muxClosed && cfg.o.frameSize.Some? && bytes != []
      modifies this`ports, this`reassembling, this`pipe, this`ring
      ensures State() == Put(old(State()), id, SendAllOnPort(cfg.o, old(ports[id]), Pieces(bytes, cfg.o.frameSize.value)))
      ensures Known(id)
    {
      var size := cfg.o.frameSize.value;
      var at := 0;
      ghost var sent: seq<Envelope> := [];
      ghost var m := State();
      PutNothing(m, id);
      assert bytes[0..] == bytes;
      while at < |bytes|
        invariant Known(id) && !muxClosed
        invariant State() == Put(m, id, SendAllOnPort(cfg.o, SideOf(m, id), sent))
        invariant sent + Rest(bytes, size, at) == Pieces(bytes, size)
        decreases |bytes| - at
      {
        hide Put, SendAllOnPort, PortSide.SendOnPort, Rest;
        var last := at + size >= |bytes|;
        var piece := Frame(if last then bytes[at..] else bytes[at..at + size], last);
        SendNext(cfg.o, m, id, sent, piece);
        RestNext(bytes, size, at, sent);
        SendOnPort(id, piece);
        sent := sent + [piece];
        at := at + size;
      }
      assert sent + [] == sent;
    }

    /** What one queued item puts on the port. */
    method Leave(id: nat, item: Item, whole: bool)
      requires Known(id) && !muxClosed && CodecOk(cfg.codecs(id))
      modifies this`ports, this`reassembling, this`pipe, this`ring
      ensures State() == Put(old(State()), id, SendAllOnPort(cfg.o, old(ports[id]), Leaving(cfg.o, cfg.codecs(id), old(ports[id]), item, whole)))
      ensures Known(id)
    {
      match item {
        case EndItem =>
          SendOne(cfg.o, ports[id], End);
          SendOnPort(id, End);
        case Send(p, size) =>
          if !whole && cfg.o.frameSize.Some? && ports[id].deal.enforced && ports[id].deal.exact && size > cfg.o.frameSize.value {
            SendPieces(id, cfg.codecs(id).encode(p));
          } else {
            SendOne(cfg.o, ports[id], Message(p));
            SendOnPort(id, Message(p));
          }
      }
    }

    method FlushItem(id: nat)
      requires Known(id) && !muxClosed && CodecOk(cfg.codecs(id)) && CanFlush(ports[id])
      modifies this`ports, this`reassembling, this`pipe, this`ring
      ensures State() == Put(old(State()), id, FlushOne(cfg.o, cfg.codecs(id), old(ports[id])))
      ensures Known(id)
    {
      var s := ports[id];
      var next := s.queue[0];
      var size := ItemSize(next);
      var t := s.(queue := s.queue[1..], queued := if size <= s.queued then s.queued - size else 0, outstanding := s.outstanding + size);
      ports := ports[id := t];
      PutAfter(old(State()), id, t, SendAllOnPort(cfg.o, t, Leaving(cfg.o, cfg.codecs(id), t, next, false)));
      hide Put, SendAllOnPort, Leaving;
      Leave(id, next, false);
    }

    method Flush(id: nat)
      requires Known(id) && (CanFlush(ports[id]) ==> !muxClosed) && CodecOk(cfg.codecs(id))
      modifies this`ports, this`reassembling, this`pipe, this`ring
      ensures State() == Put(old(State()), id, FlushAll(cfg.o, cfg.codecs(id), old(ports[id])))
      ensures Known(id)
    {
      ghost var m := State();
      ghost var done := Effect(ports[id], []);
      PutNothing(m, id);
      var c := cfg.codecs(id);
      assert Flushed(cfg.o, c, done) == FlushAll(cfg.o, c, ports[id]) by {
        assert [] + FlushAll(cfg.o, c, ports[id]).out == FlushAll(cfg.o, c, ports[id]).out;
      }
      while CanFlush(ports[id])
        invariant Known(id) && ports[id] == done.side && (CanFlush(done.side) ==> !muxClosed) && muxClosed == m.closed
        invariant Grows(SideOf(m, id), done.side)
        invariant State() == Put(m, id, done)
        invariant Flushed(cfg.o, c, done) == FlushAll(cfg.o, c, SideOf(m, id))
        decreases |ports[id].queue|
      {
        FlushNext(cfg.o, c, m, id, done);
        ghost var next := FlushOne(cfg.o, c, done.side);
        PutKnown(m, id, Then(done, next));
        hide Put, FlushOne, FlushAll;
        FlushItem(id);
        done := Then(done, next);
      }
      assert done.out + [] == done.out;
    }

    // ----- the consumer's side of a port -----

    ghost predicate Ready(id: nat)
      reads this
    {
      Valid() && id in ports && CodecOk(cfg.codecs(id))
    }

    lemma ReadyKnown(id: nat)
      requires Ready(id)
      ensures Known(id) && PartialFits(ports[id]) && SideOf(State(), id) == ports[id]
      ensures ports[id].status == Live ==> !muxClosed
    {
      ChargeHeld(cfg, State(), id);
      if ports[id].status == Live { assert id in OpenIds(State()); }
    }

    method PostMessage(id: nat, p: Payload)
      requires Ready(id)
      modifies this
      ensures Valid()
      ensures State() == Put(old(State()), id, Flushed(cfg.o, cfg.codecs(id), PostPayload(cfg.codecs(id), old(ports[id]), p)))
    {
      ReadyKnown(id);
      ghost var m := State();
      var c, s := cfg.codecs(id), ports[id];
      ghost var e := PostPayload(c, s, p);
      if s.status == Live && !s.half.ending {
        s := s.(hist := s.hist.(posted := s.hist.posted + [p]));
        if s.window == 0 {
          Transmit(id, Message(p));
        } else {
          var size := Size(c, s.deal.exact, p);
          s := s.(queue := s.queue + [Send(p, size)]);
          s := s.(queued := s.queued + size);
        }
      }
      ports := ports[id := s];
      PostIsPut(m, id, c, p);
      assert State() == Put(m, id, e);
      hide Put, FlushAll, PostPayload, MuxOk;
      FlushedKeeps(cfg, m, id, e);
      Flush(id);
    }

    method EndPort(id: nat)
      requires Ready(id)
      modifies this
      ensures Valid()
      ensures State() == Put(old(State()), id, Flushed(cfg.o, cfg.codecs(id), Effect(EndDirection(old(ports[id])), [])))
      ensures id in ports && ports[id].hist.posted == old(ports[id].hist.posted)
      ensures old(ports[id].status == Live && ports[id].window > 0 && HalfClose in ports[id].deal.caps && !ports[id].half.ending) ==>
                EndUnderWay(ports[id])
    {
      ReadyKnown(id);
      ghost var m := State();
      var s := ports[id];
      ghost var e := Effect(EndDirection(s), []);
      FlushedKeeps(cfg, m, id, e);
      PutRecord(m, id, e.side, []);
      assert m.pipe + [] == m.pipe;
      FlushAllEnds(cfg.o, cfg.codecs(id), EndDirection(s));
      if s.status == Live && s.window > 0 && HalfClose in s.deal.caps && !s.half.ending {
        s := s.(half := s.half.(ending := true));
        s := s.(queue := s.queue + [EndItem]);
      }
      ports := ports[id := s];
      assert State() == Put(m, id, e);
      hide Put, FlushAll, EndDirection, MuxOk;
      Flush(id);
    }

    /** Everything of a queue leaves, unframed and whatever the window. */
    method SendWhole(id: nat, queue: seq<Item>)
      requires Known(id) && !muxClosed && CodecOk(cfg.codecs(id))
      modifies this`ports, this`reassembling, this`pipe, this`ring
      ensures State() == Put(old(State()), id, SendAllOnPort(cfg.o, old(ports[id]), WholeItems(queue)))
      ensures Known(id)
    {
      ghost var m1, s, sent := State(), ports[id], [];
      PutNothing(m1, id);
      assert SendAllOnPort(cfg.o, s, []) == Effect(s, []);
      hide MuxOk, Put, SendAllOnPort;
      for i := 0 to |queue|
        invariant Known(id) && !muxClosed
        invariant sent == WholeItems(queue[..i])
        invariant State() == Put(m1, id, SendAllOnPort(cfg.o, s, sent))
      {
        var item := queue[i];
        assert queue[..i + 1] == queue[..i] + [item];
        WholeSnoc(queue[..i], item);
        SendNext(cfg.o, m1, id, sent, WholeEnvelope(item));
        SendOne(cfg.o, ports[id], WholeEnvelope(item));
        Leave(id, item, true);
        sent := sent + [WholeEnvelope(item)];
      }
      assert queue[..|queue|] == queue;
    }

    /** What is queued leaves past the window, then the close behind the port's frames. */
    method ClosePort(id: nat)
      requires Ready(id)
      modifies this
      ensures Valid()
      ensures State() == Put(old(State()), id, CloseSide(cfg.o, old(ports[id])))
    {
      ReadyKnown(id);
      ghost var m := State();
      var s := ports[id];
      LocalModest(cfg.o, cfg.codecs(id), s, CloseIt);
      ModestKeeps(cfg, m, id, CloseSide(cfg.o, s));
      if s.status != Live {
        PutNothing(m, id);
        return;
      }
      Remove(id);
      if s.queue != [] { ports := ports[id := ports[id].(hist := s.hist.(spilled := true))]; }
      ghost var m1 := State();
      SpillIsPut(m, m1, id, s);
      hide MuxOk, Put, SendAllOnPort, CloseSide;
      SendWhole(id, s.queue);
      SendNext(cfg.o, m1, id, WholeItems(s.queue), Close);
      SendOnPort(id, Close);
      CloseIsSends(cfg.o, m, id, s);
    }

    // ----- the receiving half -----

    /** Consumed bytes not yet credited go back, while the port is in the table. */
    method SendGrant(id: nat)
      requires Known(id) && (ports[id].status == Live ==> !muxClosed)
      modifies this`ports, this`pipe
      ensures State() == Put(old(State()), id, PortSide.SendGrant(old(ports[id])))
    {
      ghost var m := State();
      var s := ports[id].(clock := ports[id].clock.(grantScheduled := false));
      if s.toGrant != 0 && s.status == Live {
        Transmit(id, Credit(s.toGrant, false, None));
        s := s.(toGrant := 0);
      }
      ports := ports[id := s];
      PutRecord(m, id, s, PortSide.SendGrant(m.ports[id]).out);
    }

    method Grant(id: nat, n: nat)
      requires Known(id) && (ports[id].status == Live ==> !muxClosed)
      modifies this`ports, this`pipe
      ensures State() == Put(old(State()), id, PortSide.Grant(old(ports[id]), n))
    {
      ghost var m := State();
      var s := ports[id];
      s := s.(unconsumed := if n <= s.unconsumed then s.unconsumed - n else 0);
      s := s.(toGrant := s.toGrant + n);
      ports := ports[id := s];
      if 4 * s.toGrant >= s.window {
        PutAfter(m, id, s, PortSide.SendGrant(s));
        SendGrant(id);
        return;
      }
      if !s.clock.grantScheduled {
        ports := ports[id := s.(clock := Clock(true, s.clock.timers + 1))];
      }
      PutRecord(m, id, ports[id], []);
      assert m.pipe + [] == m.pipe;
    }

    /** The listeners of a delivered message settle. */
    method Settle(id: nat, i: nat)
      requires Ready(id) && i < |ports[id].unsettled|
      modifies this
      ensures Valid() && State() == Put(old(State()), id, SettleOne(old(ports[id]), i))
    {
      ReadyKnown(id);
      ghost var m := State();
      var s := ports[id];
      LocalModest(cfg.o, cfg.codecs(id), s, Act.Settle(i));
      ModestKeeps(cfg, m, id, SettleOne(s, i));
      var t := s.(unsettled := s.unsettled[..i] + s.unsettled[i + 1..]);
      ports := ports[id := t];
      PutAfter(m, id, t, PortSide.Grant(t, s.unsettled[i].size));
      hide MuxOk, Put;
      Grant(id, s.unsettled[i].size);
    }

    method FireTimer(id: nat)
      requires Ready(id) && ports[id].clock.timers > 0
      modifies this
      ensures Valid() && State() == Put(old(State()), id, PortSide.FireTimer(old(ports[id])))
    {
      ReadyKnown(id);
      ghost var m := State();
      var s := ports[id];
      LocalModest(cfg.o, cfg.codecs(id), s, Timer);
      ModestKeeps(cfg, m, id, PortSide.FireTimer(s));
      var t := s.(clock := s.clock.(timers := s.clock.timers - 1));
      ports := ports[id := t];
      PutAfter(m, id, t, PortSide.SendGrant(t));
      hide MuxOk, Put;
      SendGrant(id);
    }

    /** A peer that broke the port's protocol. */
    method FailPort(id: nat)
      requires Known(id) && !muxClosed
      modifies this
      ensures State() == Put(old(State()), id, Fail(old(ports[id]))) && Known(id)
    {
      ghost var m := State();
      FreePartial(id);
      DropOutgoing(id);
      ports := ports[id := ports[id].(status := Dead, queue := [], queued := 0, hist := ports[id].hist.(dropped := true))];
      Transmit(id, Close);
    }

    method Deliver(id: nat, p: Payload, n: nat)
      requires Known(id)
      modifies this`ports
      ensures ports == old(ports)[id := PortSide.Deliver(old(ports[id]), old(ports[id]).partial, p, n)]
    {
      var s := ports[id];
      s := s.(hist := s.hist.(delivered := s.hist.delivered + [p]));
      if s.window > 0 {
        s := s.(unconsumed := s.unconsumed + n);
        s := s.(unsettled := s.unsettled + [PortSide.Held(p, n)]);
      }
      ports := ports[id := s];
    }

    /** The bytes of a framed message, copied into one array. */
    method Reassemble(chunks: seq<Bytes>, bytes: nat) returns (whole: array<byte>)
      requires bytes == |Flatten(chunks)|
      ensures fresh(whole) && whole[..] == Flatten(chunks)
    {
      whole := new byte[bytes](_ => 0);
      var at := 0;
      for i := 0 to |chunks|
        invariant at == |Flatten(chunks[..i])| && at + |Flatten(chunks[i..])| == bytes
        invariant whole[..at] == Flatten(chunks[..i])
      {
        assert chunks[..i + 1] == chunks[..i] + [chunks[i]];
        FlattenSnoc(chunks[..i], chunks[i]);
        assert chunks[i..][1..] == chunks[i + 1..];
        ghost var before := whole[..at];
        forall j | 0 <= j < |chunks[i]| { whole[at + j] := chunks[i][j]; }
        assert whole[..at + |chunks[i]|] == before + chunks[i];
        at := at + |chunks[i]|;
      }
      assert chunks[..|chunks|] == chunks;
    }

    method HandleFrame(id: nat, e: Envelope)
      requires Ready(id) && e.Frame? && !muxClosed
      modifies this
      ensures State() == Put(old(State()), id,
                Handle(cfg.o, cfg.codecs(id), old(ports[id]), e, Full(cfg, old(State())), Others(old(State()), id)))
    {
      ReadyKnown(id);
      ghost var m := State();
      var s := ports[id];
      if s.status != Live {
        PutNothing(m, id);
        return;
      }
      if s.half.peerEnded {
        FailPort(id);
        return;
      }
      if s.window == 0 || !s.deal.exact || !cfg.o.exactCodec {
        PutNothing(m, id);
        return;
      }
      TakeFrame(id, e);
    }

    /** The last frame came: the message is put together, decoded and delivered. */
    method Finish(id: nat)
      requires Known(id) && ports[id].partial.Some? && ports[id].partial.value.bytes == |Flatten(ports[id].partial.value.chunks)|
      modifies this`ports, this`reassembling
      ensures ports == old(ports)[id := FinishedSide(cfg.codecs(id), old(ports[id]))]
      ensures reassembling == old(reassembling) - Charged(old(ports[id]))
    {
      var partial := ports[id].partial.value;
      FreePartial(id);
      var whole := Reassemble(partial.chunks, partial.bytes);
      match cfg.codecs(id).decode(whole[..]) {
        case None =>
        case Some(p) => Deliver(id, p, whole.Length);
      }
    }

    /** The frame is kept, and its excess counted; a last one completes the message. */
    method KeepFrame(id: nat, more: Partial, last: bool)
      requires Known(id) && more.bytes == |Flatten(more.chunks)|
      modifies this`ports, this`reassembling
      ensures var kept := old(ports[id]).(partial := Some(more));
              State() == Put(old(State()), id, Effect(if last then FinishedSide(cfg.codecs(id), kept) else kept, []))
    {
      ghost var m := State();
      var kept := ports[id].(partial := Some(more));
      PutQuiet(m, id, if last then FinishedSide(cfg.codecs(id), kept) else kept);
      reassembling := reassembling + more.charged - Charged(ports[id]);
      ports := ports[id := kept];
      hide Put, FinishedSide, Flatten;
      if last {
        Finish(id);
        FinishedFree(cfg.codecs(id), kept);
      }
    }

    method TakeFrame(id: nat, e: Envelope)
      requires Ready(id) && e.Frame? && !muxClosed
      modifies this
      ensures State() == Put(old(State()), id,
                PortSide.TakeFrame(cfg.o, cfg.codecs(id), old(ports[id]), e, Others(old(State()), id)))
    {
      ReadyKnown(id);
      var s := ports[id];
      var owed := s.unconsumed + s.toGrant;
      var partial :=
        if s.partial.Some? then s.partial.value
        else Partial([], 0, if owed > 0 then Some(s.window - owed) else None, 0);
      var size := |e.data|;
      var charged := if partial.room.None? then Max(0, partial.bytes + size - s.window) else 0;
      FrameOutcome(cfg.o, cfg.codecs(id), s, e, Others(State(), id));
      assert partial.charged == Charged(s);
      hide MuxOk, Flatten, PortSide.TakeFrame, Put, FinishedSide;
      if (partial.room.Some? && partial.bytes + size > partial.room.value)
         || reassembling - partial.charged + charged > cfg.o.maxReassembled {
        FailPort(id);
      } else {
        KeepFrame(id, Partial(partial.chunks + [e.data], partial.bytes + size, partial.room, charged), e.last);
      }
    }

    /** The peer opens a port: refused past `maxPorts`, else acknowledged if it asked for a window. */
    method HandleOpen(id: nat, e: Envelope)
      requires Ready(id) && e.Open? && !muxClosed
      modifies this
      ensures State() == Put(old(State()), id,
                Handle(cfg.o, cfg.codecs(id), old(ports[id]), e, Full(cfg, old(State())), Others(old(State()), id)))
    {
      ReadyKnown(id);
      ghost var m := State();
      var s := ports[id];
      if s.status == Live {
        PutNothing(m, id);
        return;
      }
      if Full(cfg, State()) {
        ports := ports[id := s.(status := Dead)];
        Transmit(id, Close);
        return;
      }
      var exact := e.exact && cfg.o.exactCodec;
      var t := Fresh(Live, e.window, false, exact, {}).(outgoing := s.outgoing, hist := s.hist);
      if e.window > 0 && e.caps.Some? {
        t := t.(deal := t.deal.(caps := cfg.o.caps * e.caps.value));
        ports := ports[id := t];
        Transmit(id, Credit(0, exact, Some(t.deal.caps)));
      } else if e.window > 0 {
        ports := ports[id := t];
        Transmit(id, Credit(0, exact, None));
      } else {
        ports := ports[id := t];
        assert m.pipe + [] == m.pipe;
      }
    }

    /** Credit, the opener's first of which is the ack that settles sizing and capabilities. */
    method HandleCredit(id: nat, e: Envelope)
      requires Ready(id) && e.Credit? && !muxClosed
      modifies this
      ensures State() == Put(old(State()), id, Heard(cfg, old(State()), id, e))
    {
      ReadyKnown(id);
      ghost var m := State();
      ghost var h := Handle(cfg.o, cfg.codecs(id), ports[id], e, Full(cfg, m), Others(m, id));
      FlushedKeeps(cfg, m, id, h);
      PutRecord(m, id, h.side, h.out);
      TakeCredit(id, e);
      hide Put, Handle, FlushAll, MuxOk;
      Flush(id);
    }

    method TakeCredit(id: nat, e: Envelope)
      requires Known(id) && e.Credit? && !muxClosed
      modifies this`ports, this`pipe
      ensures var h := Handle(cfg.o, cfg.codecs(id), old(ports[id]), e, false, 0);
              ports == old(ports)[id := h.side] && pipe == old(pipe) + Tag(id, h.out)
    {
      var s := ports[id];
      if s.status == Live && s.window > 0 {
        if !s.deal.enforced && s.deal.opener {
          if s.deal.exact && !e.exact {
            s := s.(deal := s.deal.(exact := false), outstanding := 0);
          }
          s := s.(deal := s.deal.(caps := if e.caps.Some? then cfg.o.caps * e.caps.value else {}));
          Transmit(id, Credit(0, false, None));
        }
        s := s.(deal := s.deal.(enforced := true));
        s := s.(outstanding := Max(0, s.outstanding - e.bytes));
      }
      ports := ports[id := s];
      assert old(pipe) + [] == old(pipe);
    }

    method HandleMessage(id: nat, e: Envelope)
      requires Ready(id) && e.Message? && !muxClosed
      modifies this
      ensures State() == Put(old(State()), id,
                Handle(cfg.o, cfg.codecs(id), old(ports[id]), e, Full(cfg, old(State())), Others(old(State()), id)))
    {
      ReadyKnown(id);
      ghost var m := State();
      var s := ports[id];
      if s.status != Live {
        PutNothing(m, id);
      } else if s.half.peerEnded {
        FailPort(id);
      } else {
        Deliver(id, e.payload, Size(cfg.codecs(id), s.deal.exact, e.payload));
        PutQuiet(m, id, ports[id]);
      }
    }

    method HandleEnd(id: nat)
      requires Ready(id) && !muxClosed
      modifies this
      ensures State() == Put(old(State()), id,
                Handle(cfg.o, cfg.codecs(id), old(ports[id]), End, Full(cfg, old(State())), Others(old(State()), id)))
    {
      ReadyKnown(id);
      ghost var m := State();
      var s := ports[id];
      if s.status != Live {
        PutNothing(m, id);
      } else if s.window == 0 || HalfClose !in s.deal.caps {
        FailPort(id);
      } else {
        ports := ports[id := s.(half := s.half.(peerEnded := true))];
        FreeIfEnded(id);
        PutQuiet(m, id, ports[id]);
      }
    }

    method HandleClose(id: nat)
      requires Ready(id) && !muxClosed
      modifies this
      ensures State() == Put(old(State()), id,
                Handle(cfg.o, cfg.codecs(id), old(ports[id]), Close, Full(cfg, old(State())), Others(old(State()), id)))
    {
      ReadyKnown(id);
      ghost var m := State();
      var lost := ports[id].outgoing != [];
      DropOutgoing(id);
      if ports[id].status == Live {
        Remove(id);
        lost := true;
      }
      if lost {
        ports := ports[id := ports[id].(hist := ports[id].hist.(dropped := true))];
      }
      assert m.pipe + [] == m.pipe;
    }

    /** One envelope of the peer; once the multiplexer is closed, nothing it sends is read. */
    method Hear(id: nat, e: Envelope)
      requires Valid() && CodecOk(cfg.codecs(id))
      modifies this
      ensures Valid()
      ensures State() == if old(muxClosed) then old(State()) else Put(old(State()), id, Heard(cfg, old(State()), id, e))
    {
      if muxClosed { return; }
      ghost var m := State();
      HeardKeeps(cfg, m, id, e);
      if id !in ports {
        ports := ports[id := NO_PORT];
        Unheard(cfg, m, State(), id, e);
      }
      hide MuxOk, Put, Heard, Handle;
      match e {
        case Open(_, _, _) => HandleOpen(id, e);
        case Credit(_, _, _) => HandleCredit(id, e);
        case Message(_) => HandleMessage(id, e);
        case Frame(_, _) => HandleFrame(id, e);
        case End => HandleEnd(id);
        case Close => HandleClose(id);
      }
    }

    // ----- the whole multiplexer -----

    /** A new port, at the next id of this end's parity that the peer did not claim. */
    method OpenPort() returns (r: Option<nat>)
      requires Valid()
      modifies this
      ensures Valid()
      ensures r.None? <==> old(muxClosed) || Full(cfg, old(State()))
      ensures r.None? ==> State() == old(State())
      ensures r.Some? ==> Did(cfg, old(State()), Deed.OpenPort(r.value), State())
    {
      if muxClosed || Full(cfg, State()) { return None; }
      hide MuxOk, Full;
      ghost var m := State();
      var id := TakeId();
      var s := if id in ports then ports[id] else NO_PORT;
      ports := ports[id := Fresh(Live, cfg.window, true, cfg.o.exactCodec, {}).(outgoing := s.outgoing, hist := s.hist)];
      Transmit(id, Open(cfg.window, cfg.o.exactCodec, if cfg.window > 0 then Some(cfg.o.caps) else None));
      hide NextFree, OpenIds;
      OpenIsNext(cfg, m, id, s);
      DeedKeeps(cfg, m, Deed.OpenPort(id), State());
      return Some(id);
    }

    /** The loop skips ids that are taken. */
    method TakeId() returns (id: nat)
      modifies this`nextId
      ensures NextFree(old(State()), id) && id !in OpenIds(old(State()))
      ensures State() == old(State()).(nextId := id + 2)
    {
      ghost var m := State();
      var taken := OpenIds(State());
      hide OpenIds;
      while nextId in taken
        invariant m.nextId <= nextId && (nextId - m.nextId) % 2 == 0
        invariant forall x: nat :: m.nextId <= x < nextId && (x - m.nextId) % 2 == 0 ==> x in taken
        invariant State() == m.(nextId := nextId)
        decreases From(taken, nextId)
      {
        assert nextId in From(taken, nextId) && nextId !in From(taken, nextId + 2);
        nextId := nextId + 2;
      }
      id := nextId;
      NextIsFree(m, id, taken);
      nextId := nextId + 2;
    }

    /** The close of one port by the multiplexer's own: its notice goes at once. */
    method CloseOne(ghost m: Mux, id: nat, ghost done: set<nat>)
      requires ClosedSoFar(m, State(), done) && id in m.ports && id !in done
      modifies this`ports, this`pipe
      ensures ClosedSoFar(m, State(), done + {id})
      ensures ports == old(ports)[id := ShutdownSide(m.ports[id]).side]
    {
      ClosedMore(m, State(), id, done);
      hide ClosedSoFar;
      var s := ports[id];
      if s.status == Live || s.outgoing != [] {
        assert Tag(id, [Close]) == [Tagged(id, Close)] by { assert [Close][1..] == []; }
        pipe := pipe + [Tagged(id, Close)];
        s := s.(status := Dead, partial := None, queue := [], queued := 0, hist := s.hist.(dropped := true));
        s := s.(outgoing := []);
      }
      assert pipe + [] == pipe;
      ports := ports[id := s];
    }

    /** Open ports hear their close first, then those whose close still waited behind their frames. */
    method CloseMux()
      requires Valid()
      modifies this
      ensures Valid()
      ensures if old(muxClosed) then State() == old(State()) else Did(cfg, old(State()), CloseAll, State())
    {
      if muxClosed { return; }
      ghost var m := State();
      muxClosed := true;
      var todo := OpenIds(State());
      ghost var done: set<nat> := {};
      assert forall id :: Of(m.pipe, id) + [] == Of(m.pipe, id);
      while todo != {}
        invariant forall id :: id in todo ==> id in m.ports && id !in done
        invariant forall id :: id in OpenIds(m) ==> id in todo || id in done
        invariant ClosedSoFar(m, State(), done)
        decreases |todo|
      {
        hide MuxOk, ClosedSoFar;
        var id :| id in todo;
        CloseOne(m, id, done);
        todo, done := todo - {id}, done + {id};
      }
      CloseWaiting(m, done);
      DeedKeeps(cfg, m, CloseAll, State());
    }

    method CloseWaiting(ghost m: Mux, ghost closed: set<nat>)
      requires ClosedSoFar(m, State(), closed) && OpenIds(m) <= closed
      modifies this`ports, this`pipe, this`ring
      ensures Closes(m, State())
    {
      ghost var done := closed;
      var waiting := set id | id in ports && ports[id].outgoing != [];
      while waiting != {}
        invariant forall id :: id in waiting ==> id in m.ports && id !in done
        invariant forall id :: id in m.ports ==> id in waiting || id in done || NothingToClose(m.ports[id])
        invariant ClosedSoFar(m, State(), done)
        decreases |waiting|
      {
        hide ClosedSoFar, NothingToClose;
        var id :| id in waiting;
        CloseOne(m, id, done);
        waiting, done := waiting - {id}, done + {id};
      }
      ring := [];
      AllClosed(m, State(), done);
    }
  }
}
