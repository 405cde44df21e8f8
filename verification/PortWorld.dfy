/**
 One windowed port between two multiplexers: its two ends, the two FIFO pipes
 between them, the atomic steps of the code, and the invariants every reachable
 state keeps.
 */
module PortWorld {
  import opened Basics
  import opened PortSide
  import opened PortWire

  /**
   What is fixed for a port: the codec both ends use, the window the opener asks
   for, each end's options (`oa` the opener's), and which payloads the consumers
   post only while the window holds their sends (the pipelined chunks).
   */
  datatype Terms = Terms(codec: Codec, window: nat, oa: Options, ob: Options, chunk: Payload -> bool)

  ghost predicate TermsOk(k: Terms) {
    CodecOk(k.codec) && OptionsOk(k.oa) && OptionsOk(k.ob) && k.window >= 1
  }

  function GaugeOf(k: Terms): Gauge { Gauge(k.codec, Mode(k), k.window, k.chunk) }

  /** How both ends size messages once the handshake settled it. */
  predicate Mode(k: Terms) { k.oa.exactCodec && k.ob.exactCodec }

  /** The sizing the opener starts with is the one agreed: no downgrade happens. */
  predicate Agreed(k: Terms) { k.oa.exactCodec ==> k.ob.exactCodec }

  function Shared(k: Terms): set<Cap> { k.oa.caps * k.ob.caps }

  datatype World = World(a: Side, b: Side, ab: seq<Envelope>, ba: seq<Envelope>)

  /** `openPort` has just run at the opener. */
  function Init(k: Terms): World {
    World(Fresh(Live, k.window, true, k.oa.exactCodec, {}), Fresh(NotYet, 0, false, false, {}),
          [Open(k.window, k.oa.exactCodec, Some(k.oa.caps))], [])
  }

  /**
   The atomic steps of one end. `Recv` handles the oldest envelope of the pipe,
   `full` and `others` being what the rest of the table imposes on it.
   */
  datatype Act =
    | Post(payload: Payload) | Flush | Pump | Recv(full: bool, others: nat)
    | Settle(i: nat) | Timer | EndDir | CloseIt | Reject | Shutdown

  /**
   JavaScript runs to completion: a block that made the queue sendable flushes it
   before anything else happens at that end.
   */
  predicate Enabled(k: Terms, o: Options, s: Side, inbox: seq<Envelope>, act: Act) {
    if CanFlush(s) then act.Flush?
    else match act
      case Post(p) => k.codec.carries(p) && (k.chunk(p) ==> s.deal.enforced)
      case Flush => false
      case Pump => o.frameSize.Some? && s.outgoing != []
      case Recv(_, _) => inbox != []
      case Settle(i) => i < |s.unsettled|
      case Timer => s.clock.timers > 0
      case Reject => !s.deal.opener
      case Shutdown => s.status != NotYet
      case _ => true
  }

  function Perform(k: Terms, o: Options, s: Side, inbox: seq<Envelope>, act: Act): Effect
    requires OptionsOk(o) && Enabled(k, o, s, inbox, act)
  {
    match act
    case Post(p) => PostPayload(k.codec, s, p)
    case Flush => FlushOne(o, k.codec, s)
    case Pump => PumpOne(s)
    case Recv(full, others) => Handle(o, k.codec, s, inbox[0], full, others)
    case Settle(i) => SettleOne(s, i)
    case Timer => FireTimer(s)
    case EndDir => Effect(EndDirection(s), [])
    case CloseIt => CloseSide(o, s)
    case Reject => RejectSide(s)
    case Shutdown => ShutdownSide(s)
  }

  function Remaining(inbox: seq<Envelope>, act: Act): seq<Envelope> {
    if act.Recv? && inbox != [] then inbox[1..] else inbox
  }

  predicate Can(k: Terms, w: World, byA: bool, act: Act) {
    if byA then Enabled(k, k.oa, w.a, w.ba, act) else Enabled(k, k.ob, w.b, w.ab, act)
  }

  function Step(k: Terms, w: World, byA: bool, act: Act): World
    requires OptionsOk(k.oa) && OptionsOk(k.ob) && Can(k, w, byA, act)
  {
    if byA then
      var e := Perform(k, k.oa, w.a, w.ba, act);
      World(e.side, w.b, w.ab + e.out, Remaining(w.ba, act))
    else
      var e := Perform(k, k.ob, w.b, w.ab, act);
      World(w.a, e.side, Remaining(w.ab, act), w.ba + e.out)
  }

  // ----- what one end keeps to itself -----

  function ItemSum(q: seq<Item>): nat {
    if q == [] then 0 else ItemSize(q[0]) + ItemSum(q[1..])
  }

  function HeldSum(h: seq<Held>): nat {
    if h == [] then 0 else h[0].size + HeldSum(h[1..])
  }

  ghost predicate Local(k: Terms, o: Options, isA: bool, s: Side) {
    && s.deal.opener == isA
    && (s.status == NotYet ==> !isA && s == Fresh(NotYet, 0, false, false, {}))
    && (s.status == Live ==> s.window == k.window)
    && (isA && s.deal.enforced ==> s.deal.exact == Mode(k) && s.deal.caps == Shared(k))
    && (isA && !s.deal.enforced ==> s.deal.exact == k.oa.exactCodec && s.deal.caps == {})
    && (!isA && s.status == Live ==> s.deal.exact == Mode(k) && s.deal.caps == Shared(k))
    && (s.status == Dead ==> s.queue == [] && s.partial == None)
    && QueueOk(k, s)
    && (o.frameSize.None? ==> s.outgoing == [])
    && Plain(s.outgoing)
    && s.unconsumed == HeldSum(s.unsettled)
    && (s.status == Live && s.toGrant > 0 ==> s.clock.grantScheduled)
    && (s.clock.grantScheduled ==> s.clock.timers > 0)
    && (s.partial.Some? ==>
          var pt := s.partial.value;
          pt.bytes == |Flatten(pt.chunks)| && pt.bytes > 0)
  }

  ghost predicate QueueOk(k: Terms, s: Side) {
    && s.queued == ItemSum(s.queue)
    && (forall i :: 0 <= i < |s.queue| && s.queue[i].Send? ==>
          && s.queue[i].bytes == Size(k.codec, s.deal.exact, s.queue[i].payload)
          && k.codec.carries(s.queue[i].payload) && (k.chunk(s.queue[i].payload) ==> s.deal.enforced))
    && (forall i :: 0 <= i < |s.queue| && s.queue[i].EndItem? ==> i == |s.queue| - 1 && s.half.ending)
  }

  // ----- what one direction of the port keeps -----

  /** A direction: its sender, its receiver, the pipe there and the pipe back. */
  datatype Flow = Flow(s: Side, r: Side, sr: seq<Envelope>, rs: seq<Envelope>, tight: bool)

  /** Everything the sender has let go of and the receiver has not seen. */
  function Coming(f: Flow): seq<Envelope> {
    Data(f.sr) + f.s.outgoing
  }

  function BufOf(s: Side): Bytes {
    if s.partial.Some? then Flatten(s.partial.value.chunks) else []
  }

  function PartialBytes(s: Side): nat {
    if s.partial.Some? then s.partial.value.bytes else 0
  }

  /** What was posted is what was delivered, then what is on its way, then what waits. */
  ghost predicate Transfer(k: Terms, f: Flow) {
    && f.r.hist.delivered <= f.s.hist.posted
    && (f.r.status != Dead ==>
          var g := Feed(k.codec, BufOf(f.r), Coming(f));
          && g.ok && (g.closed || g.buf == [])
          && f.r.hist.delivered + g.msgs + Payloads(f.s.queue) <= f.s.hist.posted
          && (!f.s.hist.dropped || f.s.half.endSent ==>
                f.r.hist.delivered + g.msgs + Payloads(f.s.queue) == f.s.hist.posted))
    && (f.r.half.peerEnded ==> f.r.hist.delivered == f.s.hist.posted)
  }

  predicate Traffic(e: Envelope) { e.Message? || e.Frame? || e.End? }

  predicate Quiet(es: seq<Envelope>) {
    forall e :: e in es ==> !Traffic(e)
  }

  /** Nothing but a close follows an end. */
  predicate Ordered(es: seq<Envelope>) {
    forall i, j :: 0 <= i < j < |es| && es[i].End? ==> !Traffic(es[j])
  }

  ghost predicate Half(k: Terms, f: Flow) {
    && Ordered(Coming(f))
    && (End in Coming(f) ==> f.s.queue == [] && f.s.half.ending)
    && (f.s.half.ending ==> HalfClose in Shared(k))
    && (f.s.half.ending && f.s.status == Live ==> EndItem in f.s.queue || End in Coming(f) || f.r.half.peerEnded || f.r.status == Dead)
    && (f.s.half.endSent ==> f.s.half.ending && f.s.queue == [] && Quiet(f.s.outgoing))
    && (End in Data(f.sr) ==> f.s.half.endSent)
    && (f.s.half.endSent && f.r.status != Dead ==> End in Data(f.sr) || f.r.half.peerEnded)
    && (f.r.half.peerEnded ==> f.s.half.endSent && Quiet(Coming(f)))
  }

  ghost predicate Life(f: Flow) {
    && (f.s.status == Live ==> Close !in Coming(f) && !f.s.hist.dropped && !(f.s.half.endSent && f.s.half.peerEnded))
    && (f.s.status == Dead && f.r.status != Dead ==> Close in Coming(f) || (f.s.half.endSent && f.s.half.peerEnded))
    && (f.s.status == NotYet ==> Coming(f) == [])
  }

  /** Every byte the sender counts is on its way, held, owed back or credited. */
  function Accounted(k: Terms, f: Flow): nat {
    Cost(k.codec, Mode(k), Coming(f)) + PartialBytes(f.r) + f.r.unconsumed + f.r.toGrant + Credits(f.rs)
  }

  ghost predicate Ledger(k: Terms, f: Flow) {
    f.s.status != Dead && f.r.status != Dead ==>
      && (f.tight ==> f.s.outstanding == Accounted(k, f))
      && (f.s.deal.enforced ==> f.s.outstanding <= Accounted(k, f))
  }

  ghost predicate Room(k: Terms, f: Flow) {
    && (!Mode(k) && f.r.status != Dead ==> f.r.partial == None && forall e :: e in Coming(f) ==> !e.Frame?)
    && (f.tight && f.r.status != Dead ==>
          Fits(GaugeOf(k), !f.s.hist.spilled, RunOf(f.r),
               f.r.unconsumed + f.r.toGrant + PartialBytes(f.r), Coming(f)))
  }

  ghost predicate Dir(k: Terms, f: Flow) {
    Transfer(k, f) && Half(k, f) && Life(f) && Ledger(k, f) && Room(k, f)
  }

  // ----- what the two ends keep together -----

  function Ack(k: Terms): Envelope { Credit(0, Mode(k), Some(Shared(k))) }

  function OpenOf(k: Terms): Envelope { Open(k.window, k.oa.exactCodec, Some(k.oa.caps)) }

  predicate NoOpen(ch: seq<Envelope>) {
    forall e :: e in ch ==> !e.Open?
  }

  ghost predicate Handshake(k: Terms, w: World) {
    && w.a.status != NotYet
    && NoOpen(w.ba)
    && (w.b.status == NotYet ==> w.ba == [] && w.ab != [] && w.ab[0] == OpenOf(k) && NoOpen(w.ab[1..]) && !w.a.deal.enforced)
    && (w.b.status != NotYet ==> NoOpen(w.ab))
    && (w.b.status != NotYet && w.a.status == Live && !w.a.deal.enforced ==> w.ba != [] && (w.ba[0] == Ack(k) || w.ba[0] == Close))
  }

  function FlowAB(k: Terms, w: World): Flow { Flow(w.a, w.b, w.ab, w.ba, Agreed(k)) }

  function FlowBA(w: World): Flow { Flow(w.b, w.a, w.ba, w.ab, true) }

  ghost predicate Inv(k: Terms, w: World) {
    && Local(k, k.oa, true, w.a)
    && Local(k, k.ob, false, w.b)
    && Handshake(k, w)
    && Dir(k, FlowAB(k, w))
    && Dir(k, FlowBA(w))
  }

  lemma InitInv(k: Terms)
    requires TermsOk(k)
    ensures Inv(k, Init(k))
  {
    hide CodecOk;
    var w := Init(k);
    assert Data(w.ab) == [] by { assert w.ab[1..] == []; }
    assert Credits(w.ab) == 0 by { assert w.ab[1..] == []; }
    assert Coming(FlowAB(k, w)) == [];
    assert Coming(FlowBA(w)) == [];
  }
}
