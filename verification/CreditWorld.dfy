/** One stream of the credit multiplexer between its two ends: steps, and what every one keeps. */
module CreditWorld {
  import opened Basics
  import opened FlowControl
  import opened CreditSide
  import U = Uint32

  /** The caller's and the server's options. */
  datatype Terms = Terms(a: Config, b: Config)

  predicate TermsOk(k: Terms) { ConfigOk(k.a) && ConfigOk(k.b) }

  datatype World = World(a: Side, b: Side, ab: seq<Frame>, ba: seq<Frame>)

  /** The caller has just made its call. */
  function Init(k: Terms): World {
    World(Opened(k.a).side, Fresh(NotYet), Opened(k.a).out, [])
  }

  datatype Act =
    | Offer(chunk: Bytes) | Send | InputEnd | InputFail | HandlerEnd
    | Recv(refused: bool) | Take | Next | Cancel | Settle

  predicate Enabled(s: Side, inbox: seq<Frame>, server: bool, act: Act) {
    match act
    case Recv(_) => inbox != []
    case _ =>
      && s.status != NotYet
      && match act
         case Offer(_) => s.outb.phase.Waiting?
         case Send => s.outb.phase.Taken?
         case InputEnd => s.outb.phase.Waiting?
         case InputFail => s.outb.phase.Waiting?
         case HandlerEnd => server && s.outb.phase.Over?
         case Take => s.inb.slots != [] && s.inb.hand == None && s.inb.outcome.Running?
         case Next => s.inb.hand.Some? && s.inb.outcome.Running?
         case Cancel => s.inb.hand.Some? && s.inb.outcome.Running?
         case Settle => s.inb.settling != []
  }

  function Perform(c: Config, s: Side, inbox: seq<Frame>, server: bool, act: Act): Effect
    requires ConfigOk(c) && Enabled(s, inbox, server, act)
    requires s.outb.phase.Taken? ==> s.outb.phase.units <= |s.outb.chunk|
  {
    match act
    case Offer(chunk) => Effect(OfferChunk(c, s, chunk), [])
    case Send => SendPiece(c, s)
    case InputEnd => InputEnds(s)
    case InputFail => InputFails(s)
    case HandlerEnd => HandlerDone(s)
    case Recv(refused) => Handle(c, s, inbox[0], refused)
    case Take => Effect(TakeSlot(s), [])
    case Next => Effect(AskNext(s), [])
    case Cancel => Leave(s)
    case Settle => SettleOne(c, s)
  }

  function Remaining(inbox: seq<Frame>, act: Act): seq<Frame> {
    if act.Recv? && inbox != [] then inbox[1..] else inbox
  }

  // ----- what one end keeps to itself -----

  predicate PumpOk(s: Side) {
    && LedgerOk(s.outb.ledger)
    && s.outb.sent + s.outb.chunk == s.outb.offered
    && (s.outb.phase.Waiting? ==> s.outb.chunk == [])
    && (s.outb.phase.Taken? ==> 1 <= s.outb.phase.units <= |s.outb.chunk|)
    && (s.outb.phase.Parked? ==> |s.outb.ledger.waiters| == 1 && 1 <= s.outb.ledger.waiters[0] <= |s.outb.chunk|)
    && (!s.outb.phase.Parked? ==> s.outb.ledger.waiters == [])
    && (s.outb.ledger.failed ==> s.status == Gone)
    && (s.outb.done ==> s.outb.phase.Over? && s.outb.chunk == [])
    && (s.outb.phase.Over? ==> s.outb.done || s.status == Gone)
  }

  function Content(slots: seq<Slot>): Bytes {
    if slots == [] then [] else (if slots[0].Value? then slots[0].bytes else []) + Content(slots[1..])
  }

  function Units(p: seq<Settled>): nat {
    if p == [] then 0 else p[0].units + Units(p[1..])
  }

  function InHand(i: Inbound): nat { if i.hand.Some? then i.hand.value else 0 }

  /** A queue whose end is known holds it last, once. */
  predicate EndLast(slots: seq<Slot>) {
    forall i :: 0 <= i < |slots| - 1 ==> slots[i].Value?
  }

  /** Why the input is over, once known: from the queue's end, or from how the loop finished. */
  function CauseOf(i: Inbound): Option<Cause> {
    if i.outcome.Finished? then Some(i.outcome.cause)
    else if i.slots != [] && i.slots[|i.slots| - 1].Done? then Some(i.slots[|i.slots| - 1].cause)
    else None
  }

  predicate QueueOk(s: Side) {
    && EndLast(s.inb.slots)
    && (!s.inb.outcome.Running? ==> s.inb.slots == [] && s.inb.hand == None)
    && (s.inb.outcome.Running? ==>
          && s.inb.queued == |Content(s.inb.slots)| + InHand(s.inb) + Units(s.inb.settling)
          && forall i :: 0 <= i < |s.inb.settling| ==> s.inb.settling[i].handled)
    && (s.inb.outcome.Running? && s.status == Live && s.inb.pending > 0 ==> s.inb.queued > 0)
    && (s.status == Live ==> (s.inb.done <==> CauseOf(s.inb).Some? || s.inb.outcome.Cancelled?))
    && (s.status == Gone ==> CauseOf(s.inb).Some? || s.inb.outcome.Cancelled? || s.inb == Fresh(NotYet).inb)
    && (s.inb.done ==> CauseOf(s.inb) == Some(PeerEnd) || s.inb.outcome.Cancelled?)
    && (CauseOf(s.inb) == Some(PeerEnd) ==> s.inb.done)
  }

  predicate Local(s: Side) {
    && (s.status == NotYet ==> s == Fresh(NotYet))
    && (s.status == Live ==> !(s.inb.done && s.outb.done))
    && PumpOk(s) && QueueOk(s)
  }

  // ----- what one direction keeps -----

  /** A direction: its sender, its receiver, the pipe there and the pipe back, the credit advertised. */
  datatype Flow = Flow(s: Side, r: Side, sr: seq<Frame>, rs: seq<Frame>, window: nat)

  function DataOf(fs: seq<Frame>): Bytes {
    if fs == [] then [] else (if fs[0].Data? then fs[0].bytes else []) + DataOf(fs[1..])
  }

  function Grants(fs: seq<Frame>): nat {
    if fs == [] then 0
    else (match fs[0] case Open(w) => w case Ack(n) => n case _ => 0) + Grants(fs[1..])
  }

  predicate Final(f: Frame) { f.ErrorFrame? || f.CloseFrame? }

  /** Nothing follows an error or a close; neither bytes nor another end follow an end. */
  predicate Ordered(fs: seq<Frame>) {
    && (forall i :: 0 <= i < |fs| - 1 ==> !Final(fs[i]))
    && (forall i, j :: 0 <= i < j < |fs| && fs[i].EndFrame? ==> !fs[j].Data? && !fs[j].EndFrame?)
  }

  predicate HasFinal(fs: seq<Frame>) {
    exists f :: f in fs && Final(f)
  }

  predicate NoData(fs: seq<Frame>) {
    forall f :: f in fs ==> !f.Data?
  }

  /** A receiver that still queues what arrives. */
  predicate Accepts(r: Side) { r.status != Gone && r.inb.outcome.Running? }

  /** What was read, then what is queued, then what is on its way, is what was sent. */
  predicate Faithful(f: Flow) {
    && f.r.inb.read + Content(f.r.inb.slots) <= f.s.outb.sent
    && (Accepts(f.r) ==> f.r.inb.read + Content(f.r.inb.slots) + DataOf(f.sr) == f.s.outb.sent)
    && (CauseOf(f.r.inb) == Some(PeerEnd) ==> f.r.inb.read + Content(f.r.inb.slots) == f.s.outb.sent)
    && (CauseOf(f.r.inb) == Some(PeerClose) ==> f.s.status == Gone && !f.s.outb.done)
  }

  predicate Order(f: Flow) {
    && Ordered(f.sr)
    && (HasFinal(f.sr) ==> f.s.status == Gone)
    && (EndFrame in f.sr ==> f.s.outb.done)
    && (f.r.inb.done ==> f.s.outb.done && EndFrame !in f.sr && NoData(f.sr))
    && (f.s.outb.done && f.r.status != Gone ==> EndFrame in f.sr || f.r.inb.done)
    && (f.s.status == Gone && f.r.status != Gone ==> HasFinal(f.sr) || (f.s.outb.done && f.r.outb.done))
    && (f.s.status == NotYet ==> f.sr == [])
  }

  function Held(s: Side): nat {
    s.outb.ledger.available + (if s.outb.phase.Taken? then s.outb.phase.units else 0)
  }

  /** The whole window, wherever its bytes are. */
  function Spread(f: Flow): nat {
    Held(f.s) + |DataOf(f.sr)| + f.r.inb.queued + f.r.inb.pending + Grants(f.rs)
  }

  predicate Credit(f: Flow) {
    && (f.r.status == Live && f.r.inb.outcome.Running? ==>
          if f.s.status == Gone then Spread(f) - Held(f.s) <= f.window else Spread(f) == f.window)
    && (f.r.status == NotYet ==> Held(f.s) == 0 && f.s.outb.sent == [] && NoData(f.sr))
  }

  predicate Dir(f: Flow) { Faithful(f) && Order(f) && Credit(f) }

  // ----- both ends -----

  predicate NoOpen(fs: seq<Frame>) {
    forall f :: f in fs ==> !f.Open?
  }

  predicate Handshake(k: Terms, w: World) {
    && w.a.status != NotYet && NoOpen(w.ba)
    && (w.b.status == NotYet ==> w.ba == [] && w.ab != [] && w.ab[0] == Open(U.Clamp(k.a.buffer)) && NoOpen(w.ab[1..]))
    && (w.b.status != NotYet ==> NoOpen(w.ab))
  }

  function FlowAB(k: Terms, w: World): Flow { Flow(w.a, w.b, w.ab, w.ba, U.Clamp(k.b.buffer)) }

  function FlowBA(k: Terms, w: World): Flow { Flow(w.b, w.a, w.ba, w.ab, U.Clamp(k.a.buffer)) }

  predicate Inv(k: Terms, w: World) {
    Local(w.a) && Local(w.b) && Handshake(k, w) && Dir(FlowAB(k, w)) && Dir(FlowBA(k, w))
  }

  lemma InitLocal(status: Status)
    requires status != Gone
    ensures Local(Fresh(status))
  {
  }

  lemma InitDir(k: Terms, w: World)
    requires TermsOk(k) && w == Init(k)
    requires DataOf(w.ab) == [] && Grants(w.ab) == U.Clamp(k.a.buffer)
    ensures Dir(FlowAB(k, w)) && Dir(FlowBA(k, w))
  {
    hide DataOf, Grants, Local;
    assert Grants(w.ba) == 0 && DataOf(w.ba) == [] by { OpenAlone(0); }
  }

  lemma OpenAlone(window: nat)
    ensures Grants([]) == 0 && DataOf([]) == []
    ensures var fs := [Open(window)]; DataOf(fs) == [] && Grants(fs) == window
  {
    assert [Open(window)][1..] == [];
  }

  lemma InitInv(k: Terms)
    requires TermsOk(k)
    ensures Inv(k, Init(k))
  {
    OpenAlone(U.Clamp(k.a.buffer));
    InitLocal(Live);
    InitLocal(NotYet);
    hide Dir, Local, DataOf, Grants;
    InitDir(k, Init(k));
    var w := Init(k);
    assert w.ab[1..] == [];
  }

  // ----- frames -----

  lemma {:induction false} DataAppend(x: seq<Frame>, y: seq<Frame>)
    ensures DataOf(x + y) == DataOf(x) + DataOf(y)
  {
    if x == [] {
      assert x + y == y;
    } else {
      assert (x + y)[1..] == x[1..] + y;
      DataAppend(x[1..], y);
      var h := if x[0].Data? then x[0].bytes else [];
      assert h + (DataOf(x[1..]) + DataOf(y)) == (h + DataOf(x[1..])) + DataOf(y);
    }
  }

  lemma {:induction false} GrantsAppend(x: seq<Frame>, y: seq<Frame>)
    ensures Grants(x + y) == Grants(x) + Grants(y)
  {
    if x == [] {
      assert x + y == y;
    } else {
      assert (x + y)[1..] == x[1..] + y;
      GrantsAppend(x[1..], y);
    }
  }

  lemma {:induction false} NoDataNone(fs: seq<Frame>)
    requires NoData(fs)
    ensures DataOf(fs) == []
  {
    if fs != [] { NoDataNone(fs[1..]); }
  }

  lemma {:induction false} ContentAppend(x: seq<Slot>, y: seq<Slot>)
    ensures Content(x + y) == Content(x) + Content(y)
  {
    if x == [] {
      assert x + y == y;
    } else {
      assert (x + y)[1..] == x[1..] + y;
      ContentAppend(x[1..], y);
      var h := if x[0].Value? then x[0].bytes else [];
      assert h + (Content(x[1..]) + Content(y)) == (h + Content(x[1..])) + Content(y);
    }
  }

  lemma {:induction false} UnitsAppend(x: seq<Settled>, y: seq<Settled>)
    ensures Units(x + y) == Units(x) + Units(y)
  {
    if x == [] {
      assert x + y == y;
    } else {
      assert (x + y)[1..] == x[1..] + y;
      UnitsAppend(x[1..], y);
    }
  }
}
