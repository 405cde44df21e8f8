/** A blocked port always has a step to wait for, and without new posts it comes to rest. */
module PortProgress {
  import opened Basics
  import opened PortSide
  import opened PortWire
  import opened PortWorld
  import opened PortSendSteps
  import opened PortCloseSteps
  import opened PortReceiveSteps
  import opened PortRuns
  import opened PortTheorems

  /** The steps that need no consumer: the code's own, the pipe's, the timers', and listeners settling. */
  predicate Automatic(act: Act) {
    act.Flush? || act.Pump? || act.Recv? || act.Settle? || act.Timer?
  }

  /** Nothing moves by itself any more. */
  ghost predicate AtRest(k: Terms, w: World) {
    forall byA, act :: Automatic(act) ==> !Can(k, w, byA, act)
  }

  /** What is left to do at one end. */
  predicate Busy(s: Side, inbox: seq<Envelope>) {
    CanFlush(s) || s.outgoing != [] || inbox != [] || s.unsettled != [] || s.clock.timers > 0
  }

  lemma BusyCan(k: Terms, o: Options, isA: bool, s: Side, inbox: seq<Envelope>)
    requires Local(k, o, isA, s) && Busy(s, inbox)
    ensures exists act :: Automatic(act) && Enabled(k, o, s, inbox, act)
  {
    var act :=
      if CanFlush(s) then Flush
      else if s.outgoing != [] then Pump
      else if inbox != [] then Recv(false, 0)
      else if s.unsettled != [] then Settle(0)
      else Timer;
    assert Automatic(act) && Enabled(k, o, s, inbox, act);
  }

  lemma AccountedSomewhere(k: Terms, f: Flow, o: Options, isA: bool)
    requires Transfer(k, f) && Local(k, o, isA, f.r) && f.r.status != Dead && Accounted(k, f) > 0
    ensures Coming(f) != [] || f.r.unsettled != [] || f.r.clock.timers > 0 || f.rs != []
  {
    if Coming(f) == [] {
      assert Feed(k.codec, BufOf(f.r), Coming(f)).buf == BufOf(f.r);
    }
  }

  /** Something is on its way whenever one end still waits for a closed one. */
  lemma ClosingSomewhere(k: Terms, fo: Flow, fi: Flow)
    requires Dir(k, fo) && Dir(k, fi) && fi == Flow(fo.r, fo.s, fo.rs, fo.sr, fi.tight)
    requires fo.s.status == Live && fo.r.status == Dead && fo.s.queue != []
    ensures Coming(fi) != []
  {
    hide Transfer, Ledger, Room, Data;
  }

  lemma ComingIsSomewhere(f: Flow)
    requires Coming(f) != []
    ensures f.sr != [] || f.s.outgoing != []
  {
  }

  /** A blocked queue is waiting for a step that can happen. */
  lemma NoStallAt(k: Terms, isA: bool, fo: Flow, fi: Flow)
    requires TermsOk(k) && View(k, isA, fo, fi) && Local(k, OptionsOf(k, !isA), !isA, fo.r)
    requires fo.s.status == Live && fo.s.queue != []
    ensures Busy(fo.s, fi.sr) || Busy(fo.r, fo.sr)
  {
    if !CanFlush(fo.s) {
      if fo.r.status == Dead {
        ClosingSomewhere(k, fo, fi);
        ComingIsSomewhere(fi);
      } else {
        assert fo.s.outstanding > 0 && fo.s.deal.enforced;
        assert Accounted(k, fo) > 0;
        hide Accounted, Data, CodecOk;
        AccountedSomewhere(k, fo, OptionsOf(k, !isA), !isA);
        if Coming(fo) != [] { ComingIsSomewhere(fo); }
      }
    }
  }

  /**
   No stall: while a live end has something queued, some step of the code, the
   pipe, a timer or a listener is enabled at one of the ends.
   */
  lemma NoStall(k: Terms, w: World, isA: bool)
    requires TermsOk(k) && Reachable(k, w) && EndOf(w, isA).status == Live && EndOf(w, isA).queue != []
    ensures !AtRest(k, w)
  {
    ReachableInv(k, w);
    ViewOf(k, w, isA);
    LocalsOf(k, w);
    hide Inv, CodecOk, Local, Dir, Busy;
    if isA {
      NoStallAt(k, true, FlowAB(k, w), FlowBA(w));
    } else {
      NoStallAt(k, false, FlowBA(w), FlowAB(k, w));
    }
    BusyMoves(k, w);
  }

  lemma LocalsOf(k: Terms, w: World)
    requires Inv(k, w)
    ensures Local(k, k.oa, true, w.a) && Local(k, k.ob, false, w.b)
  {
  }

  lemma BusyMoves(k: Terms, w: World)
    requires Local(k, k.oa, true, w.a) && Local(k, k.ob, false, w.b)
    ensures Busy(w.a, w.ba) || Busy(w.b, w.ab) <==> !AtRest(k, w)
  {
    if Busy(w.a, w.ba) {
      BusyCan(k, k.oa, true, w.a, w.ba);
      var act :| Automatic(act) && Enabled(k, k.oa, w.a, w.ba, act);
      assert Can(k, w, true, act);
    }
    if Busy(w.b, w.ab) {
      BusyCan(k, k.ob, false, w.b, w.ab);
      var act :| Automatic(act) && Enabled(k, k.ob, w.b, w.ab, act);
      assert Can(k, w, false, act);
    }
  }

  // ----- rest -----

  /** At rest, an open port has sent, delivered and credited everything. */
  lemma RestIsDone(k: Terms, w: World)
    requires TermsOk(k) && Reachable(k, w) && AtRest(k, w) && w.a.status == Live && w.b.status == Live
    ensures w.a.queue == [] && w.b.queue == []
    ensures w.a.deal.enforced && w.a.outstanding == 0 && w.b.outstanding == 0
    ensures w.b.hist.delivered == w.a.hist.posted && w.a.hist.delivered == w.b.hist.posted
    ensures w.a.unconsumed == 0 && w.b.unconsumed == 0
  {
    ReachableInv(k, w);
    LocalsOf(k, w);
    BusyMoves(k, w);
    if w.a.queue != [] { NoStall(k, w, true); }
    if w.b.queue != [] { NoStall(k, w, false); }
    NothingElseIsMissing(k, w);
    CreditConserved(k, w);
    RestFlow(k, FlowAB(k, w), k.ob, false);
    RestFlow(k, FlowBA(w), k.oa, true);
  }

  lemma RestFlow(k: Terms, f: Flow, o: Options, isA: bool)
    requires Transfer(k, f) && Local(k, o, isA, f.r) && f.r.status == Live
    requires f.sr == [] && f.s.outgoing == [] && f.rs == [] && f.r.unsettled == [] && f.r.clock.timers == 0
    ensures Accounted(k, f) == 0 && Coming(f) == [] && Feed(k.codec, BufOf(f.r), Coming(f)).msgs == []
    ensures f.r.unconsumed == 0
  {
    assert Coming(f) == [];
    if Accounted(k, f) > 0 { AccountedSomewhere(k, f, o, isA); }
  }

  // ----- every automatic step is progress -----

  /** A weight for each thing still to happen. */
  function WireWeight(e: Envelope): nat {
    match e case Credit(_, _, _) => 1 case Open(_, _, _) => 6 case _ => 5
  }

  function PipeWeight(es: seq<Envelope>): nat {
    if es == [] then 0 else WireWeight(es[0]) + PipeWeight(es[1..])
  }

  function ItemWeight(i: Item): nat {
    6 * Max(1, ItemSize(i)) + 1
  }

  function QueueWeight(q: seq<Item>): nat {
    if q == [] then 0 else ItemWeight(q[0]) + QueueWeight(q[1..])
  }

  function StatusWeight(s: Status): nat {
    match s case NotYet => 3 case Live => 1 case Dead => 0
  }

  function EndWeight(s: Side): nat {
    QueueWeight(s.queue) + 6 * |s.outgoing| + 4 * |s.unsettled| + 2 * s.clock.timers
    + StatusWeight(s.status) + (if s.deal.opener && !s.deal.enforced then 1 else 0)
  }

  function Work(w: World): nat {
    EndWeight(w.a) + EndWeight(w.b) + PipeWeight(w.ab) + PipeWeight(w.ba)
  }

  lemma {:induction false} PipeWeightAppend(x: seq<Envelope>, y: seq<Envelope>)
    ensures PipeWeight(x + y) == PipeWeight(x) + PipeWeight(y)
  {
    if x == [] {
      assert x + y == y;
    } else {
      assert (x + y)[1..] == x[1..] + y;
      PipeWeightAppend(x[1..], y);
    }
  }

  lemma {:induction false} PieceCount(bytes: Bytes, frameSize: nat)
    requires frameSize >= 1 && |bytes| >= 1
    ensures 1 <= |Pieces(bytes, frameSize)| <= |bytes|
    decreases |bytes|
  {
    if |bytes| > frameSize {
      PieceCount(bytes[frameSize..], frameSize);
    }
  }

  lemma PumpWeighs(s: Side)
    requires s.outgoing != [] && !s.outgoing[0].Open?
    ensures var e := PumpOne(s); EndWeight(e.side) + PipeWeight(e.out) < EndWeight(s)
  {
    var e := PumpOne(s);
    assert e.out != [] ==> e.out[1..] == [];
  }

  lemma FlushWeighs(k: Terms, o: Options, isA: bool, s: Side)
    requires TermsOk(k) && OptionsOk(o) && Local(k, o, isA, s) && CanFlush(s)
    ensures var e := FlushOne(o, k.codec, s); EndWeight(e.side) + PipeWeight(e.out) < EndWeight(s)
  {
    QueuedWeighs(k, o, isA, s);
    LeavingPlain(k, o, isA, s);
    LocalWire(k, o, isA, s);
    FlushIsQueued(o, k.codec, s);
    LeavingFacts(k, o, isA, s);
    QueuedLocal(k, o, isA, s);
    var q := Queued(o, k.codec, s);
    if o.frameSize.None? {
      assert q.outgoing[0] in q.outgoing;
      LocalWire(k, o.(frameSize := Some(1)), isA, q);
      hide Local, CodecOk, Queued, FlushOne, PumpOne, EndWeight, Leaving;
      PumpWeighs(q);
    }
  }

  lemma QueuedWeighs(k: Terms, o: Options, isA: bool, s: Side)
    requires TermsOk(k) && OptionsOk(o) && Local(k, o, isA, s) && CanFlush(s)
    ensures EndWeight(Queued(o, k.codec, s)) < EndWeight(s)
  {
    var i := s.queue[0];
    if i.Send? && Leaving(o, k.codec, s, i, false) != [Message(i.payload)] {
      assert i.bytes == Size(k.codec, s.deal.exact, i.payload);
      PieceCount(k.codec.encode(i.payload), o.frameSize.value);
    }
  }

  lemma SettleWeighs(s: Side, i: nat)
    requires i < |s.unsettled|
    ensures var e := SettleOne(s, i); EndWeight(e.side) + PipeWeight(e.out) < EndWeight(s)
  {
    var e := SettleOne(s, i);
    assert e.out != [] ==> e.out[1..] == [];
    hide QueueWeight;
  }

  lemma TimerWeighs(s: Side)
    requires s.clock.timers > 0
    ensures var e := FireTimer(s); EndWeight(e.side) + PipeWeight(e.out) < EndWeight(s)
  {
    var e := FireTimer(s);
    assert e.out != [] ==> e.out[1..] == [];
    hide QueueWeight;
  }

  lemma HandleWeighs(o: Options, c: Codec, s: Side, e: Envelope, full: bool, others: nat)
    requires e.Open? ==> s == Fresh(NotYet, 0, false, false, {})
    requires s.status == Dead ==> s.queue == []
    ensures var h := Handle(o, c, s, e, full, others);
            EndWeight(h.side) + PipeWeight(h.out) < EndWeight(s) + WireWeight(e)
  {
    var h := Handle(o, c, s, e, full, others);
    hide PartialOf, PastRoom, Charge, Size, Flatten;
    assert h.out != [] ==> h.out[1..] == [];
  }

  /** Every automatic step leaves less to do. */
  lemma AutomaticProgress(k: Terms, w: World, byA: bool, act: Act)
    requires TermsOk(k) && Inv(k, w) && Can(k, w, byA, act) && Automatic(act)
    ensures Work(Step(k, w, byA, act)) < Work(w)
  {
    var o, s, inbox := OptionsOf(k, byA), EndOf(w, byA), InboxOf(w, byA);
    LocalsOf(k, w);
    LocalFresh(k, w);
    EndWeighs(k, o, byA, s, inbox, act);
    var e := Perform(k, o, s, inbox, act);
    PipeWeightAppend(if byA then w.ab else w.ba, e.out);
    hide Local, Inv, CodecOk, Perform, EndWeight, Handshake;
  }

  lemma EndWeighs(k: Terms, o: Options, isA: bool, s: Side, inbox: seq<Envelope>, act: Act)
    requires TermsOk(k) && OptionsOk(o) && Local(k, o, isA, s) && Enabled(k, o, s, inbox, act) && Automatic(act)
    requires inbox != [] ==> Hears(k, isA, s, inbox)
    ensures var e := Perform(k, o, s, inbox, act);
            EndWeight(e.side) + PipeWeight(e.out) + PipeWeight(Remaining(inbox, act)) < EndWeight(s) + PipeWeight(inbox)
  {
    LocalDead(k, o, isA, s);
    match act
    case Flush => FlushWeighs(k, o, isA, s);
    case Pump =>
      LocalWire(k, o, isA, s);
      assert s.outgoing[0] in s.outgoing;
      PumpWeighs(s);
    case Recv(full, others) => HandleWeighs(o, k.codec, s, inbox[0], full, others);
    case Settle(i) => SettleWeighs(s, i);
    case Timer => TimerWeighs(s);
  }

  lemma LocalDead(k: Terms, o: Options, isA: bool, s: Side)
    requires Local(k, o, isA, s)
    ensures s.status == Dead ==> s.queue == []
    ensures s.status == NotYet ==> s == Fresh(NotYet, 0, false, false, {})
  {
  }

  /** With no new posts, a port comes to rest: only so many automatic steps can follow. */
  lemma {:induction false} ComesToRest(k: Terms, w: World, steps: seq<(bool, Act)>, w': World)
    requires TermsOk(k) && Inv(k, w) && IsRun(k, w, steps, w')
    requires forall i :: 0 <= i < |steps| ==> Automatic(steps[i].1)
    ensures |steps| + Work(w') <= Work(w)
    decreases |steps|
  {
    if steps != [] {
      AutomaticProgress(k, w, steps[0].0, steps[0].1);
      StepKeeps(k, w, steps[0].0, steps[0].1);
      assert forall i :: 0 <= i < |steps[1..]| ==> steps[1..][i] == steps[i + 1];
      hide Work, Inv, Step, CodecOk;
      ComesToRest(k, Step(k, w, steps[0].0, steps[0].1), steps[1..], w');
    }
  }
}
