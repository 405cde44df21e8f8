/** The stream layer of `duplexOverPort` over a windowed port: an honest sender of chunks is never refused. */
module PortStreams {
  import opened Basics
  import opened PortSide
  import opened PortWire
  import opened PortWorld
  import opened PortSendSteps
  import opened PortCloseSteps
  import opened PortReceiveSteps
  import opened PortRuns
  import opened PortTheorems

  // ----- what a receiver holds -----

  /** What a pipelined chunk counts while it is held: its bytes and a fixed overhead. */
  ghost predicate CostsCovered(k: Terms, cost: Payload -> nat) {
    forall p :: k.chunk(p) ==>
      cost(p) <= k.codec.estimate(p) && cost(p) <= |k.codec.encode(p)|
  }

  /** The receiver's `held`: chunks delivered and not yet pulled past. */
  function HeldChunks(k: Terms, cost: Payload -> nat, h: seq<Held>): nat {
    if h == [] then 0
    else (if k.chunk(h[0].payload) then cost(h[0].payload) else 0) + HeldChunks(k, cost, h[1..])
  }

  ghost predicate Covered(k: Terms, cost: Payload -> nat, h: seq<Held>) {
    forall i :: 0 <= i < |h| && k.chunk(h[i].payload) ==> cost(h[i].payload) <= h[i].size
  }

  lemma {:induction false} HeldIsUnconsumed(k: Terms, cost: Payload -> nat, h: seq<Held>)
    requires Covered(k, cost, h)
    ensures HeldChunks(k, cost, h) <= HeldSum(h)
  {
    if h != [] {
      assert forall i :: 0 <= i < |h[1..]| ==> h[1..][i] == h[i + 1];
      HeldIsUnconsumed(k, cost, h[1..]);
    }
  }

  /** What a framed message still arriving leaves of the window for what was held before it. */
  predicate RoomKept(s: Side) {
    s.partial.Some? ==>
      match s.partial.value.room
      case Some(r) => 0 <= r && s.unconsumed + s.toGrant <= s.window - r
      case None => s.unconsumed + s.toGrant == 0
  }

  ghost predicate HolderOk(k: Terms, cost: Payload -> nat, s: Side) {
    Covered(k, cost, s.unsettled) && (s.status == Live ==> RoomKept(s))
  }

  lemma SendKeepsHolding(k: Terms, cost: Payload -> nat, o: Options, s: Side, inbox: seq<Envelope>, act: Act)
    requires OptionsOk(o) && Enabled(k, o, s, inbox, act) && HolderOk(k, cost, s)
    requires act.Post? || act.Flush? || act.Pump? || act.EndDir? || act.CloseIt? || act.Reject? || act.Shutdown?
    ensures HolderOk(k, cost, Perform(k, o, s, inbox, act).side)
  {
    match act
    case Flush => FlushHolds(o, k.codec, s);
    case CloseIt => if s.status == Live { SendAllHolds(o, Spill(s), WholeItems(s.queue) + [Close]); }
    case _ =>
  }

  /** What sending leaves alone of what an end holds. */
  predicate SameHold(s: Side, t: Side) {
    && t.unsettled == s.unsettled && t.unconsumed == s.unconsumed && t.toGrant == s.toGrant && t.window == s.window
    && (t.status == Live ==> s.status == Live && t.partial == s.partial)
  }

  lemma {:induction false} SendAllHolds(o: Options, s: Side, es: seq<Envelope>)
    ensures SameHold(s, SendAllOnPort(o, s, es).side)
    decreases |es|
  {
    if es != [] {
      SendAllHolds(o, SendOnPort(o, s, es[0]).side, es[1..]);
    }
  }

  lemma FlushHolds(o: Options, c: Codec, s: Side)
    requires OptionsOk(o) && CanFlush(s)
    ensures SameHold(s, FlushOne(o, c, s).side)
  {
    var i := s.queue[0];
    var t := s.(queue := s.queue[1..], queued := if ItemSize(i) <= s.queued then s.queued - ItemSize(i) else 0,
                outstanding := s.outstanding + ItemSize(i));
    hide Leaving, SendAllOnPort;
    SendAllHolds(o, t, Leaving(o, c, t, i, false));
  }

  lemma ConsumeKeepsHolding(k: Terms, cost: Payload -> nat, s: Side, act: Act)
    requires HolderOk(k, cost, s) && s.unconsumed == HeldSum(s.unsettled)
    requires (act.Settle? && act.i < |s.unsettled|) || (act.Timer? && s.clock.timers > 0)
    ensures HolderOk(k, cost, if act.Settle? then SettleOne(s, act.i).side else FireTimer(s).side)
  {
    if act.Settle? {
      HeldRemove(s.unsettled, act.i);
      var u := s.unsettled[..act.i] + s.unsettled[act.i + 1..];
      GrantFacts(s.(unsettled := u), s.unsettled[act.i].size);
      hide HeldSum, Grant;
      assert Covered(k, cost, u) by {
        forall j | 0 <= j < |u| ensures u[j] == s.unsettled[if j < act.i then j else j + 1] {}
      }
    }
  }

  lemma DeliverKeepsHolding(k: Terms, cost: Payload -> nat, s: Side, p: Payload, n: nat)
    requires HolderOk(k, cost, s) && (k.chunk(p) ==> cost(p) <= n)
    ensures HolderOk(k, cost, Deliver(s, None, p, n))
  {
  }

  /** A frame that completes a message completes one that was encoded whole. */
  predicate WholeFrame(k: Terms, s: Side, e: Envelope)
    requires e.Frame?
  {
    var whole := Flatten(PartialOf(s).chunks + [e.data]);
    e.last ==> k.codec.decode(whole).Some? && k.codec.encode(k.codec.decode(whole).value) == whole
  }

  lemma RecvKeepsHolding(k: Terms, cost: Payload -> nat, o: Options, s: Side, e: Envelope, full: bool, others: nat)
    requires TermsOk(k) && CostsCovered(k, cost) && HolderOk(k, cost, s)
    requires e.Open? ==> s.status == NotYet
    requires e.Message? && s.status == Live ==> s.partial == None
    requires e.Frame? && s.status == Live ==> WholeFrame(k, s, e)
    ensures HolderOk(k, cost, Handle(o, k.codec, s, e, full, others).side)
  {
    match e
    case Message(p) => DeliverKeepsHolding(k, cost, s, p, Size(k.codec, s.deal.exact, p));
    case Frame(x, last) =>
      hide Charge;
      if s.status == Live {
        var whole := Flatten(PartialOf(s).chunks + [x]);
        if last && k.codec.decode(whole).Some? {
          DeliverKeepsHolding(k, cost, s, k.codec.decode(whole).value, |whole|);
        }
      }
    case _ =>
  }

  ghost predicate Holding(k: Terms, cost: Payload -> nat, w: World) {
    HolderOk(k, cost, w.a) && HolderOk(k, cost, w.b)
  }

  lemma NoCutMessage(k: Terms, w: World, isA: bool)
    requires TermsOk(k) && Inv(k, w) && InboxOf(w, isA) != [] && EndOf(w, isA).status == Live
    requires InboxOf(w, isA)[0].Message?
    ensures EndOf(w, isA).partial == None
  {
    LocalWire(k, k.oa, true, w.a);
    LocalWire(k, k.ob, false, w.b);
    hide Local, Half, Life, Ledger, Room, CodecOk, Handshake;
    if isA {
      MessageTransfer(k, FlowBA(w), 0);
    } else {
      MessageTransfer(k, FlowAB(k, w), 0);
    }
  }

  lemma HonestFrameWhole(k: Terms, w: World, isA: bool)
    requires TermsOk(k) && Inv(k, w) && InboxOf(w, isA) != [] && EndOf(w, isA).status == Live
    requires InboxOf(w, isA)[0].Frame?
    ensures WholeFrame(k, EndOf(w, isA), InboxOf(w, isA)[0])
  {
    LocalWire(k, k.oa, true, w.a);
    LocalWire(k, k.ob, false, w.b);
    hide Local, Half, Life, Ledger, Room, CodecOk, Handshake, Flatten;
    if isA { FrameTransfer(k, FlowBA(w)); } else { FrameTransfer(k, FlowAB(k, w)); }
    FrameBytes(EndOf(w, isA), InboxOf(w, isA)[0].data);
  }

  lemma StepKeepsHolding(k: Terms, cost: Payload -> nat, w: World, byA: bool, act: Act)
    requires TermsOk(k) && CostsCovered(k, cost) && Inv(k, w) && Can(k, w, byA, act) && Holding(k, cost, w)
    ensures Holding(k, cost, Step(k, w, byA, act))
  {
    var o, s, inbox := OptionsOf(k, byA), EndOf(w, byA), InboxOf(w, byA);
    EndSums(k, w, byA);
    if act.Recv? && inbox[0].Message? && s.status == Live { NoCutMessage(k, w, byA); }
    if act.Recv? && inbox[0].Frame? && s.status == Live { HonestFrameWhole(k, w, byA); }
    hide Inv, HolderOk, CodecOk, CostsCovered, WholeFrame;
    match act {
      case Settle(i) => ConsumeKeepsHolding(k, cost, s, act);
      case Timer => ConsumeKeepsHolding(k, cost, s, act);
      case Recv(full, others) => RecvKeepsHolding(k, cost, o, s, inbox[0], full, others);
      case _ => SendKeepsHolding(k, cost, o, s, inbox, act);
    }
  }

  lemma EndSums(k: Terms, w: World, byA: bool)
    requires Inv(k, w)
    ensures EndOf(w, byA).unconsumed == HeldSum(EndOf(w, byA).unsettled)
    ensures InboxOf(w, byA) != [] && InboxOf(w, byA)[0].Open? ==> EndOf(w, byA).status == NotYet
  {
    LocalFresh(k, w);
    LocalSums(k, if byA then k.oa else k.ob, byA, EndOf(w, byA));
    hide Local, Dir, HeldSum;
  }

  lemma {:induction false} RunKeepsHolding(k: Terms, cost: Payload -> nat, w: World, steps: seq<(bool, Act)>, w': World)
    requires TermsOk(k) && CostsCovered(k, cost) && Inv(k, w) && Holding(k, cost, w) && IsRun(k, w, steps, w')
    ensures Holding(k, cost, w')
    decreases |steps|
  {
    if steps != [] {
      StepKeeps(k, w, steps[0].0, steps[0].1);
      StepKeepsHolding(k, cost, w, steps[0].0, steps[0].1);
      hide Inv, Holding, Step, CodecOk, CostsCovered;
      RunKeepsHolding(k, cost, Step(k, w, steps[0].0, steps[0].1), steps[1..], w');
    }
  }

  lemma ReachableHolding(k: Terms, cost: Payload -> nat, w: World)
    requires TermsOk(k) && CostsCovered(k, cost) && Reachable(k, w)
    ensures Holding(k, cost, w)
  {
    var steps :| IsRun(k, Init(k), steps, w);
    InitInv(k);
    RunKeepsHolding(k, cost, Init(k), steps, w);
  }

  /** The payload the next envelope completes, if any. */
  function Arriving(k: Terms, s: Side, e: Envelope): Option<Payload> {
    match e
    case Message(p) => Some(p)
    case Frame(x, true) => k.codec.decode(BufOf(s) + x)
    case _ => None
  }

  /** A chunk arrives only while what is held of earlier ones is within the window. */
  lemma ChunkHasRoom(k: Terms, cost: Payload -> nat, w: World, isA: bool)
    requires TermsOk(k) && CostsCovered(k, cost) && Inv(k, w) && Holding(k, cost, w) && Agreed(k)
    requires EndOf(w, isA).status == Live && !EndOf(w, !isA).hist.spilled && InboxOf(w, isA) != []
    requires Arriving(k, EndOf(w, isA), InboxOf(w, isA)[0]).Some?
    requires k.chunk(Arriving(k, EndOf(w, isA), InboxOf(w, isA)[0]).value)
    ensures HeldChunks(k, cost, EndOf(w, isA).unsettled) <= k.window
  {
    var s, e := EndOf(w, isA), InboxOf(w, isA)[0];
    HeldIsUnconsumed(k, cost, s.unsettled);
    if isA { LocalSums(k, k.oa, true, s); LocalModes(k, k.oa, true, s); }
    else { LocalSums(k, k.ob, false, s); LocalModes(k, k.ob, false, s); }
    if e.Message? {
      NoCutMessage(k, w, isA);
      hide Local, Half, Life, Ledger, Transfer, CodecOk, Handshake, Holding, CostsCovered, HeldChunks, HeldSum;
      MessageRoom(k, if isA then FlowBA(w) else FlowAB(k, w));
    } else {
      hide Inv, CodecOk, CostsCovered, HeldChunks, HeldSum;
      FrameHasRoom(k, w, isA);
    }
  }

  /**
   When a pipelined chunk arrives, what the receiver still holds of earlier ones
   is within the window, whatever became of the sender meanwhile, unless its
   close sent a queue past the window.
   */
  lemma ChunkWithinWindow(k: Terms, cost: Payload -> nat, w: World, isA: bool)
    requires TermsOk(k) && CostsCovered(k, cost) && Reachable(k, w) && Agreed(k)
    requires EndOf(w, isA).status == Live && !EndOf(w, !isA).hist.spilled && InboxOf(w, isA) != []
    requires Arriving(k, EndOf(w, isA), InboxOf(w, isA)[0]).Some?
    requires k.chunk(Arriving(k, EndOf(w, isA), InboxOf(w, isA)[0]).value)
    ensures HeldChunks(k, cost, EndOf(w, isA).unsettled) <= k.window
  {
    ReachableInv(k, w);
    ReachableHolding(k, cost, w);
    hide Inv, Holding, CodecOk, CostsCovered, HeldChunks;
    ChunkHasRoom(k, cost, w, isA);
  }
}
