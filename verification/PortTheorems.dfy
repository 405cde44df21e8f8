/** What the invariant means for the users of a windowed port. */
module PortTheorems {
  import opened Basics
  import opened PortSide
  import opened PortWire
  import opened PortWorld
  import opened PortSendSteps
  import opened PortCloseSteps
  import opened PortReceiveSteps
  import opened PortRuns

  /**
   Whatever windows, frames, fair framing and half-close do, what either end has
   delivered is, in order and intact, the beginning of what the other posted.
   */
  lemma DeliveredIsPrefix(k: Terms, w: World)
    requires TermsOk(k) && Reachable(k, w)
    ensures w.b.hist.delivered <= w.a.hist.posted
    ensures w.a.hist.delivered <= w.b.hist.posted
  {
    ReachableInv(k, w);
    hide Data, Feed, Local, Half, Life, Ledger, Room;
  }

  /** While nothing was thrown away, what is missing is exactly what is on its way or waits. */
  lemma NothingElseIsMissing(k: Terms, w: World)
    requires TermsOk(k) && Reachable(k, w)
    ensures w.b.status != Dead && !w.a.hist.dropped ==>
              w.b.hist.delivered + Feed(k.codec, BufOf(w.b), Coming(FlowAB(k, w))).msgs + Payloads(w.a.queue) == w.a.hist.posted
    ensures w.a.status != Dead && !w.b.hist.dropped ==>
              w.a.hist.delivered + Feed(k.codec, BufOf(w.a), Coming(FlowBA(w))).msgs + Payloads(w.b.queue) == w.b.hist.posted
    ensures w.a.status == Live ==> !w.a.hist.dropped
    ensures w.b.status == Live ==> !w.b.hist.dropped
  {
    ReachableInv(k, w);
    hide Data, Feed, Local, Half, Ledger, Room;
  }

  /**
   Every byte an end counts as outstanding is on its way, held by the peer,
   owed back or credited; no more is counted even after a sizing downgrade.
   */
  lemma CreditConserved(k: Terms, w: World)
    requires TermsOk(k) && Reachable(k, w) && w.a.status == Live && w.b.status == Live
    ensures Agreed(k) ==> w.a.outstanding == Accounted(k, FlowAB(k, w))
    ensures w.a.deal.enforced ==> w.a.outstanding <= Accounted(k, FlowAB(k, w))
    ensures w.b.outstanding == Accounted(k, FlowBA(w))
  {
    ReachableInv(k, w);
    hide Data, Feed, Local, Half, Transfer, Life, Room, Accounted;
  }

  /** The clamp at zero never bites: a credit is never more than what is outstanding. */
  lemma CreditIsOutstanding(k: Terms, w: World)
    requires TermsOk(k) && Reachable(k, w) && w.a.status == Live && w.b.status == Live
    ensures w.ab != [] && w.ab[0].Credit? ==> w.ab[0].bytes <= w.b.outstanding
    ensures Agreed(k) && w.ba != [] && w.ba[0].Credit? ==> w.ba[0].bytes <= w.a.outstanding
  {
    ReachableInv(k, w);
    if w.ab != [] && w.ab[0].Credit? { CreditFacts(FlowBA(w)); }
    if w.ba != [] && w.ba[0].Credit? { CreditFacts(FlowAB(k, w)); }
    hide Data, Feed, Local, Half, Transfer, Life, Room, Credits;
  }

  /** What an end holds of its peer's, or owes back, is at most what the peer counts. */
  lemma OwedIsOutstanding(k: Terms, w: World)
    requires TermsOk(k) && Reachable(k, w) && w.a.status == Live && w.b.status == Live
    ensures w.a.unconsumed + w.a.toGrant <= w.b.outstanding
    ensures Agreed(k) ==> w.b.unconsumed + w.b.toGrant <= w.a.outstanding
  {
    CreditConserved(k, w);
  }

  // ----- the window -----

  predicate Within(s: Side, bound: nat) {
    s.deal.enforced && s.outstanding <= bound && forall i :: 0 <= i < |s.queue| ==> ItemSize(s.queue[i]) <= bound
  }

  /**
   Once the window holds an end's sends, what it counts as outstanding stays
   within the window, or the largest message (or what it had sent before).
   */
  lemma WindowHolds(k: Terms, o: Options, s: Side, inbox: seq<Envelope>, act: Act, bound: nat)
    requires TermsOk(k) && OptionsOk(o) && Enabled(k, o, s, inbox, act) && s.status != NotYet
    requires Within(s, bound) && s.window <= bound && (act.Recv? ==> !inbox[0].Open?)
    requires act.Post? ==> Size(k.codec, s.deal.exact, act.payload) <= bound
    ensures Within(Perform(k, o, s, inbox, act).side, bound)
  {
    hide CodecOk, PostPayload, Handle, FlushOne, CloseSide;
    match act
    case Post(p) => PostWithin(k.codec, s, p, bound);
    case Recv(full, others) => HeardWithin(o, k.codec, s, inbox[0], full, others, bound);
    case Flush => SendingOnly(o, k.codec, s);
    case CloseIt => ClosedWithin(o, s, bound);
    case _ =>
  }

  lemma HeardWithin(o: Options, c: Codec, s: Side, e: Envelope, full: bool, others: nat, bound: nat)
    requires Within(s, bound) && !e.Open?
    ensures Within(Handle(o, c, s, e, full, others).side, bound)
  {
    hide PartialOf, PastRoom, Charge;
  }

  lemma ClosedWithin(o: Options, s: Side, bound: nat)
    requires OptionsOk(o) && Within(s, bound)
    ensures Within(CloseSide(o, s).side, bound)
  {
    if s.status == Live { SendAllOutstanding(o, Spill(s), WholeItems(s.queue) + [Close]); }
    hide SendAllOnPort, WholeItems;
  }

  lemma PostWithin(c: Codec, s: Side, p: Payload, bound: nat)
    requires Within(s, bound) && s.window <= bound && Size(c, s.deal.exact, p) <= bound
    ensures Within(PostPayload(c, s, p).side, bound)
  {
    var t := PostPayload(c, s, p).side;
    forall i | 0 <= i < |t.queue| ensures ItemSize(t.queue[i]) <= bound {
      if i < |s.queue| { assert t.queue[i] == s.queue[i]; }
    }
  }

  function EndOf(w: World, ofA: bool): Side {
    if ofA then w.a else w.b
  }

  lemma WindowHoldsStep(k: Terms, w: World, byA: bool, act: Act, ofA: bool, bound: nat)
    requires TermsOk(k) && Can(k, w, byA, act) && Inv(k, w)
    requires EndOf(w, ofA).status != NotYet && Within(EndOf(w, ofA), bound) && k.window <= bound
    requires byA == ofA && act.Post? ==> Size(k.codec, EndOf(w, ofA).deal.exact, act.payload) <= bound
    ensures Within(EndOf(Step(k, w, byA, act), ofA), bound)
  {
    hide Inv, Within, CodecOk, Perform;
    if byA == ofA {
      EndFacts(k, w, ofA);
      var o, inbox := OptionsOf(k, ofA), if ofA then w.ba else w.ab;
      if EndOf(w, ofA).status == Live {
        WindowHolds(k, o, EndOf(w, ofA), inbox, act, bound);
      } else {
        DeadWithin(k, o, EndOf(w, ofA), inbox, act, bound);
      }
    }
  }

  /** ... over any run in which it posts nothing larger, whatever the other end does. */
  lemma {:induction false} WindowHoldsOverRuns(k: Terms, w: World, steps: seq<(bool, Act)>, w': World, ofA: bool, bound: nat)
    requires TermsOk(k) && Inv(k, w) && IsRun(k, w, steps, w')
    requires EndOf(w, ofA).status != NotYet && Within(EndOf(w, ofA), bound) && k.window <= bound
    requires forall i :: 0 <= i < |steps| && steps[i].0 == ofA && steps[i].1.Post? ==>
               forall exact :: Size(k.codec, exact, steps[i].1.payload) <= bound
    ensures Within(EndOf(w', ofA), bound)
    decreases |steps|
  {
    if steps != [] {
      var (byA, act) := steps[0];
      hide Inv, Step, Within, CodecOk, Can;
      StepKeeps(k, w, byA, act);
      WindowHoldsStep(k, w, byA, act, ofA, bound);
      StatusKept(k, w, byA, act, ofA);
      assert forall i :: 0 <= i < |steps[1..]| ==> steps[1..][i] == steps[i + 1];
      WindowHoldsOverRuns(k, Step(k, w, byA, act), steps[1..], w', ofA, bound);
    }
  }

  lemma EndFacts(k: Terms, w: World, ofA: bool)
    requires TermsOk(k) && Inv(k, w) && EndOf(w, ofA).status != NotYet
    ensures EndOf(w, ofA).status == Live ==> EndOf(w, ofA).window == k.window
    ensures NoOpen(if ofA then w.ba else w.ab)
  {
  }

  lemma StatusKept(k: Terms, w: World, byA: bool, act: Act, ofA: bool)
    requires TermsOk(k) && Inv(k, w) && Can(k, w, byA, act) && EndOf(w, ofA).status != NotYet
    ensures EndOf(Step(k, w, byA, act), ofA).status != NotYet
  {
    if byA == ofA {
      LocalWire(k, k.oa, true, w.a);
      LocalWire(k, k.ob, false, w.b);
      hide Local, Dir, Handshake, CodecOk;
      if byA {
        ActDeal(k, true, FlowAB(k, w), FlowBA(w), act);
      } else {
        ActDeal(k, false, FlowBA(w), FlowAB(k, w), act);
      }
    }
  }

  lemma DeadWithin(k: Terms, o: Options, s: Side, inbox: seq<Envelope>, act: Act, bound: nat)
    requires OptionsOk(o) && Enabled(k, o, s, inbox, act) && s.status == Dead
    requires Within(s, bound) && (act.Recv? ==> !inbox[0].Open?)
    ensures Within(Perform(k, o, s, inbox, act).side, bound)
  {
  }

  lemma {:induction false} SendAllOutstanding(o: Options, s: Side, es: seq<Envelope>)
    ensures var t := SendAllOnPort(o, s, es).side;
            t.outstanding == s.outstanding && t.deal == s.deal && (t.queue == s.queue || t.queue == [])
    decreases |es|
  {
    if es != [] {
      SendAllOutstanding(o, SendOnPort(o, s, es[0]).side, es[1..]);
    }
  }

  lemma SendingOnly(o: Options, c: Codec, s: Side)
    requires OptionsOk(o) && CanFlush(s)
    ensures var t := FlushOne(o, c, s).side;
            && t.outstanding == s.outstanding + ItemSize(s.queue[0]) && t.deal == s.deal
            && (t.queue == s.queue[1..] || t.queue == [])
  {
    var i := s.queue[0];
    var t := s.(queue := s.queue[1..], queued := if ItemSize(i) <= s.queued then s.queued - ItemSize(i) else 0,
                outstanding := s.outstanding + ItemSize(i));
    hide Leaving, SendAllOnPort;
    SendAllOutstanding(o, t, Leaving(o, c, t, i, false));
  }

  // ----- an honest peer is never refused -----

  /** The pair as one end sees it. */
  lemma ViewOf(k: Terms, w: World, isA: bool)
    requires TermsOk(k) && Inv(k, w)
    ensures isA ==> View(k, true, FlowAB(k, w), FlowBA(w))
    ensures !isA ==> View(k, false, FlowBA(w), FlowAB(k, w))
    ensures isA && w.ba != [] ==> Hears(k, true, w.a, w.ba)
    ensures !isA && w.ab != [] ==> Hears(k, false, w.b, w.ab)
  {
    LocalWire(k, k.oa, true, w.a);
    LocalWire(k, k.ob, false, w.b);
    LocalFresh(k, w);
    hide Dir, Local, Hears;
  }

  function InboxOf(w: World, isA: bool): seq<Envelope> {
    if isA then w.ba else w.ab
  }

  /** The test against what the window left never fails an honest peer's frame. */
  lemma FrameHasRoom(k: Terms, w: World, isA: bool)
    requires TermsOk(k) && Inv(k, w) && EndOf(w, isA).status == Live
    requires InboxOf(w, isA) != [] && InboxOf(w, isA)[0].Frame?
    ensures var s := EndOf(w, isA);
            && !PastRoom(PartialOf(s), |InboxOf(w, isA)[0].data|)
            && !s.half.peerEnded && s.window > 0 && s.deal.exact && OptionsOf(k, isA).exactCodec
  {
    ViewOf(k, w, isA);
    var fo, fi := if isA then FlowAB(k, w) else FlowBA(w), if isA then FlowBA(w) else FlowAB(k, w);
    hide Inv, View, Hears, PastRoom, PartialOf, CodecOk;
    FrameAct(k, isA, fo, fi);
  }

  /**
   A framed message of a peer that keeps the window is refused only by the cap
   all ports share.
   */
  lemma HonestFrameAccepted(k: Terms, w: World, isA: bool, full: bool, others: nat)
    requires TermsOk(k) && Reachable(k, w) && EndOf(w, isA).status == Live
    requires InboxOf(w, isA) != [] && InboxOf(w, isA)[0].Frame?
    ensures var s, e, o := EndOf(w, isA), InboxOf(w, isA)[0], OptionsOf(k, isA);
            && !PastRoom(PartialOf(s), |e.data|)
            && (Handle(o, k.codec, s, e, full, others) == Fail(s)
                <==> others + Charge(s, PartialOf(s), |e.data|) > o.maxReassembled)
  {
    ReachableInv(k, w);
    FrameHasRoom(k, w, isA);
    hide Inv, View, Hears, PastRoom, PartialOf, CodecOk;
    FrameOutcome(OptionsOf(k, isA), k.codec, EndOf(w, isA), InboxOf(w, isA)[0], others);
  }

  /** Nothing else an honest peer sends is taken for a breach of the protocol. */
  lemma HonestTrafficAccepted(k: Terms, w: World, isA: bool, full: bool, others: nat)
    requires TermsOk(k) && Reachable(k, w) && EndOf(w, isA).status == Live && InboxOf(w, isA) != []
    requires InboxOf(w, isA)[0].Message? || InboxOf(w, isA)[0].End?
    ensures var s, e, o := EndOf(w, isA), InboxOf(w, isA)[0], OptionsOf(k, isA);
            var h := Handle(o, k.codec, s, e, full, others);
            h.out == [] && !h.side.hist.dropped
            && (e.Message? ==> h.side.hist.delivered == s.hist.delivered + [e.payload])
            && (e.End? ==> h.side.half.peerEnded)
  {
    ReachableInv(k, w);
    NothingElseIsMissing(k, w);
    ViewOf(k, w, isA);
    var fo, fi := if isA then FlowAB(k, w) else FlowBA(w), if isA then FlowBA(w) else FlowAB(k, w);
    hide Inv, View, Hears, CodecOk, Local, Dir;
    if fi.sr[0].Message? {
      MessageAct(k, isA, fo, fi);
    } else {
      EndAct(k, isA, fo, fi);
    }
  }

  // ----- half-close -----

  /** Where both ends rely on capabilities, they rely on the same ones: those both speak. */
  lemma CapsAgree(k: Terms, w: World)
    requires TermsOk(k) && Reachable(k, w)
    ensures w.a.deal.enforced ==> w.a.deal.caps == k.oa.caps * k.ob.caps
    ensures !w.a.deal.enforced ==> w.a.deal.caps == {}
    ensures w.b.status == Live ==> w.b.deal.caps == k.oa.caps * k.ob.caps && w.b.deal.exact == Mode(k)
  {
    ReachableInv(k, w);
    hide Dir, CodecOk;
  }

  /** An end leaves behind everything posted, and only a close may follow it. */
  lemma EndIsLast(k: Terms, w: World)
    requires TermsOk(k) && Reachable(k, w)
    ensures Ordered(Coming(FlowAB(k, w))) && Ordered(Coming(FlowBA(w)))
    ensures w.a.half.endSent ==> w.a.queue == [] && Quiet(w.a.outgoing)
    ensures w.b.half.endSent ==> w.b.queue == [] && Quiet(w.b.outgoing)
  {
    ReachableInv(k, w);
    hide Data, Local, Transfer, Life, Ledger, Room, Ordered;
  }

  /** When an end reads the peer's `end`, every payload the peer posted has been delivered. */
  lemma EndMeansAllDelivered(k: Terms, w: World)
    requires TermsOk(k) && Reachable(k, w)
    ensures w.b.half.peerEnded ==> w.b.hist.delivered == w.a.hist.posted && w.a.half.endSent
    ensures w.a.half.peerEnded ==> w.a.hist.delivered == w.b.hist.posted && w.b.half.endSent
  {
    ReachableInv(k, w);
    hide Data, Local, Feed, Life, Ledger, Room, Ordered;
  }

  /** Once both directions ended at both ends, both tables have dropped the port and nothing was lost. */
  lemma BothEnded(k: Terms, w: World)
    requires TermsOk(k) && Reachable(k, w)
    ensures w.a.half.endSent && w.a.half.peerEnded ==> w.a.status == Dead
    ensures w.b.half.endSent && w.b.half.peerEnded ==> w.b.status == Dead
    ensures w.a.half.peerEnded && w.b.half.peerEnded ==>
              && w.a.status == w.b.status == Dead
              && w.b.hist.delivered == w.a.hist.posted && w.a.hist.delivered == w.b.hist.posted
  {
    EndMeansAllDelivered(k, w);
    ReachableInv(k, w);
    hide Data, Feed, Transfer, Ledger, Room, Ordered, CodecOk;
  }

  /** A port closed meanwhile was abandoned, not ended: it puts no `end` on the pipe. */
  lemma ClosedNeverEnds(k: Terms, o: Options, s: Side, inbox: seq<Envelope>, act: Act)
    requires OptionsOk(o) && Enabled(k, o, s, inbox, act) && s.status == Dead
    ensures End !in Perform(k, o, s, inbox, act).out
  {
    hide PartialOf, PastRoom, Charge;
  }

  // ----- sending past the window -----

  /** An end whose close sent a queue past the window is closed, and never ended its direction. */
  predicate SpillOk(s: Side) {
    s.hist.spilled ==> s.status == Dead && !s.half.endSent
  }

  lemma {:induction false} SendAllSpills(o: Options, s: Side, es: seq<Envelope>)
    ensures var t := SendAllOnPort(o, s, es).side;
            && t.hist.spilled == s.hist.spilled
            && (s.status == Dead ==> t.status == Dead && t.half.endSent == s.half.endSent)
    decreases |es|
  {
    if es != [] {
      SendAllSpills(o, SendOnPort(o, s, es[0]).side, es[1..]);
    }
  }

  lemma FlushSpills(o: Options, c: Codec, s: Side)
    requires OptionsOk(o) && CanFlush(s)
    ensures FlushOne(o, c, s).side.hist.spilled == s.hist.spilled
  {
    var i := s.queue[0];
    var t := s.(queue := s.queue[1..], queued := if ItemSize(i) <= s.queued then s.queued - ItemSize(i) else 0,
                outstanding := s.outstanding + ItemSize(i));
    hide Leaving, SendAllOnPort;
    SendAllSpills(o, t, Leaving(o, c, t, i, false));
  }

  /** Only a close with something queued sends past the window. */
  lemma OnlyClosingSpills(k: Terms, o: Options, s: Side, inbox: seq<Envelope>, act: Act)
    requires OptionsOk(o) && Enabled(k, o, s, inbox, act)
    requires act.Recv? && inbox[0].Open? ==> s.status != Dead
    ensures Perform(k, o, s, inbox, act).side.hist.spilled <==>
              s.hist.spilled || (act.CloseIt? && s.status == Live && s.queue != [])
  {
    hide PartialOf, PastRoom, Charge;
    match act
    case Flush => FlushSpills(o, k.codec, s);
    case CloseIt => if s.status == Live { SendAllSpills(o, Spill(s), WholeItems(s.queue) + [Close]); }
    case _ =>
  }

  lemma StepSpillOk(k: Terms, o: Options, s: Side, inbox: seq<Envelope>, act: Act)
    requires OptionsOk(o) && Enabled(k, o, s, inbox, act) && SpillOk(s)
    requires (s.half.endSent ==> s.queue == []) && (act.Recv? && inbox[0].Open? ==> s.status != Dead)
    ensures SpillOk(Perform(k, o, s, inbox, act).side)
  {
    hide PartialOf, PastRoom, Charge;
    match act
    case Flush => FlushSpills(o, k.codec, s);
    case CloseIt => if s.status == Live { SendAllSpills(o, Spill(s), WholeItems(s.queue) + [Close]); }
    case _ =>
  }

  /** Of each end, whatever either does. */
  lemma SpillKept(k: Terms, w: World, byA: bool, act: Act)
    requires TermsOk(k) && Inv(k, w) && Can(k, w, byA, act) && SpillOk(w.a) && SpillOk(w.b)
    ensures SpillOk(Step(k, w, byA, act).a) && SpillOk(Step(k, w, byA, act).b)
  {
    SpillFacts(k, w);
    hide Inv, SpillOk, CodecOk, Perform;
    if byA { StepSpillOk(k, k.oa, w.a, w.ba, act); } else { StepSpillOk(k, k.ob, w.b, w.ab, act); }
  }

  lemma SpillFacts(k: Terms, w: World)
    requires Inv(k, w)
    ensures (w.a.half.endSent ==> w.a.queue == []) && (w.b.half.endSent ==> w.b.queue == [])
    ensures (w.ba != [] && w.ba[0].Open? ==> w.a.status != Dead) && (w.ab != [] && w.ab[0].Open? ==> w.b.status != Dead)
  {
    hide Local, Transfer, Life, Ledger, Room, Ordered, Quiet, Data;
  }
}
