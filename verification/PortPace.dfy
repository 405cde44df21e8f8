/** How fast a port moves: what the window lets go, how soon credit returns, how large a frame may be. */
module PortPace {
  import opened Basics
  import opened PortSide
  import opened PortWire
  import opened PortWorld
  import opened PortSendSteps
  import opened PortCloseSteps
  import opened PortReceiveSteps
  import opened PortRuns
  import opened PortTheorems
  import opened PortProgress
  import opened PortEnds

  // ----- the window lets go -----

  /**
   Whenever an end does anything but flush, its queue is empty or its head is a
   payload that would take what is outstanding past the window; and a payload is
   let go only where it fits, or nothing is outstanding.
   */
  lemma WaitsOnlyWhenFull(k: Terms, w: World, ofA: bool, act: Act)
    requires TermsOk(k) && Reachable(k, w) && Can(k, w, ofA, act) && EndOf(w, ofA).status == Live && EndOf(w, ofA).queue != []
    ensures var s := EndOf(w, ofA);
            var i := s.queue[0];
            act.Flush? <==> i.EndItem? || !s.deal.enforced || s.outstanding == 0 || s.outstanding + i.bytes <= k.window
  {
    ReachableInv(k, w);
    HeadIsSized(k, w, ofA);
    hide Inv, CodecOk;
  }

  lemma HeadIsSized(k: Terms, w: World, ofA: bool)
    requires TermsOk(k) && Inv(k, w) && EndOf(w, ofA).status == Live && EndOf(w, ofA).queue != []
    ensures var s := EndOf(w, ofA); s.window == k.window && (s.queue[0].Send? ==> s.queue[0].bytes >= 1)
  {
    LocalsOf(k, w);
    hide Dir, Handshake, Inv;
    var s := EndOf(w, ofA);
    if s.queue[0].Send? { assert s.queue[0].bytes == Size(k.codec, s.deal.exact, s.queue[0].payload); }
  }

  // ----- credit returns -----

  /** A live end sits on less than a quarter of the window. */
  predicate Prompt(s: Side) {
    s.status == Live ==> 4 * s.toGrant < s.window
  }

  lemma {:induction false} SendAllPrompt(o: Options, s: Side, es: seq<Envelope>)
    requires Prompt(s)
    ensures Prompt(SendAllOnPort(o, s, es).side)
    decreases |es|
  {
    if es != [] { SendAllPrompt(o, SendOnPort(o, s, es[0]).side, es[1..]); }
  }

  lemma FlushPrompt(o: Options, c: Codec, s: Side)
    requires OptionsOk(o) && CanFlush(s) && Prompt(s)
    ensures Prompt(FlushOne(o, c, s).side)
  {
    var i := s.queue[0];
    var t := s.(queue := s.queue[1..], queued := if ItemSize(i) <= s.queued then s.queued - ItemSize(i) else 0,
                outstanding := s.outstanding + ItemSize(i));
    hide Leaving, SendAllOnPort;
    SendAllPrompt(o, t, Leaving(o, c, t, i, false));
  }

  lemma HandlePrompt(o: Options, c: Codec, s: Side, e: Envelope, full: bool, others: nat)
    requires Prompt(s) && (e.Open? ==> e.window > 0)
    ensures Prompt(Handle(o, c, s, e, full, others).side)
  {
    hide PartialOf, PastRoom, Charge, Size;
  }

  lemma PerformPrompt(k: Terms, o: Options, s: Side, inbox: seq<Envelope>, act: Act)
    requires OptionsOk(o) && Enabled(k, o, s, inbox, act) && Prompt(s)
    requires (act.Recv? && inbox[0].Open? ==> inbox[0].window > 0) && (s.status == Live ==> s.window > 0)
    ensures Prompt(Perform(k, o, s, inbox, act).side)
  {
    match act
    case Flush => FlushPrompt(o, k.codec, s);
    case Recv(full, others) =>
      HandlePrompt(o, k.codec, s, inbox[0], full, others);
      hide Handle;
    case CloseIt => if s.status == Live { SendAllPrompt(o, Spill(s), WholeItems(s.queue) + [Close]); }
    case _ =>
  }

  lemma OpenHasWindow(k: Terms, w: World, ofA: bool)
    requires TermsOk(k) && Inv(k, w)
    ensures InboxOf(w, ofA) != [] && InboxOf(w, ofA)[0].Open? ==> InboxOf(w, ofA)[0].window > 0
  {
    LocalFresh(k, w);
    hide Dir, Local;
  }

  lemma {:induction false} RunPrompt(k: Terms, w: World, steps: seq<(bool, Act)>, w': World, ofA: bool)
    requires TermsOk(k) && Inv(k, w) && IsRun(k, w, steps, w') && Prompt(EndOf(w, ofA))
    ensures Prompt(EndOf(w', ofA))
    decreases |steps|
  {
    if steps != [] {
      var (byA, act) := steps[0];
      StepKeeps(k, w, byA, act);
      EndStarts(k, w, ofA);
      OpenHasWindow(k, w, ofA);
      hide Inv, Prompt, Perform, CodecOk;
      if byA == ofA { PerformPrompt(k, OptionsOf(k, ofA), EndOf(w, ofA), InboxOf(w, ofA), act); }
      RunPrompt(k, Step(k, w, byA, act), steps[1..], w', ofA);
    }
  }

  /** What an end has consumed and not given back stays under a quarter of the window, over every run, and is on a timer. */
  lemma CreditReturns(k: Terms, w: World, ofA: bool)
    requires TermsOk(k) && Reachable(k, w) && EndOf(w, ofA).status == Live
    ensures 4 * EndOf(w, ofA).toGrant < k.window
    ensures EndOf(w, ofA).toGrant > 0 ==> EndOf(w, ofA).clock.timers > 0
  {
    var steps :| IsRun(k, Init(k), steps, w);
    InitInv(k);
    ReachableInv(k, w);
    RunPrompt(k, Init(k), steps, w, ofA);
    LocalsOf(k, w);
    hide IsRun, Inv, CodecOk, QueueOk, Plain;
  }

  // ----- both ends come to hold the window -----

  predicate HasCredit(es: seq<Envelope>) {
    exists i :: 0 <= i < |es| && es[i].Credit?
  }

  /** Once the opener holds the window, its credit is on the way until the responder does. */
  predicate Echoed(w: World) {
    w.a.deal.enforced && w.b.status == Live && !w.b.deal.enforced ==> HasCredit(w.ab)
  }

  lemma HeardDeal(o: Options, c: Codec, s: Side, e: Envelope, full: bool, others: nat)
    requires !e.Open?
    ensures var h := Handle(o, c, s, e, full, others);
            && (s.deal.enforced ==> h.side.deal.enforced)
            && (!s.deal.enforced && h.side.deal.enforced ==> e.Credit? && (s.deal.opener ==> h.out == [Credit(0, false, None)]))
            && (e.Credit? && s.status == Live && s.window > 0 ==> h.side.deal.enforced)
            && (h.side.status == Live ==> s.status == Live)
  {
    hide PartialOf, PastRoom, Charge, Size;
  }

  lemma CreditAfter(es: seq<Envelope>, out: seq<Envelope>)
    ensures HasCredit(es) ==> HasCredit(es + out)
    ensures out != [] && out[0].Credit? ==> HasCredit(es + out)
    ensures es != [] && !es[0].Credit? && HasCredit(es) ==> HasCredit(es[1..])
  {
    if HasCredit(es) {
      var i :| 0 <= i < |es| && es[i].Credit?;
      assert (es + out)[i] == es[i];
      if es != [] && !es[0].Credit? { assert es[1..][i - 1] == es[i]; }
    }
    if out != [] { assert (es + out)[|es|] == out[0]; }
  }

  lemma DealKept(k: Terms, w: World, byA: bool, act: Act)
    requires TermsOk(k) && Inv(k, w) && Can(k, w, byA, act) && !act.Recv?
    ensures var s := EndOf(Step(k, w, byA, act), byA);
            s.deal == EndOf(w, byA).deal && (s.status == Live ==> EndOf(w, byA).status == Live)
  {
    ViewOf(k, w, byA);
    hide Inv, View, Hears, CodecOk, Perform, Local, Dir;
    ActDeal(k, byA, if byA then FlowAB(k, w) else FlowBA(w), if byA then FlowBA(w) else FlowAB(k, w), act);
  }

  lemma StepEchoed(k: Terms, w: World, byA: bool, act: Act)
    requires TermsOk(k) && Inv(k, w) && Can(k, w, byA, act) && Echoed(w)
    ensures Echoed(Step(k, w, byA, act))
  {
    LocalFresh(k, w);
    LocalsOf(k, w);
    EndStarts(k, w, byA);
    NotYetWaits(k, w);
    if act.Recv? {
      var s, inbox := EndOf(w, byA), InboxOf(w, byA);
      OpenerIs(k, w);
      PerformRecv(k, OptionsOf(k, byA), s, inbox, act);
      hide Inv, Local, CodecOk, Handle, HasCredit, Perform;
      if !inbox[0].Open? { HeardDeal(OptionsOf(k, byA), k.codec, s, inbox[0], act.full, act.others); }
    } else {
      hide Inv, Local, CodecOk, HasCredit, Perform;
      DealKept(k, w, byA, act);
    }
    hide HasCredit;
    var w' := Step(k, w, byA, act);
    if byA { CreditAfter(w.ab, Perform(k, k.oa, w.a, w.ba, act).out); } else { CreditAfter(w.ab, []); }
  }

  lemma OpenerIs(k: Terms, w: World)
    requires Inv(k, w)
    ensures w.a.deal.opener && !w.b.deal.opener
  {
  }

  lemma NotYetWaits(k: Terms, w: World)
    requires Inv(k, w)
    ensures w.b.status == NotYet ==> !w.a.deal.enforced
    ensures w.ba != [] ==> !w.ba[0].Open?
    ensures w.ab != [] && w.ab[0].Open? ==> w.b.status == NotYet
  {
    LocalFresh(k, w);
    hide Local, Dir;
  }

  lemma {:induction false} RunEchoed(k: Terms, w: World, steps: seq<(bool, Act)>, w': World)
    requires TermsOk(k) && Inv(k, w) && IsRun(k, w, steps, w') && Echoed(w)
    ensures Echoed(w')
    decreases |steps|
  {
    if steps != [] {
      StepKeeps(k, w, steps[0].0, steps[0].1);
      StepEchoed(k, w, steps[0].0, steps[0].1);
      hide Inv, Echoed, Step, CodecOk, Can;
      RunEchoed(k, Step(k, w, steps[0].0, steps[0].1), steps[1..], w');
    }
  }

  /** At rest both ends of an open port hold their sends to the window, whichever end opened it. */
  lemma BothHoldTheWindow(k: Terms, w: World)
    requires TermsOk(k) && Reachable(k, w) && AtRest(k, w) && w.a.status == Live && w.b.status == Live
    ensures w.a.deal.enforced && w.b.deal.enforced
    ensures w.a.deal.caps == w.b.deal.caps == k.oa.caps * k.ob.caps
    ensures w.a.deal.exact == w.b.deal.exact == (k.oa.exactCodec && k.ob.exactCodec)
  {
    var steps :| IsRun(k, Init(k), steps, w);
    InitInv(k);
    ReachableInv(k, w);
    RunEchoed(k, Init(k), steps, w);
    RestIsDone(k, w);
    CapsAgree(k, w);
    LocalsOf(k, w);
    RestIsEmpty(k, w);
    hide IsRun, Dir, CodecOk, Handshake, AtRest, Inv, QueueOk;
  }

  // ----- frames -----

  /** Nothing on the ring is larger than a frame. */
  predicate Fair(c: Codec, frameSize: nat, e: Envelope) {
    && (e.Frame? ==> 1 <= |e.data| <= frameSize)
    && (e.Message? ==> |c.encode(e.payload)| <= frameSize)
  }

  lemma {:induction false} PiecesFair(c: Codec, bytes: Bytes, frameSize: nat)
    requires frameSize >= 1 && |bytes| >= 1
    ensures forall e :: e in Pieces(bytes, frameSize) ==> e.Frame? && Fair(c, frameSize, e)
    decreases |bytes|
  {
    if |bytes| > frameSize { PiecesFair(c, bytes[frameSize..], frameSize); }
  }

  lemma LeavingFair(k: Terms, o: Options, isA: bool, s: Side)
    requires TermsOk(k) && OptionsOk(o) && Local(k, o, isA, s) && CanFlush(s)
    requires o.frameSize.Some? && s.deal.enforced && s.deal.exact
    ensures forall e :: e in Leaving(o, k.codec, s, s.queue[0], false) ==> Fair(k.codec, o.frameSize.value, e)
  {
    var i := s.queue[0];
    if i.Send? {
      assert i.bytes == Size(k.codec, s.deal.exact, i.payload) == |k.codec.encode(i.payload)|;
      PiecesFair(k.codec, k.codec.encode(i.payload), o.frameSize.value);
    }
    hide Local, Pieces;
  }

  /**
   Under a frame size, with the window in force and exact sizes agreed, a flush
   puts nothing on the pipe itself and nothing larger than a frame on the ring,
   behind what the port already had there.
   */
  lemma FlushIsFair(k: Terms, w: World, ofA: bool)
    requires TermsOk(k) && Reachable(k, w) && CanFlush(EndOf(w, ofA))
    requires OptionsOf(k, ofA).frameSize.Some? && EndOf(w, ofA).deal.enforced && EndOf(w, ofA).deal.exact
    ensures var s := EndOf(w, ofA);
            var e := FlushOne(OptionsOf(k, ofA), k.codec, s);
            && e.out == [] && s.outgoing <= e.side.outgoing
            && forall i :: |s.outgoing| <= i < |e.side.outgoing| ==> Fair(k.codec, OptionsOf(k, ofA).frameSize.value, e.side.outgoing[i])
  {
    ReachableInv(k, w);
    LocalsOf(k, w);
    hide Local, Inv, CodecOk, FlushOne, CanFlush, Leaving, Fair, IsRun;
    FlushRing(k, OptionsOf(k, ofA), ofA, EndOf(w, ofA));
  }

  lemma FlushRing(k: Terms, o: Options, isA: bool, s: Side)
    requires TermsOk(k) && OptionsOk(o) && Local(k, o, isA, s) && CanFlush(s)
    requires o.frameSize.Some? && s.deal.enforced && s.deal.exact
    ensures var e := FlushOne(o, k.codec, s);
            && e.out == [] && s.outgoing <= e.side.outgoing
            && forall i :: |s.outgoing| <= i < |e.side.outgoing| ==> Fair(k.codec, o.frameSize.value, e.side.outgoing[i])
  {
    LeavingFair(k, o, isA, s);
    LeavingPlain(k, o, isA, s);
    hide Local, CodecOk, FlushOne, Leaving, Fair, Plain;
    FlushIsQueued(o, k.codec, s);
    var es := Leaving(o, k.codec, s, s.queue[0], false);
    assert Queued(o, k.codec, s).outgoing == s.outgoing + es;
    hide CanFlush, Queued;
    forall i | |s.outgoing| <= i < |s.outgoing + es| ensures Fair(k.codec, o.frameSize.value, (s.outgoing + es)[i]) {
      assert (s.outgoing + es)[i] == es[i - |s.outgoing|];
    }
  }
}
