/**
 What the consumers asked for, read off the acts of a run, and what comes of it:
 posts are posted until the consumer ends or closes, an end reaches the peer,
 and a close reaches the other table.
 */
module PortEnds {
  import opened Basics
  import opened PortSide
  import opened PortWire
  import opened PortWorld
  import opened PortSendSteps
  import opened PortCloseSteps
  import opened PortReceiveSteps
  import opened PortRuns
  import opened PortTheorems
  import opened PortProgress

  /**
   One consumer's acts so far: the payloads it posted on a live port it had not
   ended, whether it ended it (live, half-close agreed), and whether it closed it.
   */
  datatype Told = Told(posts: seq<Payload>, ended: bool, closed: bool)

  const NOTHING := Told([], false, false)

  function Telling(s: Side, act: Act, t: Told): Told {
    if s.status != Live then t
    else match act
      case Post(p) => if t.ended then t else t.(posts := t.posts + [p])
      case EndDir => if HalfClose in s.deal.caps then t.(ended := true) else t
      case CloseIt => t.(closed := true)
      case Reject => t.(closed := true)
      case Shutdown => t.(closed := true)
      case _ => t
  }

  /** What one end's consumer did along a run. */
  ghost function ToldBy(k: Terms, w: World, steps: seq<(bool, Act)>, w': World, ofA: bool, t: Told): Told
    requires TermsOk(k) && IsRun(k, w, steps, w')
    decreases |steps|
  {
    if steps == [] then t
    else
      var (byA, act) := steps[0];
      ToldBy(k, Step(k, w, byA, act), steps[1..], w', ofA, if byA == ofA then Telling(EndOf(w, ofA), act, t) else t)
  }

  predicate AsTold(s: Side, t: Told) {
    s.hist.posted == t.posts && s.half.ending == t.ended && (t.closed ==> s.status == Dead)
  }

  lemma {:induction false} SendAllSame(o: Options, s: Side, es: seq<Envelope>)
    ensures var t := SendAllOnPort(o, s, es).side;
            t.hist == s.hist && t.half.ending == s.half.ending && (s.status == Dead ==> t.status == Dead)
    decreases |es|
  {
    if es != [] { SendAllSame(o, SendOnPort(o, s, es[0]).side, es[1..]); }
  }

  lemma FlushSame(o: Options, c: Codec, s: Side)
    requires OptionsOk(o) && CanFlush(s)
    ensures var t := FlushOne(o, c, s).side; t.hist == s.hist && t.half.ending == s.half.ending
  {
    var i := s.queue[0];
    var t := s.(queue := s.queue[1..], queued := if ItemSize(i) <= s.queued then s.queued - ItemSize(i) else 0,
                outstanding := s.outstanding + ItemSize(i));
    hide Leaving, SendAllOnPort;
    SendAllSame(o, t, Leaving(o, c, t, i, false));
  }

  lemma HandleSame(o: Options, c: Codec, s: Side, e: Envelope, full: bool, others: nat)
    requires e.Open? ==> s.status != Dead && !s.half.ending
    ensures var t := Handle(o, c, s, e, full, others).side;
            t.hist.posted == s.hist.posted && t.half.ending == s.half.ending && (s.status == Dead ==> t.status == Dead)
  {
    hide PartialOf, PastRoom, Charge, Size;
  }

  lemma PerformTold(k: Terms, o: Options, s: Side, inbox: seq<Envelope>, act: Act, t: Told)
    requires OptionsOk(o) && Enabled(k, o, s, inbox, act) && AsTold(s, t)
    requires s.status == Live ==> s.window > 0
    requires act.Recv? && inbox[0].Open? ==> s.status != Dead && !s.half.ending
    ensures AsTold(Perform(k, o, s, inbox, act).side, Telling(s, act, t))
  {
    match act
    case Flush => FlushSame(o, k.codec, s);
    case Recv(full, others) =>
      HandleSame(o, k.codec, s, inbox[0], full, others);
      hide Handle;
    case CloseIt => if s.status == Live { SendAllSame(o, Spill(s), WholeItems(s.queue) + [Close]); }
    case _ =>
  }

  lemma EndStarts(k: Terms, w: World, ofA: bool)
    requires TermsOk(k) && Inv(k, w)
    ensures EndOf(w, ofA).status == Live ==> EndOf(w, ofA).window > 0
    ensures InboxOf(w, ofA) != [] && InboxOf(w, ofA)[0].Open? ==> EndOf(w, ofA).status != Dead && !EndOf(w, ofA).half.ending
  {
    hide Dir, CodecOk;
    LocalFresh(k, w);
  }

  lemma StepTold(k: Terms, w: World, byA: bool, act: Act, ofA: bool, t: Told)
    requires TermsOk(k) && Inv(k, w) && Can(k, w, byA, act) && AsTold(EndOf(w, ofA), t)
    ensures AsTold(EndOf(Step(k, w, byA, act), ofA), if byA == ofA then Telling(EndOf(w, ofA), act, t) else t)
  {
    if byA == ofA {
      EndStarts(k, w, ofA);
      hide Inv, AsTold, CodecOk, Perform;
      PerformTold(k, OptionsOf(k, ofA), EndOf(w, ofA), InboxOf(w, ofA), act, t);
    }
  }

  lemma {:induction false} RunTold(k: Terms, w: World, steps: seq<(bool, Act)>, w': World, ofA: bool, t: Told)
    requires TermsOk(k) && Inv(k, w) && IsRun(k, w, steps, w') && AsTold(EndOf(w, ofA), t)
    ensures AsTold(EndOf(w', ofA), ToldBy(k, w, steps, w', ofA, t))
    decreases |steps|
  {
    if steps != [] {
      var (byA, act) := steps[0];
      hide Inv, AsTold, Step, Telling, CodecOk, Can;
      StepKeeps(k, w, byA, act);
      StepTold(k, w, byA, act, ofA, t);
      RunTold(k, Step(k, w, byA, act), steps[1..], w', ofA, if byA == ofA then Telling(EndOf(w, ofA), act, t) else t);
    }
  }

  /**
   Over every run: exactly the payloads the consumer posted before it ended or
   lost the port are posted, in order; the direction is ending exactly when the
   consumer ended it; and a port it closed is gone from the table.
   */
  lemma DoneAsTold(k: Terms, steps: seq<(bool, Act)>, w: World, ofA: bool)
    requires TermsOk(k) && IsRun(k, Init(k), steps, w)
    ensures var t := ToldBy(k, Init(k), steps, w, ofA, NOTHING);
            && EndOf(w, ofA).hist.posted == t.posts
            && (EndOf(w, ofA).half.ending <==> t.ended)
            && (t.closed ==> EndOf(w, ofA).status == Dead)
  {
    InitInv(k);
    hide Inv, CodecOk, IsRun;
    RunTold(k, Init(k), steps, w, ofA, NOTHING);
  }

  lemma TellsNoMore(s: Side, act: Act, t: Told)
    requires (t.ended || t.closed) && AsTold(s, t)
    ensures var u := Telling(s, act, t); u.posts == t.posts && (u.ended || u.closed)
  {
  }

  /** Once ended or closed, nothing a consumer does posts anything more, whatever follows. */
  lemma {:induction false} NothingLater(k: Terms, w: World, steps: seq<(bool, Act)>, w': World, ofA: bool, t: Told)
    requires TermsOk(k) && Inv(k, w) && IsRun(k, w, steps, w') && AsTold(EndOf(w, ofA), t) && (t.ended || t.closed)
    ensures EndOf(w', ofA).hist.posted == EndOf(w, ofA).hist.posted
    decreases |steps|
  {
    if steps != [] {
      var (byA, act) := steps[0];
      hide Inv, Step, Telling, CodecOk, Can;
      TellsNoMore(EndOf(w, ofA), act, t);
      StepKeeps(k, w, byA, act);
      StepTold(k, w, byA, act, ofA, t);
      NothingLater(k, Step(k, w, byA, act), steps[1..], w', ofA, if byA == ofA then Telling(EndOf(w, ofA), act, t) else t);
    }
  }

  // ----- at rest -----

  lemma RestIsEmpty(k: Terms, w: World)
    requires TermsOk(k) && Inv(k, w) && AtRest(k, w)
    ensures w.ab == [] && w.ba == [] && w.a.outgoing == [] && w.b.outgoing == []
    ensures Coming(FlowAB(k, w)) == [] && Coming(FlowBA(w)) == []
    ensures w.b.status != NotYet && w.a.status != NotYet
  {
    LocalsOf(k, w);
    BusyMoves(k, w);
    hide Local, Dir, CodecOk;
  }

  /** At rest neither table holds a port the other has dropped. */
  lemma RestDead(k: Terms, fo: Flow, fi: Flow)
    requires Dir(k, fo) && Dir(k, fi) && fi == Flow(fo.r, fo.s, fo.rs, fo.sr, fi.tight)
    requires Coming(fo) == [] && Coming(fi) == [] && fo.sr == [] && fo.s.status == Dead && fo.r.status != NotYet
    ensures fo.r.status == Dead
  {
    hide Transfer, Ledger, Room, Coming;
    assert Data(fo.sr) == [];
    var left := fo.r.status == Live;
    assert left ==> fo.s.half.endSent && fo.s.half.peerEnded;
    assert left ==> fo.r.half.peerEnded && fo.r.half.endSent;
  }

  lemma RestTogether(k: Terms, w: World)
    requires TermsOk(k) && Inv(k, w) && AtRest(k, w)
    ensures w.a.status == w.b.status && (w.a.status == Live || w.a.status == Dead)
  {
    RestIsEmpty(k, w);
    if w.a.status == Dead { RestDead(k, FlowAB(k, w), FlowBA(w)); }
    if w.b.status == Dead { RestDead(k, FlowBA(w), FlowAB(k, w)); }
    hide Local, Dir, CodecOk, AtRest, Coming;
  }

  lemma RestEnded(k: Terms, fo: Flow)
    requires Dir(k, fo) && Coming(fo) == [] && fo.s.queue == []
    requires fo.s.status == Live && fo.r.status == Live && fo.s.half.ending
    ensures fo.s.half.endSent && fo.r.half.peerEnded && fo.r.hist.delivered == fo.s.hist.posted
  {
    hide Life, Ledger, Room, Coming, Feed, Data;
  }

  /**
   An `end()` comes through: at rest, an end whose consumer ended it while it was
   live with half-close agreed has sent its `end`, the peer has read it, and
   everything the consumer posted before it has been delivered, unless a close
   took the port from both tables.
   */
  lemma EndComesThrough(k: Terms, steps: seq<(bool, Act)>, w: World, ofA: bool)
    requires TermsOk(k) && IsRun(k, Init(k), steps, w) && AtRest(k, w)
    requires ToldBy(k, Init(k), steps, w, ofA, NOTHING).ended
    ensures EndOf(w, ofA).status == EndOf(w, !ofA).status
    ensures EndOf(w, ofA).status == Live ==>
              && EndOf(w, ofA).half.endSent && EndOf(w, !ofA).half.peerEnded
              && EndOf(w, !ofA).hist.delivered == ToldBy(k, Init(k), steps, w, ofA, NOTHING).posts
  {
    assert Reachable(k, w);
    ReachableInv(k, w);
    DoneAsTold(k, steps, w, ofA);
    hide IsRun, ToldBy, CodecOk;
    RestTogether(k, w);
    RestIsEmpty(k, w);
    if EndOf(w, ofA).status == Live {
      RestIsDone(k, w);
      RestEnded(k, if ofA then FlowAB(k, w) else FlowBA(w));
    }
  }

  /** Ended by both consumers, a port is in neither table at rest. */
  lemma BothComeThrough(k: Terms, steps: seq<(bool, Act)>, w: World)
    requires TermsOk(k) && IsRun(k, Init(k), steps, w) && AtRest(k, w)
    requires ToldBy(k, Init(k), steps, w, true, NOTHING).ended && ToldBy(k, Init(k), steps, w, false, NOTHING).ended
    ensures w.a.status == Dead && w.b.status == Dead
  {
    assert Reachable(k, w);
    ReachableInv(k, w);
    EndComesThrough(k, steps, w, true);
    EndComesThrough(k, steps, w, false);
    hide IsRun, ToldBy, CodecOk, AtRest;
    RestLive(k, w);
  }

  lemma RestLive(k: Terms, w: World)
    requires Inv(k, w)
    ensures w.a.status == Live ==> !(w.a.half.endSent && w.a.half.peerEnded)
    ensures w.b.status == Live ==> !(w.b.half.endSent && w.b.half.peerEnded)
    ensures w.a.status != NotYet
  {
    hide Local, Transfer, Half, Ledger, Room;
  }

  /** A close, a refusal or a shutdown by either consumer reaches the other: at rest neither table holds the port. */
  lemma CloseComesThrough(k: Terms, steps: seq<(bool, Act)>, w: World, ofA: bool)
    requires TermsOk(k) && IsRun(k, Init(k), steps, w) && AtRest(k, w)
    requires ToldBy(k, Init(k), steps, w, ofA, NOTHING).closed
    ensures w.a.status == Dead && w.b.status == Dead
  {
    assert Reachable(k, w);
    ReachableInv(k, w);
    DoneAsTold(k, steps, w, ofA);
    hide IsRun, ToldBy, CodecOk;
    RestTogether(k, w);
  }

  /** Without an end or a close, all that either consumer posted has been delivered at rest. */
  lemma PostsComeThrough(k: Terms, steps: seq<(bool, Act)>, w: World, ofA: bool)
    requires TermsOk(k) && IsRun(k, Init(k), steps, w) && AtRest(k, w) && w.a.status == Live
    ensures EndOf(w, !ofA).hist.delivered == ToldBy(k, Init(k), steps, w, ofA, NOTHING).posts
  {
    assert Reachable(k, w);
    ReachableInv(k, w);
    DoneAsTold(k, steps, w, ofA);
    hide IsRun, ToldBy, CodecOk;
    RestTogether(k, w);
    RestIsDone(k, w);
  }

  // ----- a close loses nothing -----

  /** The consumer's close throws nothing away: what was queued goes out before it. */
  lemma CloseDropsNothing(o: Options, s: Side)
    ensures var t := CloseSide(o, s).side; t.hist.dropped == s.hist.dropped && t.hist.posted == s.hist.posted
    ensures s.status == Live ==> CloseSide(o, s).side.status == Dead
  {
    if s.status == Live { SendAllSame(o, Spill(s), WholeItems(s.queue) + [Close]); }
  }

  /** An end that hears a close has delivered everything its peer posted, unless the peer threw something away. */
  lemma CloseMeansAllDelivered(k: Terms, w: World, isA: bool)
    requires TermsOk(k) && Reachable(k, w) && EndOf(w, isA).status == Live && InboxOf(w, isA) != [] && InboxOf(w, isA)[0] == Close
    requires !EndOf(w, !isA).hist.dropped
    ensures EndOf(w, !isA).status == Dead && EndOf(w, isA).hist.delivered == EndOf(w, !isA).hist.posted
  {
    ReachableInv(k, w);
    LocalsOf(k, w);
    DeadQueues(k, w);
    hide Inv, Local, CodecOk, IsRun;
    if isA { CloseHeard(k, FlowBA(w)); } else { CloseHeard(k, FlowAB(k, w)); }
  }

  lemma DeadQueues(k: Terms, w: World)
    requires Inv(k, w)
    ensures (w.a.status == Dead ==> w.a.queue == []) && (w.b.status == Dead ==> w.b.queue == [])
    ensures Dir(k, FlowAB(k, w)) && Dir(k, FlowBA(w))
  {
    hide Dir;
  }

  lemma CloseHeard(k: Terms, f: Flow)
    requires Dir(k, f) && f.r.status == Live && f.sr != [] && f.sr[0] == Close && !f.s.hist.dropped
    requires f.s.status == Dead ==> f.s.queue == []
    ensures f.s.status == Dead && f.r.hist.delivered == f.s.hist.posted
  {
    ComingHead(f);
    hide Data, Half, Ledger, Room;
    assert Coming(f)[0] == Close;
    assert f.s.status == Dead;
    assert Feed(k.codec, BufOf(f.r), Coming(f)).msgs == [];
    assert f.r.hist.delivered + [] + [] == f.r.hist.delivered;
  }

  // ----- what may take a port from the tables -----

  /** A step that neither closes, refuses or shuts the port, nor meets a full table or the cap all ports share. */
  predicate Peaceful(o: Options, s: Side, inbox: seq<Envelope>, act: Act) {
    match act
    case CloseIt => s.status != Live
    case Reject => s.status != Live
    case Shutdown => s.status != Live && s.outgoing == []
    case Recv(full, others) =>
      inbox != [] ==>
        && (inbox[0].Open? ==> !full)
        && (inbox[0].Frame? ==> others + Charge(s, PartialOf(s), |inbox[0].data|) <= o.maxReassembled)
    case _ => true
  }

  ghost predicate AllPeaceful(k: Terms, w: World, steps: seq<(bool, Act)>, w': World)
    requires TermsOk(k) && IsRun(k, w, steps, w')
    decreases |steps|
  {
    steps != [] ==>
      var (byA, act) := steps[0];
      Peaceful(OptionsOf(k, byA), EndOf(w, byA), InboxOf(w, byA), act) && AllPeaceful(k, Step(k, w, byA, act), steps[1..], w')
  }

  /** No close is about, and an end that left the table ended both ways. */
  predicate Calm(s: Side) {
    Close !in s.outgoing && (s.status == Dead ==> s.half.endSent && s.half.peerEnded)
  }

  predicate AllCalm(w: World) { Calm(w.a) && Calm(w.b) && Close !in w.ab && Close !in w.ba }

  lemma {:induction false} SendAllCalm(o: Options, s: Side, es: seq<Envelope>)
    requires Calm(s) && Close !in es
    ensures var e := SendAllOnPort(o, s, es); Calm(e.side) && Close !in e.out
    decreases |es|
  {
    if es != [] {
      assert es[0] in es;
      assert Close !in es[1..];
      SendAllCalm(o, SendOnPort(o, s, es[0]).side, es[1..]);
    }
  }

  lemma FlushCalm(k: Terms, o: Options, isA: bool, s: Side)
    requires TermsOk(k) && OptionsOk(o) && Local(k, o, isA, s) && CanFlush(s) && Calm(s)
    ensures var e := FlushOne(o, k.codec, s); Calm(e.side) && Close !in e.out
  {
    LeavingFacts(k, o, isA, s);
    hide Leaving, SendAllOnPort, Local, CodecOk, FlushOne;
    FlushSendsCalm(o, k.codec, s);
  }

  lemma FlushSendsCalm(o: Options, c: Codec, s: Side)
    requires OptionsOk(o) && CanFlush(s) && Calm(s) && Close !in Leaving(o, c, s, s.queue[0], false)
    ensures var e := FlushOne(o, c, s); Calm(e.side) && Close !in e.out
  {
    var i := s.queue[0];
    var t := s.(queue := s.queue[1..], queued := if ItemSize(i) <= s.queued then s.queued - ItemSize(i) else 0,
                outstanding := s.outstanding + ItemSize(i));
    hide Leaving, SendAllOnPort;
    SendAllCalm(o, t, Leaving(o, c, t, i, false));
  }

  /** What an honest peer sends is never taken for a breach. */
  ghost predicate Honest(o: Options, s: Side, e: Envelope) {
    s.status == Live ==>
      && (e.Message? ==> !s.half.peerEnded)
      && (e.Frame? ==> !s.half.peerEnded && !PastRoom(PartialOf(s), |e.data|))
      && (e.End? ==> s.window > 0 && HalfClose in s.deal.caps)
  }

  lemma HonestHere(k: Terms, w: World, isA: bool)
    requires TermsOk(k) && Inv(k, w) && InboxOf(w, isA) != []
    ensures Honest(OptionsOf(k, isA), EndOf(w, isA), InboxOf(w, isA)[0])
  {
    ViewOf(k, w, isA);
    var fo, fi := if isA then FlowAB(k, w) else FlowBA(w), if isA then FlowBA(w) else FlowAB(k, w);
    hide Inv, View, Hears, CodecOk, Local, Dir, PastRoom, PartialOf;
    if fo.s.status == Live {
      match fi.sr[0] {
        case Message(_) => MessageAct(k, isA, fo, fi);
        case Frame(_, _) => FrameAct(k, isA, fo, fi);
        case End => EndNeeds(k, isA, fo, fi);
        case _ =>
      }
    }
  }

  lemma EndNeeds(k: Terms, isA: bool, fo: Flow, fi: Flow)
    requires TermsOk(k) && View(k, isA, fo, fi) && Hears(k, isA, fo.s, fi.sr) && fo.s.status == Live && fi.sr[0].End?
    ensures fo.s.window > 0 && HalfClose in fo.s.deal.caps
  {
    EndAct(k, isA, fo, fi);
  }

  lemma HandleCalm(o: Options, c: Codec, s: Side, inbox: seq<Envelope>, full: bool, others: nat)
    requires inbox != [] && Close !in inbox && Calm(s) && Honest(o, s, inbox[0]) && Peaceful(o, s, inbox, Recv(full, others))
    requires inbox[0].Open? ==> s.status != Dead
    ensures var e := Handle(o, c, s, inbox[0], full, others); Calm(e.side) && Close !in e.out
  {
    assert inbox[0] in inbox;
    hide PartialOf, PastRoom, Charge, Size;
  }

  lemma PerformCalm(k: Terms, o: Options, isA: bool, s: Side, inbox: seq<Envelope>, act: Act)
    requires TermsOk(k) && OptionsOk(o) && Local(k, o, isA, s) && Enabled(k, o, s, inbox, act) && Peaceful(o, s, inbox, act)
    requires Calm(s) && Close !in inbox && (inbox != [] ==> Honest(o, s, inbox[0]))
    requires act.Recv? && inbox[0].Open? ==> s.status != Dead
    ensures var e := Perform(k, o, s, inbox, act); Calm(e.side) && Close !in e.out
  {
    hide Local, CodecOk;
    match act
    case Flush => FlushCalm(k, o, isA, s);
    case Pump => PumpCalm(s);
    case Recv(full, others) =>
      HandleCalm(o, k.codec, s, inbox, full, others);
      hide Handle;
    case _ =>
  }

  lemma PumpCalm(s: Side)
    requires s.outgoing != [] && Calm(s)
    ensures var e := PumpOne(s); Calm(e.side) && Close !in e.out
  {
    assert s.outgoing[0] in s.outgoing;
    assert Close !in s.outgoing[1..];
  }

  lemma StepCalm(k: Terms, w: World, byA: bool, act: Act)
    requires TermsOk(k) && Inv(k, w) && Can(k, w, byA, act) && AllCalm(w)
    requires Peaceful(OptionsOf(k, byA), EndOf(w, byA), InboxOf(w, byA), act)
    ensures AllCalm(Step(k, w, byA, act))
  {
    LocalsOf(k, w);
    EndStarts(k, w, byA);
    if InboxOf(w, byA) != [] { HonestHere(k, w, byA); }
    hide Inv, Local, CodecOk, Perform, Honest, Peaceful, Calm;
    PerformCalm(k, OptionsOf(k, byA), byA, EndOf(w, byA), InboxOf(w, byA), act);
  }

  lemma {:induction false} RunCalm(k: Terms, w: World, steps: seq<(bool, Act)>, w': World)
    requires TermsOk(k) && Inv(k, w) && IsRun(k, w, steps, w') && AllPeaceful(k, w, steps, w') && AllCalm(w)
    ensures AllCalm(w')
    decreases |steps|
  {
    if steps != [] {
      var (byA, act) := steps[0];
      hide Inv, AllCalm, Step, Peaceful, CodecOk, Can;
      StepKeeps(k, w, byA, act);
      StepCalm(k, w, byA, act);
      RunCalm(k, Step(k, w, byA, act), steps[1..], w');
    }
  }

  /**
   A port leaves a table only because a consumer closed, refused or shut it, a
   table or the shared cap was full, or both directions ended; nothing an honest
   peer sends, and no window, frame or timer, does.
   */
  lemma DiesOnlyFor(k: Terms, steps: seq<(bool, Act)>, w: World, ofA: bool)
    requires TermsOk(k) && IsRun(k, Init(k), steps, w) && AllPeaceful(k, Init(k), steps, w)
    ensures EndOf(w, ofA).status == Dead ==>
              && ToldBy(k, Init(k), steps, w, true, NOTHING).ended && ToldBy(k, Init(k), steps, w, false, NOTHING).ended
              && EndOf(w, ofA).half.endSent && EndOf(w, ofA).half.peerEnded
              && EndOf(w, ofA).hist.delivered == ToldBy(k, Init(k), steps, w, !ofA, NOTHING).posts
  {
    InitInv(k);
    RunCalm(k, Init(k), steps, w);
    assert Reachable(k, w);
    ReachableInv(k, w);
    DoneAsTold(k, steps, w, true);
    DoneAsTold(k, steps, w, false);
    EndMeansAllDelivered(k, w);
    hide IsRun, AllPeaceful, ToldBy, CodecOk;
    EndedIsEnding(k, w);
    hide Inv;
  }

  lemma EndedIsEnding(k: Terms, w: World)
    requires Inv(k, w)
    ensures w.a.half.endSent ==> w.a.half.ending
    ensures w.b.half.endSent ==> w.b.half.ending
  {
    hide Local, Transfer, Life, Ledger, Room;
  }

  /** So where nobody closes and nothing is full, every `end()` comes through, with everything posted before it. */
  lemma EveryEndComesThrough(k: Terms, steps: seq<(bool, Act)>, w: World, ofA: bool)
    requires TermsOk(k) && IsRun(k, Init(k), steps, w) && AllPeaceful(k, Init(k), steps, w) && AtRest(k, w)
    requires ToldBy(k, Init(k), steps, w, ofA, NOTHING).ended
    ensures EndOf(w, ofA).half.endSent && EndOf(w, !ofA).half.peerEnded
    ensures EndOf(w, !ofA).hist.delivered == ToldBy(k, Init(k), steps, w, ofA, NOTHING).posts
  {
    EndComesThrough(k, steps, w, ofA);
    DiesOnlyFor(k, steps, w, ofA);
    DiesOnlyFor(k, steps, w, !ofA);
    assert Reachable(k, w);
    ReachableInv(k, w);
    RestTogether(k, w);
    hide IsRun, AllPeaceful, ToldBy, CodecOk, AtRest, Inv;
  }

  /** ... and so does every post, ended or not. */
  lemma EveryPostComesThrough(k: Terms, steps: seq<(bool, Act)>, w: World, ofA: bool)
    requires TermsOk(k) && IsRun(k, Init(k), steps, w) && AllPeaceful(k, Init(k), steps, w) && AtRest(k, w)
    ensures EndOf(w, !ofA).hist.delivered == ToldBy(k, Init(k), steps, w, ofA, NOTHING).posts
  {
    DiesOnlyFor(k, steps, w, !ofA);
    assert Reachable(k, w);
    ReachableInv(k, w);
    RestTogether(k, w);
    hide IsRun, AllPeaceful, ToldBy, CodecOk, Inv;
    if w.a.status == Live { PostsComeThrough(k, steps, w, ofA); }
  }

  // ----- a peer that breaks the protocol -----

  /** Whatever a peer sends behind its `end`, or an `end` that was not agreed, delivers nothing and closes the port. */
  lemma NothingBehindAnEnd(o: Options, c: Codec, s: Side, e: Envelope, full: bool, others: nat)
    requires s.status == Live && ((s.half.peerEnded && (e.Message? || e.Frame?)) || (e.End? && HalfClose !in s.deal.caps))
    ensures var h := Handle(o, c, s, e, full, others);
            h.out == [Close] && h.side.status == Dead && h.side.hist.delivered == s.hist.delivered && h.side.outgoing == []
  {
  }

  /** Nothing is delivered from a port that is not in the table, whatever its peer sends. */
  lemma NothingWhenGone(o: Options, c: Codec, s: Side, e: Envelope, full: bool, others: nat)
    requires s.status != Live
    ensures Handle(o, c, s, e, full, others).side.hist.delivered == s.hist.delivered
  {
  }
}
