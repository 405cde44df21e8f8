/** What every run of a credit-multiplexed stream keeps, and what that means for its users. */
module CreditRuns {
  import opened Basics
  import opened FlowControl
  import opened CreditSide
  import opened CreditWorld
  import opened CreditSteps
  import U = Uint32

  predicate Can(w: World, byA: bool, act: Act) {
    if byA then Enabled(w.a, w.ba, false, act) && PumpOk(w.a) else Enabled(w.b, w.ab, true, act) && PumpOk(w.b)
  }

  /** One end does one thing: any interleaving of the two ends' blocks is a run. */
  function Step(k: Terms, w: World, byA: bool, act: Act): World
    requires TermsOk(k) && Can(w, byA, act)
  {
    if byA then
      var e := Perform(k.a, w.a, w.ba, false, act);
      World(e.side, w.b, w.ab + e.out, Remaining(w.ba, act))
    else
      var e := Perform(k.b, w.b, w.ab, true, act);
      World(w.a, e.side, Remaining(w.ab, act), w.ba + e.out)
  }

  lemma HandleStatus(c: Config, s: Side, inbox: seq<Frame>, server: bool, act: Act)
    requires ConfigOk(c) && Enabled(s, inbox, server, act) && PumpOk(s)
    requires act.Recv? ==> (inbox[0].Open? <==> s.status == NotYet)
    ensures var e := Perform(c, s, inbox, server, act);
            && e.side.status != NotYet && NoOpen(e.out) && (s.status == NotYet ==> act.Recv?)
  {
    hide Consume, Release, Reserve;
  }

  lemma HandshakeA(k: Terms, w: World, act: Act)
    requires TermsOk(k) && Handshake(k, w) && Can(w, true, act)
    ensures Handshake(k, Step(k, w, true, act))
    ensures w.a.status != NotYet && (act.Recv? ==> w.b.status != NotYet && !w.ba[0].Open?)
  {
    assert act.Recv? ==> w.ba[0] in w.ba;
    HandleStatus(k.a, w.a, w.ba, false, act);
    Joined(w.ab, Perform(k.a, w.a, w.ba, false, act).out);
    assert NoOpen(Remaining(w.ba, act));
    hide Perform, PumpOk;
  }

  lemma HandshakeB(k: Terms, w: World, act: Act)
    requires TermsOk(k) && Handshake(k, w) && Can(w, false, act)
    ensures Handshake(k, Step(k, w, false, act))
    ensures act.Recv? ==> w.a.status != NotYet && (w.ab[0].Open? <==> w.b.status == NotYet)
  {
    assert act.Recv? && w.b.status != NotYet ==> w.ab[0] in w.ab;
    HandleStatus(k.b, w.b, w.ab, true, act);
    Joined(w.ba, Perform(k.b, w.b, w.ab, true, act).out);
    assert NoOpen(w.ab) ==> NoOpen(Remaining(w.ab, act));
    hide Perform, PumpOk;
  }

  lemma Joined(x: seq<Frame>, y: seq<Frame>)
    requires NoOpen(y)
    ensures NoOpen(x) ==> NoOpen(x + y)
    ensures x != [] && NoOpen(x[1..]) ==> (x + y)[0] == x[0] && NoOpen((x + y)[1..])
  {
    if x != [] && NoOpen(x[1..]) { assert (x + y)[1..] == x[1..] + y; }
  }

  lemma StepKeeps(k: Terms, w: World, byA: bool, act: Act)
    requires TermsOk(k) && Inv(k, w) && Can(w, byA, act)
    ensures Inv(k, Step(k, w, byA, act))
  {
    hide Local, Dir, Perform, PumpOk, Handshake;
    if byA {
      HandshakeA(k, w, act);
      ActKept(k.a, FlowAB(k, w), FlowBA(k, w), false, act);
    } else {
      HandshakeB(k, w, act);
      ActKept(k.b, FlowBA(k, w), FlowAB(k, w), true, act);
    }
  }

  ghost predicate Steps(k: Terms, w: World, w': World)
    requires TermsOk(k)
  {
    exists byA, act :: Can(w, byA, act) && w' == Step(k, w, byA, act)
  }

  ghost predicate IsRun(k: Terms, worlds: seq<World>)
    requires TermsOk(k)
  {
    && |worlds| >= 1 && worlds[0] == Init(k)
    && forall i :: 0 <= i < |worlds| - 1 ==> Steps(k, worlds[i], worlds[i + 1])
  }

  ghost predicate Reachable(k: Terms, w: World)
    requires TermsOk(k)
  {
    exists worlds :: IsRun(k, worlds) && worlds[|worlds| - 1] == w
  }

  lemma {:induction false} RunKeeps(k: Terms, worlds: seq<World>)
    requires TermsOk(k) && IsRun(k, worlds)
    ensures Inv(k, worlds[|worlds| - 1])
    decreases |worlds|
  {
    var n := |worlds| - 1;
    if n == 0 {
      InitInv(k);
    } else {
      var past := worlds[..n];
      assert IsRun(k, past) by {
        forall i | 0 <= i < n - 1 ensures Steps(k, past[i], past[i + 1]) { assert past[i] == worlds[i] && past[i + 1] == worlds[i + 1]; }
      }
      hide Inv;
      RunKeeps(k, past);
      assert Steps(k, worlds[n - 1], worlds[n]);
      var byA, act :| Can(worlds[n - 1], byA, act) && worlds[n] == Step(k, worlds[n - 1], byA, act);
      StepKeeps(k, worlds[n - 1], byA, act);
    }
  }

  lemma ReachableInv(k: Terms, w: World)
    requires TermsOk(k) && Reachable(k, w)
    ensures Inv(k, w)
  {
    var worlds :| IsRun(k, worlds) && worlds[|worlds| - 1] == w;
    RunKeeps(k, worlds);
  }

  // ----- what it means -----

  /** One direction of a reachable stream: `toB` is the caller's request, the other its response. */
  function Direction(k: Terms, w: World, toB: bool): Flow {
    if toB then FlowAB(k, w) else FlowBA(k, w)
  }

  function ReceiverConfig(k: Terms, toB: bool): Config { if toB then k.b else k.a }

  lemma DirectionKept(k: Terms, w: World, toB: bool)
    requires TermsOk(k) && Reachable(k, w)
    ensures var f := Direction(k, w, toB);
            Dir(f) && Local(f.s) && Local(f.r) && f.window == U.Clamp(ReceiverConfig(k, toB).buffer)
  {
    ReachableInv(k, w);
    hide Dir, Local, Handshake;
  }

  /** Whatever the mtu and the windows, the consumer has read, in order, a beginning of what the input gave. */
  lemma ReadIsPrefix(k: Terms, w: World, toB: bool)
    requires TermsOk(k) && Reachable(k, w)
    ensures var f := Direction(k, w, toB); f.r.inb.read <= f.s.outb.offered
  {
    DirectionKept(k, w, toB);
    var f := Direction(k, w, toB);
    assert f.r.inb.read <= f.r.inb.read + Content(f.r.inb.slots) <= f.s.outb.sent <= f.s.outb.offered;
  }

  /** Whose close can have ended an input: only a server, its output over, closes its own. */
  predicate ClosedBy(w: World) {
    && CauseOf(w.a.inb) != Some(OwnClose)
    && (CauseOf(w.b.inb) == Some(OwnClose) ==> w.b.outb.done)
  }

  lemma CauseAfter(c: Config, s: Side, inbox: seq<Frame>, server: bool, act: Act)
    requires ConfigOk(c) && Enabled(s, inbox, server, act) && Local(s)
    requires act.Recv? && inbox[0].Open? ==> s.status == NotYet
    ensures var t := Perform(c, s, inbox, server, act).side;
            && (CauseOf(t.inb) == Some(OwnClose) ==> CauseOf(s.inb) == Some(OwnClose) || (server && s.outb.done))
            && (s.outb.done ==> t.outb.done)
  {
    assert EndLast(s.inb.slots);
    hide Consume, Reserve, Content, Units, Refuse, Handle, Teardown, PumpOk, QueueOk, CauseOf;
    match act
    case Recv(refused) => HeardCause(c, s, inbox[0], refused);
    case Take => TakenCause(s);
    case Cancel => LeftCause(s);
    case HandlerEnd => OverCause(s);
    case InputFail => TornCause(s.(outb := s.outb.(phase := Over)), OwnError);
    case Settle => SameInput(s, SettleOne(c, s).side);
    case Next => SameInput(s, AskNext(s));
    case _ =>
  }

  lemma TornCause(s: Side, cause: Cause)
    ensures var t := Teardown(s, cause);
            && (CauseOf(t.inb) == CauseOf(s.inb) || CauseOf(t.inb) == Some(cause))
            && t.outb.done == s.outb.done
  {
  }

  lemma SameInput(s: Side, t: Side)
    requires t.inb.slots == s.inb.slots && t.inb.outcome == s.inb.outcome
    ensures CauseOf(t.inb) == CauseOf(s.inb)
  {
  }

  lemma HeardCause(c: Config, s: Side, f: Frame, refused: bool)
    requires f.Open? ==> s.status == NotYet
    requires s.status == NotYet ==> s == Fresh(NotYet)
    ensures var t := Handle(c, s, f, refused).side;
            && (CauseOf(t.inb) == Some(OwnClose) ==> CauseOf(s.inb) == Some(OwnClose))
            && (s.outb.done ==> t.outb.done)
  {
    hide Release, Teardown;
    if f.Data? { TornCause(s.(inb := s.inb.(queued := s.inb.queued + |f.bytes|)), OwnError); }
    TornCause(s, PeerError);
    TornCause(s, PeerClose);
  }

  lemma TakenCause(s: Side)
    requires s.inb.slots != [] && s.inb.outcome.Running? && EndLast(s.inb.slots)
    ensures CauseOf(TakeSlot(s).inb) == CauseOf(s.inb) && TakeSlot(s).outb == s.outb
  {
    hide Refuse;
  }

  /** Who leaves early finished by no cause. */
  lemma LeftCause(s: Side)
    requires s.inb.hand.Some?
    ensures CauseOf(Leave(s).side.inb) == None && Leave(s).side.outb.done == s.outb.done
  {
    hide Refuse;
  }

  lemma OverCause(s: Side)
    requires PumpOk(s) && s.outb.phase.Over?
    ensures var t := HandlerDone(s).side; t.outb.done == s.outb.done && (CauseOf(t.inb) == CauseOf(s.inb) || s.outb.done)
  {
  }

  lemma ClosedByKept(k: Terms, w: World, byA: bool, act: Act)
    requires TermsOk(k) && Inv(k, w) && Can(w, byA, act) && ClosedBy(w)
    ensures ClosedBy(Step(k, w, byA, act))
  {
    if byA { HandshakeA(k, w, act); } else { HandshakeB(k, w, act); }
    hide Dir, Local, Perform, PumpOk, Handshake, CauseOf;
    if byA { CauseAfter(k.a, w.a, w.ba, false, act); } else { CauseAfter(k.b, w.b, w.ab, true, act); }
  }

  lemma {:induction false} RunClosedBy(k: Terms, worlds: seq<World>)
    requires TermsOk(k) && IsRun(k, worlds)
    ensures ClosedBy(worlds[|worlds| - 1])
    decreases |worlds|
  {
    var n := |worlds| - 1;
    if n > 0 {
      var past := worlds[..n];
      assert IsRun(k, past) by {
        forall i | 0 <= i < n - 1 ensures Steps(k, past[i], past[i + 1]) { assert past[i] == worlds[i] && past[i + 1] == worlds[i + 1]; }
      }
      hide Inv, ClosedBy;
      RunKeeps(k, past);
      RunClosedBy(k, past);
      assert Steps(k, worlds[n - 1], worlds[n]);
      var byA, act :| Can(worlds[n - 1], byA, act) && worlds[n] == Step(k, worlds[n - 1], byA, act);
      ClosedByKept(k, worlds[n - 1], byA, act);
    }
  }

  /**
   A loop that finishes without an error read the whole of a finished input exactly
   if it took the peer's END, even if a CLOSE followed. Behind a CLOSE it read what
   its sender abandoned; a server's own close, once its response is over, ends its
   request short of whatever is still to come.
   */
  lemma NormalFinish(k: Terms, w: World, toB: bool)
    requires TermsOk(k) && Reachable(k, w)
    requires Direction(k, w, toB).r.inb.outcome.Finished? && !Throws(Direction(k, w, toB).r.inb.outcome.cause)
    ensures var f := Direction(k, w, toB);
            && (f.r.inb.outcome.cause == PeerEnd <==> f.r.inb.done)
            && (f.r.inb.outcome.cause == PeerEnd ==> f.s.outb.done && f.r.inb.read == f.s.outb.offered)
            && (f.r.inb.outcome.cause == PeerClose ==> f.s.status == Gone && !f.s.outb.done)
            && (f.r.inb.outcome.cause == OwnClose ==> toB && f.r.outb.done)
  {
    DirectionKept(k, w, toB);
    var worlds :| IsRun(k, worlds) && worlds[|worlds| - 1] == w;
    RunClosedBy(k, worlds);
    var f := Direction(k, w, toB);
    hide DataOf, Grants, Ordered, HasFinal, NoData, Units, Credit, IsRun;
    assert f.r.inb.read + [] == f.r.inb.read;
    assert f.s.outb.sent + [] == f.s.outb.sent;
  }

  /**
   So a finish without an error is an END exactly when the sender ended, and then
   the whole was read: always for the caller's response, and for the server's
   request if its END was heard before the handler's output was over.
   */
  lemma EndsWithSender(k: Terms, w: World, toB: bool)
    requires TermsOk(k) && Reachable(k, w)
    requires Direction(k, w, toB).r.inb.outcome.Finished? && !Throws(Direction(k, w, toB).r.inb.outcome.cause)
    requires toB && Direction(k, w, toB).r.outb.done ==> Direction(k, w, toB).r.inb.done
    ensures var f := Direction(k, w, toB);
            && (f.r.inb.outcome.cause == PeerEnd <==> f.s.outb.done)
            && (f.s.outb.done ==> f.r.inb.read == f.s.outb.offered)
  {
    NormalFinish(k, w, toB);
    hide Reachable, TermsOk;
  }

  /** A server that learns its response is over ends its own request exactly if the END is not in yet. */
  lemma ServerCloses(k: Terms, w: World)
    requires TermsOk(k) && Reachable(k, w)
    requires w.b.status == Live && w.b.inb.outcome.Running? && Enabled(w.b, w.ab, true, HandlerEnd)
    ensures w.b.outb.done && Can(w, false, HandlerEnd)
    ensures CauseOf(Step(k, w, false, HandlerEnd).b.inb) == Some(OwnClose) <==> !w.b.inb.done
  {
    ReachableInv(k, w);
    hide Dir, Content, Units, Reachable;
    DoneIsCause(w.b);
  }

  /**
   The whole advertised window is always somewhere: credit, reserved bytes, bytes
   on the wire, bytes queued, credit owed, or credit on its way back.
   */
  lemma CreditConserved(k: Terms, w: World, toB: bool)
    requires TermsOk(k) && Reachable(k, w)
    ensures var f := Direction(k, w, toB);
            f.s.status != Gone && f.r.status == Live && f.r.inb.outcome.Running? ==>
              Spread(f) == Min(0xffff_ffff, ReceiverConfig(k, toB).buffer)
  {
    DirectionKept(k, w, toB);
    hide Faithful, Order, Local, Spread;
  }

  /** An honest peer's bytes never pass the receiver's buffer: its overflow teardown does not fire. */
  lemma NeverOverflows(k: Terms, w: World, toB: bool)
    requires TermsOk(k) && Reachable(k, w)
    requires var f := Direction(k, w, toB); f.r.status == Live && f.sr != [] && f.sr[0].Data?
    ensures var f := Direction(k, w, toB);
            && f.r.inb.queued + |f.sr[0].bytes| <= ReceiverConfig(k, toB).buffer
            && HandleData(ReceiverConfig(k, toB), f.r, f.sr[0].bytes).out == []
  {
    DirectionKept(k, w, toB);
    hide Dir, Local;
    DataFits(ReceiverConfig(k, toB), Direction(k, w, toB));
  }

  /** No grant is cut short by its 32-bit encoding while its receiver still reads. */
  lemma GrantsAreExact(k: Terms, w: World, toB: bool)
    requires TermsOk(k) && Reachable(k, w)
    requires var f := Direction(k, w, toB); f.r.status == Live && f.r.inb.outcome.Running? && f.r.inb.settling != []
    ensures var f := Direction(k, w, toB);
            var e := SettleOne(ReceiverConfig(k, toB), f.r);
            && e.side.inb.queued + e.side.inb.pending + Grants(e.out) == f.r.inb.queued + f.r.inb.pending
            && (e.side.inb.queued == 0 ==> e.side.inb.pending == 0)
  {
    DirectionKept(k, w, toB);
    var f := Direction(k, w, toB);
    SettleCredit(ReceiverConfig(k, toB), f);
    hide Dir, Local;
    ConsumeConserves(ReceiverConfig(k, toB).buffer, f.r.inb.pending, f.r.inb.settling[0].units, SettleOne(ReceiverConfig(k, toB), f.r).side.inb.queued == 0);
  }

  /** A pump parked in `reserve` always has something to wait for. */
  lemma ParkedIsAwaited(k: Terms, w: World, toB: bool)
    requires TermsOk(k) && Reachable(k, w)
    requires Direction(k, w, toB).s.status == Live && Direction(k, w, toB).s.outb.phase.Parked?
    ensures var f := Direction(k, w, toB);
            || DataOf(f.sr) != [] || Grants(f.rs) > 0 || f.r.inb.queued > 0
            || (f.r.status == NotYet && f.sr != [])
            || (f.r.status == Gone && f.rs != [])
  {
    ReachableInv(k, w);
    DirectionKept(k, w, toB);
    DirectionKept(k, w, !toB);
    var f := Direction(k, w, toB);
    if f.r.status == Gone { FinalSomewhere(Direction(k, w, !toB)); }
    hide DataOf, Grants, Ordered, HasFinal, NoData, Units, Content, Faithful;
    if f.r.status == Live {
      assert !f.s.outb.done;
      assert f.r.inb.outcome.Running?;
      assert f.s.outb.ledger.available == 0;
    }
  }

  /** Where one end is gone and the other not, a frame that ends it is on the way. */
  lemma FinalSomewhere(f: Flow)
    requires Dir(f) && Local(f.s) && Local(f.r) && f.s.status == Gone && f.r.status == Live
    ensures f.sr != [] && exists x :: x in f.sr && (Final(x) || x.EndFrame?)
  {
    if !HasFinal(f.sr) { assert EndFrame in f.sr; }
  }

  /**
   The two tables agree but for what is on the wire: if exactly one end holds the
   stream, its OPEN or a terminating frame is in flight towards the other.
   */
  lemma SlotsAgree(k: Terms, w: World)
    requires TermsOk(k) && Reachable(k, w)
    ensures w.a.status == Live && w.b.status != Live ==>
              || (w.ab != [] && w.ab[0].Open?)
              || (exists x :: x in w.ba && (Final(x) || x.EndFrame?))
    ensures w.b.status == Live && w.a.status != Live ==> exists x :: x in w.ab && (Final(x) || x.EndFrame?)
    ensures w.ab == [] && w.ba == [] ==> (w.a.status == Live <==> w.b.status == Live)
  {
    ReachableInv(k, w);
    if w.a.status == Live && w.b.status == Gone { FinalSomewhere(FlowBA(k, w)); }
    if w.b.status == Live && w.a.status == Gone { FinalSomewhere(FlowAB(k, w)); }
    hide Dir, Local;
  }

  // ----- a normal finish that is not the whole -----

  const ONE := Terms(Config(1, 1), Config(1, 1))

  function Pump(available: nat, phase: Phase, chunk: Bytes, offered: Bytes, sent: Bytes): Outbound {
    Outbound(Ledger(available, [], false), phase, chunk, offered, sent, false)
  }

  const NOTHING := Fresh(NotYet).inb

  /** The server's end once it sent the one byte the caller's window takes. */
  const ANSWERED := Side(Live, Pump(0, Waiting, [], [7], [7]), NOTHING)

  /** The caller's end, a byte of its request reserved and the answer queued. */
  const REQUESTING := Side(Live, Pump(0, Taken(1), [9], [9], []), NOTHING.(slots := [Value([7])], queued := 1))

  /** ... and after its consumer took the answer and left. */
  const LEFT := Side(Gone, Outbound(Ledger(0, [], true), Taken(1), [9], [9], [], false),
                     NOTHING.(outcome := Cancelled, queued := 1, read := [7]))

  lemma Extend(k: Terms, w: World, byA: bool, act: Act)
    requires TermsOk(k) && Reachable(k, w) && Can(w, byA, act)
    ensures Reachable(k, Step(k, w, byA, act))
  {
    var worlds :| IsRun(k, worlds) && worlds[|worlds| - 1] == w;
    var more := worlds + [Step(k, w, byA, act)];
    hide Step, Can;
    forall i | 0 <= i < |more| - 1 ensures Steps(k, more[i], more[i + 1]) {
      if i < |worlds| - 1 { assert Steps(k, worlds[i], worlds[i + 1]); }
    }
    assert IsRun(k, more);
  }

  lemma ServerAccepts()
    ensures Can(Init(ONE), false, Recv(false))
    ensures Step(ONE, Init(ONE), false, Recv(false)) == World(Fresh(Live), Side(Live, Pump(1, Waiting, [], [], []), NOTHING), [], [Ack(1)])
  {
    assert Init(ONE).ab == [Open(1)];
  }

  lemma ServerAnswers()
    ensures var w := World(Fresh(Live), Side(Live, Pump(1, Waiting, [], [], []), NOTHING), [], [Ack(1)]);
            && Can(w, false, Offer([7]))
            && Can(Step(ONE, w, false, Offer([7])), false, Send)
            && Step(ONE, Step(ONE, w, false, Offer([7])), false, Send) == World(Fresh(Live), ANSWERED, [], [Ack(1), Data([7])])
  {
    var w := World(Fresh(Live), Side(Live, Pump(1, Waiting, [], [], []), NOTHING), [], [Ack(1)]);
    var w2 := Step(ONE, w, false, Offer([7]));
    assert w2.b == Side(Live, Pump(0, Taken(1), [7], [7], []), NOTHING);
    assert [Ack(1)] + [] == [Ack(1)];
    assert [7][1..] == [] && [7][..1] == [7] && [] + [7] == [7];
    assert [Ack(1)] + [Data([7])] == [Ack(1), Data([7])];
  }

  lemma CallerSends()
    ensures var w := World(Fresh(Live), ANSWERED, [], [Ack(1), Data([7])]);
            && Can(w, true, Recv(false))
            && Can(Step(ONE, w, true, Recv(false)), true, Offer([9]))
            && Step(ONE, Step(ONE, w, true, Recv(false)), true, Offer([9]))
                 == World(Side(Live, Pump(0, Taken(1), [9], [9], []), NOTHING), ANSWERED, [], [Data([7])])
  {
    var w := World(Fresh(Live), ANSWERED, [], [Ack(1), Data([7])]);
    var w2 := Step(ONE, w, true, Recv(false));
    assert w2 == World(Side(Live, Pump(1, Waiting, [], [], []), NOTHING), ANSWERED, [], [Data([7])]);
  }

  lemma CallerHears()
    ensures var w := World(Side(Live, Pump(0, Taken(1), [9], [9], []), NOTHING), ANSWERED, [], [Data([7])]);
            Can(w, true, Recv(false)) && Step(ONE, w, true, Recv(false)) == World(REQUESTING, ANSWERED, [], [])
  {
  }

  lemma CallerLeaves()
    ensures var w := World(REQUESTING, ANSWERED, [], []);
            && Can(w, true, Take)
            && Can(Step(ONE, w, true, Take), true, Cancel)
            && Step(ONE, Step(ONE, w, true, Take), true, Cancel) == World(LEFT, ANSWERED, [CloseFrame], [])
  {
    var w := World(REQUESTING, ANSWERED, [], []);
    var w2 := Step(ONE, w, true, Take);
    assert w2.a.inb == NOTHING.(hand := Some(1), queued := 1, read := [7]);
    assert Refuse([]) == [];
  }

  lemma ServerFinishes()
    ensures var w := World(LEFT, ANSWERED, [CloseFrame], []);
            && Can(w, false, Recv(false))
            && var w2 := Step(ONE, w, false, Recv(false));
               Can(w2, false, Take) && Step(ONE, w2, false, Take).b.inb.outcome == Finished(PeerClose)
               && Step(ONE, w2, false, Take).b.inb.read == [] && Step(ONE, w2, false, Take).a == LEFT
  {
    var w := World(LEFT, ANSWERED, [CloseFrame], []);
    var w2 := Step(ONE, w, false, Recv(false));
    assert w2.b.inb == NOTHING.(slots := [Done(PeerClose)]);
  }

  /**
   When the caller leaves its response early, the CLOSE it sends lets the server's
   loop over the request finish normally, short of what the input had given.
   */
  lemma CloseCutsShort()
    ensures exists w :: Reachable(ONE, w) && w.b.inb.outcome == Finished(PeerClose) && w.b.inb.read != w.a.outb.offered
  {
    hide Step, Can, Reachable;
    FirstReachable();
    ServerAccepts();
    Extend(ONE, Init(ONE), false, Recv(false));
    var w1 := World(Fresh(Live), Side(Live, Pump(1, Waiting, [], [], []), NOTHING), [], [Ack(1)]);
    ServerAnswers();
    Extend(ONE, w1, false, Offer([7]));
    Extend(ONE, Step(ONE, w1, false, Offer([7])), false, Send);
    var w3 := World(Fresh(Live), ANSWERED, [], [Ack(1), Data([7])]);
    CallerSends();
    Extend(ONE, w3, true, Recv(false));
    Extend(ONE, Step(ONE, w3, true, Recv(false)), true, Offer([9]));
    CallerHears();
    Extend(ONE, World(Side(Live, Pump(0, Taken(1), [9], [9], []), NOTHING), ANSWERED, [], [Data([7])]), true, Recv(false));
    var w6 := World(REQUESTING, ANSWERED, [], []);
    CallerLeaves();
    Extend(ONE, w6, true, Take);
    Extend(ONE, Step(ONE, w6, true, Take), true, Cancel);
    var w8 := World(LEFT, ANSWERED, [CloseFrame], []);
    ServerFinishes();
    Extend(ONE, w8, false, Recv(false));
    Extend(ONE, Step(ONE, w8, false, Recv(false)), false, Take);
  }

  /** The server's end once it answered with nothing, and no longer wants the request. */
  const CLOSED_OWN := Side(Gone, Outbound(Ledger(1, [], true), Over, [], [], [], true), NOTHING.(slots := [Done(OwnClose)]))

  const ANSWERED_NOTHING := Side(Live, Outbound(Ledger(1, [], false), Over, [], [], [], true), NOTHING)

  /** The caller's end, its one byte and its END sent. */
  const ASKED := Side(Live, Outbound(Ledger(0, [], false), Over, [], [9], [9], true), NOTHING)

  lemma ServerCloseSteps()
    ensures var w := World(Fresh(Live), Side(Live, Pump(1, Waiting, [], [], []), NOTHING), [], [Ack(1)]);
            && Can(w, false, InputEnd)
            && Can(Step(ONE, w, false, InputEnd), false, HandlerEnd)
            && Step(ONE, Step(ONE, w, false, InputEnd), false, HandlerEnd)
                 == World(Fresh(Live), CLOSED_OWN, [], [Ack(1), EndFrame, CloseFrame])
  {
    var w := World(Fresh(Live), Side(Live, Pump(1, Waiting, [], [], []), NOTHING), [], [Ack(1)]);
    var w2 := Step(ONE, w, false, InputEnd);
    assert [Ack(1)] + [EndFrame] == [Ack(1), EndFrame];
    assert w2 == World(Fresh(Live), ANSWERED_NOTHING, [], [Ack(1), EndFrame]);
    hide Step;
    ServerLeaves();
  }

  lemma ServerLeaves()
    ensures var w := World(Fresh(Live), ANSWERED_NOTHING, [], [Ack(1), EndFrame]);
            && Can(w, false, HandlerEnd)
            && Step(ONE, w, false, HandlerEnd) == World(Fresh(Live), CLOSED_OWN, [], [Ack(1), EndFrame, CloseFrame])
  {
    assert [Ack(1), EndFrame] + [CloseFrame] == [Ack(1), EndFrame, CloseFrame];
    assert [] + [Done(OwnClose)] == [Done(OwnClose)];
  }

  lemma CallerAsks()
    ensures var w := World(Fresh(Live), CLOSED_OWN, [], [Ack(1), EndFrame, CloseFrame]);
            && Can(w, true, Recv(false))
            && var w2 := Step(ONE, w, true, Recv(false));
               && Can(w2, true, Offer([9])) && Can(Step(ONE, w2, true, Offer([9])), true, Send)
               && Step(ONE, Step(ONE, w2, true, Offer([9])), true, Send)
                    == World(Side(Live, Pump(0, Waiting, [], [9], [9]), NOTHING), CLOSED_OWN, [Data([9])], [EndFrame, CloseFrame])
  {
    var w := World(Fresh(Live), CLOSED_OWN, [], [Ack(1), EndFrame, CloseFrame]);
    var w2 := Step(ONE, w, true, Recv(false));
    assert w2 == World(Side(Live, Pump(1, Waiting, [], [], []), NOTHING), CLOSED_OWN, [], [EndFrame, CloseFrame]);
    var w3 := Step(ONE, w2, true, Offer([9]));
    assert w3.a == Side(Live, Pump(0, Taken(1), [9], [9], []), NOTHING);
    assert [9][1..] == [] && [9][..1] == [9] && [] + [9] == [9];
    var none: seq<Frame> := [];
    assert none + [Data([9])] == [Data([9])];
  }

  lemma CallerEnds()
    ensures var w := World(Side(Live, Pump(0, Waiting, [], [9], [9]), NOTHING), CLOSED_OWN, [Data([9])], [EndFrame, CloseFrame]);
            && Can(w, true, InputEnd)
            && Step(ONE, w, true, InputEnd) == World(ASKED, CLOSED_OWN, [Data([9]), EndFrame], [EndFrame, CloseFrame])
  {
    assert [Data([9])] + [EndFrame] == [Data([9]), EndFrame];
  }

  lemma ServerReadsNothing()
    ensures var w := World(ASKED, CLOSED_OWN, [Data([9]), EndFrame], [EndFrame, CloseFrame]);
            && Can(w, false, Take)
            && var w2 := Step(ONE, w, false, Take);
               w2.b.inb.outcome == Finished(OwnClose) && w2.b.inb.read == [] && w2.a == ASKED
  {
  }

  /**
   When the server's response is over before the request, a reader of the request
   finishes normally though the sender ended, and bytes are missing.
   */
  lemma OwnCloseCutsShort()
    ensures exists w :: Reachable(ONE, w) && w.b.inb.outcome == Finished(OwnClose) && w.a.outb.done && w.b.inb.read != w.a.outb.offered
  {
    hide Step, Can, Reachable;
    FirstReachable();
    ServerAccepts();
    Extend(ONE, Init(ONE), false, Recv(false));
    var w1 := World(Fresh(Live), Side(Live, Pump(1, Waiting, [], [], []), NOTHING), [], [Ack(1)]);
    ServerCloseSteps();
    Extend(ONE, w1, false, InputEnd);
    Extend(ONE, Step(ONE, w1, false, InputEnd), false, HandlerEnd);
    var w2 := World(Fresh(Live), CLOSED_OWN, [], [Ack(1), EndFrame, CloseFrame]);
    CallerAsks();
    Extend(ONE, w2, true, Recv(false));
    Extend(ONE, Step(ONE, w2, true, Recv(false)), true, Offer([9]));
    Extend(ONE, Step(ONE, Step(ONE, w2, true, Recv(false)), true, Offer([9])), true, Send);
    var w3 := World(Side(Live, Pump(0, Waiting, [], [9], [9]), NOTHING), CLOSED_OWN, [Data([9])], [EndFrame, CloseFrame]);
    CallerEnds();
    Extend(ONE, w3, true, InputEnd);
    var w4 := World(ASKED, CLOSED_OWN, [Data([9]), EndFrame], [EndFrame, CloseFrame]);
    ServerReadsNothing();
    Extend(ONE, w4, false, Take);
  }

  lemma FirstReachable()
    ensures Reachable(ONE, Init(ONE))
  {
    assert IsRun(ONE, [Init(ONE)]);
  }
}
