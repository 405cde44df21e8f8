/**
 How a stream's two loops finish, told from the acts of a run: what each input
 gave, whether it ended or failed, and who left or stopped.
 */
module CreditEnds {
  import opened Basics
  import opened FlowControl
  import opened CreditSide
  import opened CreditWorld
  import opened CreditSteps
  import opened CreditRuns
  import U = Uint32

  /**
   One end's acts so far: what its input gave, ended or threw on the live stream,
   whether its consumer left early, and did so before it knew how the other input
   ends (`quit`), whether its handler's output was over before the request, and
   whether it refused the stream.
   */
  datatype Told = Told(offered: Bytes, ended: bool, failed: bool, left: bool, quit: bool, over: bool, refused: bool)

  const SILENT := Told([], false, false, false, false, false, false)

  function Telling(s: Side, inbox: seq<Frame>, act: Act, t: Told): Told {
    match act
    case Offer(chunk) => if s.status == Live then t.(offered := t.offered + chunk) else t
    case InputEnd => if s.status == Live then t.(ended := true) else t
    case InputFail => if s.status == Live then t.(failed := true) else t
    case HandlerEnd => if s.status == Live && !s.inb.done then t.(over := true) else t
    case Cancel => t.(left := true, quit := t.quit || (s.status == Live && CauseOf(s.inb) == None))
    case Recv(refused) => if refused && inbox != [] && inbox[0].Open? && s.status == NotYet then t.(refused := true) else t
    case _ => t
  }

  // ----- one end -----

  /** Its own part: what it counts as given and ended is what the acts say, and so are the ends it made itself. */
  predicate Own(s: Side, t: Told) {
    && s.outb.offered == t.offered && (s.outb.done <==> t.ended)
    && (t.failed || t.refused || t.over || t.quit ==> s.status == Gone)
    && (t.left ==> s.inb.outcome.Cancelled?)
    && (t.failed ==> !t.ended)
    && (CauseOf(s.inb) == Some(OwnClose) ==> t.over)
    && (CauseOf(s.inb) == Some(OwnError) ==> t.failed)
  }

  /** What a frame an end puts on the wire tells of it. */
  predicate Says(f: Frame, t: Told) {
    match f
    case EndFrame => t.ended
    case ErrorFrame => t.failed || t.refused
    case CloseFrame => (t.left || t.over) && !t.failed
    case _ => true
  }

  /** What a cause heard from the peer tells of the peer. */
  predicate Tells(c: Option<Cause>, t: Told) {
    match c
    case Some(PeerEnd) => t.ended
    case Some(PeerError) => t.failed || t.refused
    case Some(PeerClose) => (t.left || t.over) && !t.failed
    case _ => true
  }

  predicate Overflows(c: Config, s: Side, inbox: seq<Frame>, act: Act) {
    act.Recv? && inbox != [] && inbox[0].Data? && s.status == Live && s.inb.queued + |inbox[0].bytes| > c.buffer
  }

  function Heard(f: Frame): Option<Cause> {
    match f
    case EndFrame => Some(PeerEnd)
    case ErrorFrame => Some(PeerError)
    case CloseFrame => Some(PeerClose)
    case _ => None
  }

  /** A cause is kept, or made by this end's own act, or heard. */
  predicate Follows(before: Option<Cause>, after: Option<Cause>, t: Told, inbox: seq<Frame>, act: Act) {
    || after == before || after == None
    || (after == Some(OwnClose) && t.over) || (after == Some(OwnError) && t.failed)
    || (act.Recv? && inbox != [] && after == Heard(inbox[0]))
  }

  lemma DoneInCause(i: Inbound, cause: Cause)
    ensures CauseOf(DoneIn(i, cause)) == CauseOf(i) || CauseOf(DoneIn(i, cause)) == Some(cause)
    ensures DoneIn(i, cause).outcome == i.outcome
  {
  }

  lemma HandleFollows(c: Config, s: Side, inbox: seq<Frame>, refused: bool, t: Told)
    requires inbox != [] && Local(s) && !Overflows(c, s, inbox, Recv(refused))
    requires inbox[0].Open? ==> s.status == NotYet
    ensures var e := Handle(c, s, inbox[0], refused);
            var u := Telling(s, inbox, Recv(refused), t);
            && Follows(CauseOf(s.inb), CauseOf(e.side.inb), u, inbox, Recv(refused))
            && (forall f :: f in e.out ==> Says(f, u))
  {
    hide Release, Teardown, Local, CauseOf, DoneIn;
    var f := inbox[0];
    if f.Data? { TakenIn(c, s, f.bytes); }
    TornCause(s, PeerError);
    TornCause(s, PeerClose);
    DoneInCause(s.inb.(done := true), PeerEnd);
    SameCause(s.inb, s.inb.(done := true));
    FreshCause();
    LocalNotYet(s);
  }

  lemma HandleInput(c: Config, s: Side, inbox: seq<Frame>, refused: bool, t: Told)
    requires inbox != [] && Local(s) && !Overflows(c, s, inbox, Recv(refused))
    requires inbox[0].Open? ==> s.status == NotYet
    ensures var e := Handle(c, s, inbox[0], refused);
            var u := Telling(s, inbox, Recv(refused), t);
            && e.side.outb.offered == s.outb.offered && e.side.outb.done == s.outb.done
            && (s.status == Gone ==> e.side.status == Gone) && (u.refused && !t.refused ==> e.side.status == Gone)
            && (s.inb.outcome.Cancelled? ==> e.side.inb.outcome.Cancelled?)
            && u == t.(refused := u.refused)
  {
    hide Release, Teardown, Local, CauseOf, DoneIn;
    var f := inbox[0];
    if f.Data? { TakenIn(c, s, f.bytes); }
    TornOut(s, PeerError);
    TornOut(s, PeerClose);
    DoneInCause(s.inb.(done := true), PeerEnd);
    LocalNotYet(s);
  }

  lemma LocalNotYet(s: Side)
    requires Local(s)
    ensures s.status == NotYet ==> s == Fresh(NotYet)
  {
  }

  lemma FreshCause()
    ensures CauseOf(Fresh(NotYet).inb) == None && CauseOf(Fresh(Live).inb) == None
  {
  }

  lemma SameCause(i: Inbound, j: Inbound)
    requires i.slots == j.slots && i.outcome == j.outcome
    ensures CauseOf(i) == CauseOf(j)
  {
  }

  lemma TornOut(s: Side, cause: Cause)
    ensures var t := Teardown(s, cause);
            t.status == Gone && t.outb.offered == s.outb.offered && t.outb.done == s.outb.done && t.inb.outcome == s.inb.outcome
  {
  }

  lemma TakenIn(c: Config, s: Side, b: Bytes)
    requires s.status == Live ==> s.inb.queued + |b| <= c.buffer
    ensures s.status == Live ==>
              var t := HandleData(c, s, b);
              && (CauseOf(t.side.inb) == CauseOf(s.inb) || CauseOf(t.side.inb) == None)
              && t.out == [] && t.side.outb == s.outb && t.side.status == s.status && t.side.inb.outcome == s.inb.outcome
  {
  }

  lemma LocalPump(s: Side)
    requires Local(s)
    ensures PumpOk(s) && EndLast(s.inb.slots) && (s.status == NotYet ==> s == Fresh(NotYet))
    ensures s.outb.done ==> s.outb.phase.Over?
  {
  }

  /** An act of this end's own: it hears nothing. */
  lemma OwnFollows(c: Config, s: Side, inbox: seq<Frame>, server: bool, act: Act, t: Told)
    requires ConfigOk(c) && Enabled(s, inbox, server, act) && PumpOk(s) && EndLast(s.inb.slots) && Own(s, t) && !act.Recv?
    ensures var e := Perform(c, s, inbox, server, act);
            var u := Telling(s, inbox, act, t);
            && Follows(CauseOf(s.inb), CauseOf(e.side.inb), u, inbox, act)
            && (forall f :: f in e.out ==> Says(f, u))
  {
    hide Consume, Reserve, Content, Units, Refuse, Handle, Teardown, QueueOk, CauseOf, Release, LedgerOk;
    match act
    case Take => TakenCause(s);
    case Cancel => LeaveFollows(s);
    case HandlerEnd => OverFollows(s);
    case InputFail =>
      var x := s.(outb := s.outb.(phase := Over));
      TornCause(x, OwnError);
      SameInput(s, x);
    case InputEnd => EndFollows(s);
    case Settle => SettleFollows(c, s);
    case Next => SameInput(s, AskNext(s));
    case Offer(chunk) => SameInput(s, OfferChunk(c, s, chunk));
    case Send => SendFollows(c, s);
  }

  lemma OwnInput(c: Config, s: Side, inbox: seq<Frame>, server: bool, act: Act, t: Told)
    requires ConfigOk(c) && Enabled(s, inbox, server, act) && PumpOk(s) && Own(s, t) && !act.Recv?
    ensures var e := Perform(c, s, inbox, server, act);
            var u := Telling(s, inbox, act, t);
            && e.side.outb.offered == u.offered && (e.side.outb.done <==> u.ended)
            && (s.status == Gone ==> e.side.status == Gone)
            && (u.failed ==> !u.ended)
  {
    hide Consume, Reserve, Content, Units, Refuse, Handle, Teardown, QueueOk, CauseOf, Release, LedgerOk;
    match act
    case Cancel => LeaveFollows(s);
    case HandlerEnd => OverFollows(s);
    case InputFail => TornOut(s.(outb := s.outb.(phase := Over)), OwnError);
    case InputEnd => EndFollows(s);
    case Settle => SettleFollows(c, s);
    case Send => SendFollows(c, s);
    case _ =>
  }

  /** Who fails, stops or leaves gives the stream up; who left reads no more. */
  lemma OwnMarks(c: Config, s: Side, inbox: seq<Frame>, server: bool, act: Act, t: Told)
    requires ConfigOk(c) && Enabled(s, inbox, server, act) && PumpOk(s) && EndLast(s.inb.slots) && Own(s, t) && !act.Recv?
    ensures var e := Perform(c, s, inbox, server, act);
            var u := Telling(s, inbox, act, t);
            && (u.failed != t.failed || u.refused != t.refused || u.over != t.over || u.quit != t.quit ==> e.side.status == Gone)
            && (u.left ==> e.side.inb.outcome.Cancelled?)
  {
    hide Consume, Reserve, Content, Units, Refuse, Handle, Teardown, QueueOk, CauseOf, Release, LedgerOk, PumpOk;
    match act
    case Cancel =>
      LeaveFollows(s);
      if CauseOf(s.inb) == None { QuitFollows(s); }
    case HandlerEnd =>
      OverFollows(s);
      TornOut(s, OwnClose);
    case InputFail => TornOut(s.(outb := s.outb.(phase := Over)), OwnError);
    case InputEnd => SameOutcome(s);
    case _ =>
  }

  lemma SameOutcome(s: Side)
    requires s.outb.phase.Waiting?
    ensures InputEnds(s).side.inb == s.inb
  {
  }

  /** What any act does to an end's cause and input, and what its frames say. */
  lemma ActFollows(c: Config, s: Side, inbox: seq<Frame>, server: bool, act: Act, t: Told)
    requires ConfigOk(c) && Enabled(s, inbox, server, act) && Local(s) && PumpOk(s) && Own(s, t) && !Overflows(c, s, inbox, act)
    requires act.Recv? && inbox[0].Open? ==> s.status == NotYet
    ensures var e := Perform(c, s, inbox, server, act);
            var u := Telling(s, inbox, act, t);
            && Follows(CauseOf(s.inb), CauseOf(e.side.inb), u, inbox, act)
            && (forall f :: f in e.out ==> Says(f, u))
            && e.side.outb.offered == u.offered && (e.side.outb.done <==> u.ended)
            && (s.status == Gone ==> e.side.status == Gone)
            && (u.failed != t.failed || u.refused != t.refused || u.over != t.over || u.quit != t.quit ==> e.side.status == Gone)
            && (u.left ==> e.side.inb.outcome.Cancelled?)
            && (u.failed ==> !u.ended)
  {
    LocalPump(s);
    if act.Recv? {
      HandleFollows(c, s, inbox, act.refused, t);
      HandleInput(c, s, inbox, act.refused, t);
      hide Handle, CauseOf, Local, PumpOk, Follows, Says;
    } else {
      OwnFollows(c, s, inbox, server, act, t);
      OwnInput(c, s, inbox, server, act, t);
      OwnMarks(c, s, inbox, server, act, t);
      hide Perform, CauseOf, Local, PumpOk, Follows, Says, Telling, Enabled;
    }
  }

  lemma LeaveFollows(s: Side)
    requires s.inb.hand.Some?
    ensures var e := Leave(s);
            && CauseOf(e.side.inb) == None && (forall f :: f in e.out ==> f == CloseFrame) && e.side.inb.outcome.Cancelled?
            && (e.out != [] ==> s.status != Gone) && e.side.outb.offered == s.outb.offered && e.side.outb.done == s.outb.done
            && (s.status == Gone ==> e.side.status == Gone)
  {
    hide Refuse;
  }

  /** Who leaves before the end of the input is known gives the stream up. */
  lemma QuitFollows(s: Side)
    requires s.inb.hand.Some? && EndLast(s.inb.slots) && CauseOf(s.inb) == None && s.inb.outcome.Running?
    ensures Leave(s).side.status == Gone
  {
    hide Refuse;
  }

  lemma OverFollows(s: Side)
    ensures var e := HandlerDone(s);
            && (s.inb.done || s.status == Gone ==> e == Effect(s, []))
            && (!s.inb.done && s.status != Gone ==> e.side.status == Gone && e.out == [CloseFrame])
            && (CauseOf(e.side.inb) == CauseOf(s.inb) || CauseOf(e.side.inb) == Some(OwnClose))
            && e.side.outb.offered == s.outb.offered && e.side.outb.done == s.outb.done
  {
    TornCause(s, OwnClose);
    TornOut(s, OwnClose);
    hide Teardown, CauseOf;
  }

  lemma EndFollows(s: Side)
    requires s.outb.phase.Waiting?
    ensures var e := InputEnds(s);
            && CauseOf(e.side.inb) == CauseOf(s.inb) && e.side.outb.offered == s.outb.offered
            && (s.status == Gone ==> e.side.status == Gone && e.side.outb.done == s.outb.done && e.out == [])
            && (s.status != Gone ==> e.side.outb.done && e.out == [EndFrame])
  {
    SameInput(s, InputEnds(s).side);
    hide CauseOf;
  }

  lemma SettleFollows(c: Config, s: Side)
    requires s.inb.settling != []
    ensures var e := SettleOne(c, s);
            && CauseOf(e.side.inb) == CauseOf(s.inb) && e.side.outb == s.outb && e.side.status == s.status
            && (forall f :: f in e.out ==> f.Ack?)
  {
    SameInput(s, SettleOne(c, s).side);
    hide CauseOf;
  }

  lemma SendFollows(c: Config, s: Side)
    requires ConfigOk(c) && s.outb.phase.Taken? && s.outb.phase.units <= |s.outb.chunk|
    ensures var e := SendPiece(c, s);
            && e.side.inb == s.inb && e.side.outb.offered == s.outb.offered && e.side.outb.done == s.outb.done && e.side.status == s.status
            && (forall f :: f in e.out ==> f.Data?)
  {
    hide Reserve;
  }

  // ----- the pair -----

  /** A direction: every frame on the wire, and the reader's cause, is true of the sender. */
  predicate Said(f: Flow, t: Told) {
    && (forall x :: x in f.sr ==> Says(x, t))
    && Tells(CauseOf(f.r.inb), t)
  }

  /** More has happened; a failure only to a live stream. */
  predicate Grown(s: Side, t: Told, u: Told) {
    && (t.ended ==> u.ended) && (t.failed ==> u.failed) && (t.left ==> u.left) && (t.over ==> u.over) && (t.refused ==> u.refused)
    && (u.failed && !t.failed ==> s.status == Live)
  }

  lemma TellingGrows(s: Side, inbox: seq<Frame>, act: Act, t: Told)
    ensures Grown(s, t, Telling(s, inbox, act, t))
  {
  }

  lemma SenderSaid(f: Flow, t: Told, u: Told, out: seq<Frame>)
    requires Order(f) && Faithful(f) && Said(f, t) && Grown(f.s, t, u)
    requires forall x :: x in out ==> Says(x, u)
    ensures Said(f.(sr := f.sr + out), u)
  {
    forall x | x in f.sr + out ensures Says(x, u) {
      if x in f.sr { assert Says(x, t); }
    }
    hide Ordered, NoData, DataOf, Content;
  }

  lemma ReaderSaid(f: Flow, r: Side, t: Told, u: Told, act: Act)
    requires Said(f, t) && Follows(CauseOf(f.r.inb), CauseOf(r.inb), u, f.sr, act)
    ensures Said(f.(r := r, sr := Remaining(f.sr, act)), t)
  {
    if f.sr != [] { assert Says(f.sr[0], t); }
    assert forall x :: x in Remaining(f.sr, act) ==> x in f.sr;
  }

  predicate AllSaid(k: Terms, w: World, ta: Told, tb: Told) {
    && Own(w.a, ta) && Own(w.b, tb) && Said(FlowAB(k, w), ta) && Said(FlowBA(k, w), tb)
  }

  lemma OwnKept(c: Config, s: Side, inbox: seq<Frame>, server: bool, act: Act, t: Told)
    requires ConfigOk(c) && Enabled(s, inbox, server, act) && Local(s) && PumpOk(s) && Own(s, t) && !Overflows(c, s, inbox, act)
    requires act.Recv? && inbox[0].Open? ==> s.status == NotYet
    ensures Own(Perform(c, s, inbox, server, act).side, Telling(s, inbox, act, t))
  {
    ActFollows(c, s, inbox, server, act, t);
    hide Perform, PumpOk, Local, CauseOf;
  }

  lemma EndTold(c: Config, fo: Flow, fi: Flow, server: bool, act: Act, t: Told, other: Told)
    requires ConfigOk(c) && Dir(fo) && Dir(fi) && Local(fo.s) && PumpOk(fo.s) && Enabled(fo.s, fi.sr, server, act)
    requires fi == Flow(fo.r, fo.s, fo.rs, fo.sr, U.Clamp(c.buffer))
    requires act.Recv? && fi.sr[0].Open? ==> fo.s.status == NotYet
    requires Own(fo.s, t) && Said(fo, t) && Said(fi, other)
    ensures var e := Perform(c, fo.s, fi.sr, server, act);
            var u := Telling(fo.s, fi.sr, act, t);
            && Own(e.side, u)
            && Said(fo.(s := e.side, sr := fo.sr + e.out), u)
            && Said(fi.(r := e.side, sr := Remaining(fi.sr, act)), other)
  {
    if act.Recv? && fi.sr[0].Data? && fo.s.status == Live { DataFits(c, fi); }
    ActFollows(c, fo.s, fi.sr, server, act, t);
    OwnKept(c, fo.s, fi.sr, server, act, t);
    TellingGrows(fo.s, fi.sr, act, t);
    var e := Perform(c, fo.s, fi.sr, server, act);
    var u := Telling(fo.s, fi.sr, act, t);
    hide Perform, PumpOk, Local, CauseOf, Credit, Said, Own, Follows, Grown, Telling, Says;
    SenderSaid(fo, t, u, e.out);
    ReaderSaid(fi, e.side, other, u, act);
    SaidOf(fo, e.side, fo.sr + e.out, u);
  }

  /** It is about the pipe and the reader alone. */
  lemma SaidOf(f: Flow, s: Side, sr: seq<Frame>, t: Told)
    requires Said(f.(sr := sr), t)
    ensures Said(f.(s := s, sr := sr), t)
  {
  }

  lemma PartsOf(k: Terms, w: World)
    requires TermsOk(k) && Inv(k, w)
    ensures Local(w.a) && Local(w.b) && Dir(FlowAB(k, w)) && Dir(FlowBA(k, w)) && Handshake(k, w)
  {
  }

  lemma StepTold(k: Terms, w: World, byA: bool, act: Act, ta: Told, tb: Told)
    requires TermsOk(k) && Inv(k, w) && Can(w, byA, act) && AllSaid(k, w, ta, tb)
    ensures AllSaid(k, Step(k, w, byA, act),
                    if byA then Telling(w.a, w.ba, act, ta) else ta, if byA then tb else Telling(w.b, w.ab, act, tb))
  {
    PartsOf(k, w);
    var ab, ba := FlowAB(k, w), FlowBA(k, w);
    hide Inv, Dir, Local, Perform, PumpOk, Handshake, Said, Own, Telling, Enabled;
    if byA {
      HandshakeA(k, w, act);
      EndTold(k.a, ab, ba, false, act, ta, tb);
    } else {
      HandshakeB(k, w, act);
      EndTold(k.b, ba, ab, true, act, tb, ta);
    }
    SaidApart(k, w, byA, act, if byA then Telling(w.a, w.ba, act, ta) else Telling(w.b, w.ab, act, tb), if byA then tb else ta);
  }

  lemma SaidApart(k: Terms, w: World, byA: bool, act: Act, mine: Told, other: Told)
    requires TermsOk(k) && Can(w, byA, act)
    requires var fo, fi := if byA then FlowAB(k, w) else FlowBA(k, w), if byA then FlowBA(k, w) else FlowAB(k, w);
             var e := Perform(if byA then k.a else k.b, fo.s, fi.sr, !byA, act);
             Said(fo.(s := e.side, sr := fo.sr + e.out), mine) && Said(fi.(r := e.side, sr := Remaining(fi.sr, act)), other)
    ensures var w' := Step(k, w, byA, act);
            && Said(FlowAB(k, w'), if byA then mine else other) && Said(FlowBA(k, w'), if byA then other else mine)
  {
    hide Perform, PumpOk;
  }

  // ----- runs, with their acts -----

  ghost predicate Path(k: Terms, w: World, acts: seq<(bool, Act)>, w': World)
    requires TermsOk(k)
    decreases |acts|
  {
    if acts == [] then w == w'
    else Can(w, acts[0].0, acts[0].1) && Path(k, Step(k, w, acts[0].0, acts[0].1), acts[1..], w')
  }

  /** What each end did along a path: `(caller, server)`. */
  ghost function ToldBy(k: Terms, w: World, acts: seq<(bool, Act)>, w': World, ta: Told, tb: Told): (Told, Told)
    requires TermsOk(k) && Path(k, w, acts, w')
    decreases |acts|
  {
    if acts == [] then (ta, tb)
    else
      var (byA, act) := acts[0];
      ToldBy(k, Step(k, w, byA, act), acts[1..], w',
             if byA then Telling(w.a, w.ba, act, ta) else ta, if byA then tb else Telling(w.b, w.ab, act, tb))
  }

  lemma {:induction false} PathTold(k: Terms, w: World, acts: seq<(bool, Act)>, w': World, ta: Told, tb: Told)
    requires TermsOk(k) && Inv(k, w) && Path(k, w, acts, w') && AllSaid(k, w, ta, tb)
    ensures var (ua, ub) := ToldBy(k, w, acts, w', ta, tb); Inv(k, w') && AllSaid(k, w', ua, ub)
    decreases |acts|
  {
    if acts != [] {
      var (byA, act) := acts[0];
      hide Inv, AllSaid, Step, Telling, Can;
      StepKeeps(k, w, byA, act);
      StepTold(k, w, byA, act, ta, tb);
      PathTold(k, Step(k, w, byA, act), acts[1..], w',
               if byA then Telling(w.a, w.ba, act, ta) else ta, if byA then tb else Telling(w.b, w.ab, act, tb));
    }
  }

  lemma {:induction false} PathReaches(k: Terms, w: World, acts: seq<(bool, Act)>, w': World)
    requires TermsOk(k) && Reachable(k, w) && Path(k, w, acts, w')
    ensures Reachable(k, w')
    decreases |acts|
  {
    if acts != [] {
      hide Reachable, Step, Can;
      Extend(k, w, acts[0].0, acts[0].1);
      PathReaches(k, Step(k, w, acts[0].0, acts[0].1), acts[1..], w');
    }
  }

  lemma InitSaid(k: Terms)
    requires TermsOk(k)
    ensures Inv(k, Init(k)) && AllSaid(k, Init(k), SILENT, SILENT) && Reachable(k, Init(k))
  {
    InitInv(k);
    assert IsRun(k, [Init(k)]);
    FreshCause();
    hide Inv;
  }

  /** A stream's run from the call, and what its two ends did in it. */
  ghost predicate Ran(k: Terms, acts: seq<(bool, Act)>, w: World, ta: Told, tb: Told)
    requires TermsOk(k)
  {
    Path(k, Init(k), acts, w) && ToldBy(k, Init(k), acts, w, SILENT, SILENT) == (ta, tb)
  }

  lemma RanTold(k: Terms, acts: seq<(bool, Act)>, w: World, ta: Told, tb: Told)
    requires TermsOk(k) && Ran(k, acts, w, ta, tb)
    ensures Inv(k, w) && AllSaid(k, w, ta, tb) && Reachable(k, w)
  {
    InitSaid(k);
    hide Inv, AllSaid, Reachable;
    PathTold(k, Init(k), acts, w, SILENT, SILENT);
    PathReaches(k, Init(k), acts, w);
  }

  function Of(ta: Told, tb: Told, a: bool): Told { if a then ta else tb }

  /**
   Every finish told from the acts. `toB`: the caller's request, read by the
   server; otherwise the server's response, read by the caller. By an END only if
   the input ended, and then all it gave was read; by a CLOSE only if the sender's
   consumer left or its handler's output was over, and never behind an input that
   threw; by a heard ERROR only if the input threw or the stream was refused; by
   the reader's own close only if its own output was over; by its own error only
   if its own input threw.
   */
  lemma FinishedBy(k: Terms, acts: seq<(bool, Act)>, w: World, ta: Told, tb: Told, toB: bool)
    requires TermsOk(k) && Ran(k, acts, w, ta, tb)
    requires Direction(k, w, toB).r.inb.outcome.Finished?
    ensures var r := Direction(k, w, toB).r;
            var from, reader := Of(ta, tb, toB), Of(ta, tb, !toB);
            match r.inb.outcome.cause
            case PeerEnd => from.ended && r.inb.read == from.offered
            case PeerClose => (from.left || from.over) && !from.failed
            case PeerError => from.failed || from.refused
            case OwnClose => reader.over
            case OwnError => reader.failed
  {
    RanTold(k, acts, w, ta, tb);
    SaidFlow(k, w, ta, tb, toB);
    if !Throws(Direction(k, w, toB).r.inb.outcome.cause) { NormalFinish(k, w, toB); }
    hide Ran, Inv, AllSaid, Reachable;
  }

  lemma SaidFlow(k: Terms, w: World, ta: Told, tb: Told, toB: bool)
    requires TermsOk(k) && AllSaid(k, w, ta, tb)
    ensures var f := Direction(k, w, toB); Said(f, Of(ta, tb, toB)) && Own(f.s, Of(ta, tb, toB)) && Own(f.r, Of(ta, tb, !toB))
  {
    hide Said, Own;
  }

  /** An input that threw never lets its reader finish without an error, but for a server whose own output was over. */
  lemma FailureIsThrown(k: Terms, acts: seq<(bool, Act)>, w: World, ta: Told, tb: Told, toB: bool)
    requires TermsOk(k) && Ran(k, acts, w, ta, tb) && Of(ta, tb, toB).failed
    requires Direction(k, w, toB).r.inb.outcome.Finished? && !Of(ta, tb, !toB).over
    ensures Throws(Direction(k, w, toB).r.inb.outcome.cause)
  {
    FinishedBy(k, acts, w, ta, tb, toB);
    RanTold(k, acts, w, ta, tb);
    SaidFlow(k, w, ta, tb, toB);
    hide Ran, Inv, AllSaid, Reachable;
  }

  lemma OverKept(s: Side, inbox: seq<Frame>, act: Act, t: Told)
    requires Enabled(s, inbox, false, act)
    ensures Telling(s, inbox, act, t).over == t.over
  {
  }

  /** ... and the caller's reader is never excused: only a server has an output that is over first. */
  lemma {:induction false} OnlyServersStop(k: Terms, w: World, acts: seq<(bool, Act)>, w': World, ta: Told, tb: Told)
    requires TermsOk(k) && Path(k, w, acts, w')
    ensures ToldBy(k, w, acts, w', ta, tb).0.over == ta.over
    decreases |acts|
  {
    if acts != [] {
      var (byA, act) := acts[0];
      hide Step, Telling, Enabled, PumpOk;
      if byA { OverKept(w.a, w.ba, act, ta); }
      OnlyServersStop(k, Step(k, w, byA, act), acts[1..], w',
                      if byA then Telling(w.a, w.ba, act, ta) else ta, if byA then tb else Telling(w.b, w.ab, act, tb));
    }
  }

  lemma CallerHearsFailure(k: Terms, acts: seq<(bool, Act)>, w: World, ta: Told, tb: Told)
    requires TermsOk(k) && Ran(k, acts, w, ta, tb) && tb.failed && w.a.inb.outcome.Finished?
    ensures Throws(w.a.inb.outcome.cause)
  {
    OnlyServersStop(k, Init(k), acts, w, SILENT, SILENT);
    FailureIsThrown(k, acts, w, ta, tb, false);
    hide Ran;
  }

  /** Whoever failed, stopped or left before the end frees both tables: with nothing on the way neither holds the stream. */
  lemma LeavingFrees(k: Terms, acts: seq<(bool, Act)>, w: World, ta: Told, tb: Told)
    requires TermsOk(k) && Ran(k, acts, w, ta, tb) && w.ab == [] && w.ba == []
    requires ta.failed || ta.quit || tb.failed || tb.quit || tb.over || tb.refused
    ensures w.a.status != Live && w.b.status != Live
  {
    RanTold(k, acts, w, ta, tb);
    SlotsAgree(k, w);
    hide Ran, Inv, Reachable, Said;
  }

  // ----- nothing left to do -----

  /** No step is left but what inputs and consumers choose: nothing to send, hear, read, ask for or settle. */
  ghost predicate AtRest(w: World) {
    forall byA: bool, act: Act :: act.Send? || act.Recv? || act.Take? || act.Next? || act.Settle? ==> !Can(w, byA, act)
  }

  lemma RestOf(k: Terms, w: World)
    requires Inv(k, w) && AtRest(w)
    ensures w.ab == [] && w.ba == [] && Idle(w.a) && Idle(w.b) && w.a.status != NotYet && w.b.status != NotYet
  {
    PumpsOk(k, w);
    hide Inv, PumpOk, AtRest, Enabled, Idle;
    RestPipe(w, true);
    RestPipe(w, false);
    RestEnd(w, true);
    RestEnd(w, false);
  }

  lemma RestPipe(w: World, a: bool)
    requires AtRest(w) && PumpOk(w.a) && PumpOk(w.b)
    ensures (if a then w.ba else w.ab) == []
  {
    assert !Can(w, a, Recv(false));
    hide PumpOk;
  }

  lemma RestEnd(w: World, a: bool)
    requires AtRest(w) && PumpOk(w.a) && PumpOk(w.b) && (if a then w.a else w.b).status != NotYet
    ensures Idle(if a then w.a else w.b)
  {
    assert !Can(w, a, Send) && !Can(w, a, Take) && !Can(w, a, Next) && !Can(w, a, Settle);
    hide PumpOk, AtRest;
  }

  lemma PumpsOk(k: Terms, w: World)
    requires Inv(k, w)
    ensures PumpOk(w.a) && PumpOk(w.b) && w.a.status != NotYet && (w.b.status == NotYet ==> w.ab != [])
  {
    hide Dir;
  }

  /** An end at rest: no piece reserved, nothing queued, in hand or settling while its loop runs. */
  predicate Idle(s: Side) {
    && !s.outb.phase.Taken? && s.inb.settling == []
    && (s.inb.outcome.Running? ==> s.inb.slots == [] && s.inb.hand == None)
  }

  /** At rest a live stream's input is read whole, and its pump waits for no credit. */
  lemma RestReads(k: Terms, w: World, toB: bool)
    requires TermsOk(k) && Inv(k, w) && AtRest(w)
    requires Direction(k, w, toB).s.status == Live && Direction(k, w, toB).r.status == Live
    requires Direction(k, w, toB).r.inb.outcome.Running?
    ensures var f := Direction(k, w, toB); f.r.inb.read == f.s.outb.offered && !f.s.outb.phase.Parked? && !f.s.outb.done
  {
    RestOf(k, w);
    PartsOf(k, w);
    hide Inv, AtRest, Handshake;
    RestFlow(Direction(k, w, toB), ReceiverConfig(k, toB));
  }

  lemma RestFlow(f: Flow, c: Config)
    requires ConfigOk(c) && f.window == U.Clamp(c.buffer) && Dir(f) && Local(f.s) && Local(f.r) && Idle(f.s) && Idle(f.r)
    requires f.sr == [] && f.rs == [] && f.s.status == Live && f.r.status == Live && f.r.inb.outcome.Running?
    ensures f.r.inb.read == f.s.outb.offered && !f.s.outb.phase.Parked? && !f.s.outb.done
  {
    assert Content(f.r.inb.slots) == [] && DataOf(f.sr) == [] && Grants(f.rs) == 0;
    assert f.r.inb.queued == 0 && f.r.inb.pending == 0;
    assert f.r.inb.read + [] + [] == f.r.inb.read;
    assert CauseOf(f.r.inb) == None;
    assert !f.r.inb.done && EndFrame !in f.sr;
    assert Held(f.s) == f.window >= 1;
    assert f.s.outb.sent + [] == f.s.outb.sent;
  }

  /**
   Nobody left, failed, refused or stopped: then an input that ended has been read
   to its end, all of it, and its reader's loop finished normally.
   */
  lemma EveryInputIsRead(k: Terms, acts: seq<(bool, Act)>, w: World, ta: Told, tb: Told, toB: bool)
    requires TermsOk(k) && Ran(k, acts, w, ta, tb) && AtRest(w) && Undisturbed(ta) && Undisturbed(tb) && Of(ta, tb, toB).ended
    ensures var r := Direction(k, w, toB).r; r.inb.outcome == Finished(PeerEnd) && r.inb.read == Of(ta, tb, toB).offered
  {
    RanTold(k, acts, w, ta, tb);
    SaidFlow(k, w, ta, tb, toB);
    RanCalm(k, acts, w, ta, tb);
    hide Inv, AtRest, AllSaid, Reachable, Ran, Path, ToldBy, Said;
    RestEnds(k, w, toB);
    FinishedBy(k, acts, w, ta, tb, toB);
  }

  lemma RanCalm(k: Terms, acts: seq<(bool, Act)>, w: World, ta: Told, tb: Told)
    requires TermsOk(k) && Ran(k, acts, w, ta, tb) && Undisturbed(ta) && Undisturbed(tb)
    ensures AllCalm(w)
  {
    InitSaid(k);
    InitCalm(k);
    hide Inv, AllSaid, AllCalm, Reachable, Undisturbed;
    PathCalm(k, Init(k), acts, w, SILENT, SILENT);
  }

  lemma RestEnds(k: Terms, w: World, toB: bool)
    requires TermsOk(k) && Inv(k, w) && AllCalm(w) && AtRest(w) && Direction(k, w, toB).s.outb.done
    ensures Direction(k, w, toB).r.inb.outcome == Finished(PeerEnd)
  {
    RestOf(k, w);
    PartsOf(k, w);
    hide Inv, AtRest, Handshake, Local, Dir, HasFinal, Idle;
    EndIsRead(Direction(k, w, toB));
  }

  lemma EndIsRead(f: Flow)
    requires Dir(f) && Local(f.s) && Local(f.r) && Idle(f.r) && f.sr == [] && f.s.outb.done && f.r.status != NotYet
    requires f.r.status == Gone ==> f.r.inb.done
    requires !f.r.inb.outcome.Cancelled?
    ensures f.r.inb.outcome == Finished(PeerEnd)
  {
    hide Faithful, Credit, PumpOk, Content, Units;
    assert f.r.inb.done;
  }

  predicate Undisturbed(t: Told) { !t.failed && !t.left && !t.over && !t.refused }

  /** An end nobody disturbed leaves the table only when both directions ended. */
  predicate Calm(s: Side) {
    && (s.status == Gone ==> s.inb.done && s.outb.done)
    && !s.inb.outcome.Cancelled?
  }

  predicate AllCalm(w: World) { Calm(w.a) && Calm(w.b) && !HasFinal(w.ab) && !HasFinal(w.ba) }

  lemma InitCalm(k: Terms)
    ensures AllCalm(Init(k))
  {
  }

  lemma ActCalm(c: Config, s: Side, inbox: seq<Frame>, server: bool, act: Act, t: Told)
    requires ConfigOk(c) && Enabled(s, inbox, server, act) && Local(s) && PumpOk(s) && Calm(s) && !Overflows(c, s, inbox, act)
    requires act.Recv? && inbox[0].Open? ==> s.status == NotYet
    requires Undisturbed(Telling(s, inbox, act, t)) && !HasFinal(inbox)
    ensures var e := Perform(c, s, inbox, server, act); Calm(e.side) && !HasFinal(e.out) && !HasFinal(Remaining(inbox, act))
  {
    LocalPump(s);
    FinalLeft(inbox, act);
    hide Local, Consume, Reserve, Content, Units, Refuse, QueueOk, CauseOf, Release, Overflows;
    match act
    case Recv(refused) => HeardCalm(c, s, inbox, refused);
    case Send => SendFollows(c, s);
    case InputEnd => EndFollows(s);
    case _ =>
  }

  lemma FinalLeft(inbox: seq<Frame>, act: Act)
    requires !HasFinal(inbox)
    ensures !HasFinal(Remaining(inbox, act)) && (inbox != [] ==> !Final(inbox[0]))
  {
    if inbox != [] { assert inbox[0] in inbox; }
    assert forall x :: x in Remaining(inbox, act) ==> x in inbox;
  }

  lemma HeardCalm(c: Config, s: Side, inbox: seq<Frame>, refused: bool)
    requires inbox != [] && Calm(s) && !Final(inbox[0]) && !Overflows(c, s, inbox, Recv(refused))
    requires inbox[0].Open? ==> s.status == NotYet && !refused
    ensures var e := Handle(c, s, inbox[0], refused); Calm(e.side) && !HasFinal(e.out)
  {
    hide Release;
  }

  lemma StepCalm(k: Terms, w: World, byA: bool, act: Act, t: Told)
    requires TermsOk(k) && Inv(k, w) && Can(w, byA, act) && AllCalm(w)
    requires Undisturbed(if byA then Telling(w.a, w.ba, act, t) else Telling(w.b, w.ab, act, t))
    ensures AllCalm(Step(k, w, byA, act))
  {
    PartsOf(k, w);
    if byA { HandshakeA(k, w, act); } else { HandshakeB(k, w, act); }
    var fi := if byA then FlowBA(k, w) else FlowAB(k, w);
    if act.Recv? && fi.sr[0].Data? && fi.r.status == Live { DataFits(if byA then k.a else k.b, fi); }
    hide Inv, Dir, Local, Perform, PumpOk, Handshake, Telling, Enabled, Calm, HasFinal, Remaining;
    if byA { ActCalm(k.a, w.a, w.ba, false, act, t); } else { ActCalm(k.b, w.b, w.ab, true, act, t); }
    FinalAppend(w.ab, if byA then Perform(k.a, w.a, w.ba, false, act).out else []);
    FinalAppend(w.ba, if byA then [] else Perform(k.b, w.b, w.ab, true, act).out);
  }

  lemma FinalAppend(x: seq<Frame>, y: seq<Frame>)
    ensures HasFinal(x + y) ==> HasFinal(x) || HasFinal(y)
    ensures !HasFinal([])
  {
  }

  lemma Undone(s: Side, inbox: seq<Frame>, act: Act, t: Told)
    ensures Undisturbed(Telling(s, inbox, act, t)) ==> Undisturbed(t)
  {
  }

  lemma {:induction false} StillUndisturbed(k: Terms, w: World, acts: seq<(bool, Act)>, w': World, ta: Told, tb: Told)
    requires TermsOk(k) && Path(k, w, acts, w')
    ensures var (ua, ub) := ToldBy(k, w, acts, w', ta, tb); (Undisturbed(ua) ==> Undisturbed(ta)) && (Undisturbed(ub) ==> Undisturbed(tb))
    decreases |acts|
  {
    if acts != [] {
      var (byA, act) := acts[0];
      hide Step, Telling, Undisturbed, Can;
      if byA { Undone(w.a, w.ba, act, ta); } else { Undone(w.b, w.ab, act, tb); }
      StillUndisturbed(k, Step(k, w, byA, act), acts[1..], w',
                       if byA then Telling(w.a, w.ba, act, ta) else ta, if byA then tb else Telling(w.b, w.ab, act, tb));
    }
  }

  lemma {:induction false} PathCalm(k: Terms, w: World, acts: seq<(bool, Act)>, w': World, ta: Told, tb: Told)
    requires TermsOk(k) && Inv(k, w) && Path(k, w, acts, w') && AllCalm(w)
    requires var (ua, ub) := ToldBy(k, w, acts, w', ta, tb); Undisturbed(ua) && Undisturbed(ub)
    ensures AllCalm(w')
    decreases |acts|
  {
    if acts != [] {
      var (byA, act) := acts[0];
      var ua := if byA then Telling(w.a, w.ba, act, ta) else ta;
      var ub := if byA then tb else Telling(w.b, w.ab, act, tb);
      hide Inv, AllCalm, Step, Telling, Undisturbed, Can;
      StillUndisturbed(k, Step(k, w, byA, act), acts[1..], w', ua, ub);
      StepKeeps(k, w, byA, act);
      StepCalm(k, w, byA, act, if byA then ta else tb);
      PathCalm(k, Step(k, w, byA, act), acts[1..], w', ua, ub);
    }
  }

  // ----- a peer that keeps no window -----

  /** What a live stream holds for its consumer is within its buffer, and what it owes below half of it. */
  predicate Bounded(c: Config, s: Side) {
    s.status == Live ==> s.inb.queued <= c.buffer && 2 * s.inb.pending <= c.buffer
  }

  lemma TornBounded(c: Config, s: Side, cause: Cause)
    ensures Bounded(c, Teardown(s, cause))
  {
  }

  lemma HeardBounded(c: Config, s: Side, f: Frame, refused: bool)
    requires Bounded(c, s)
    ensures Bounded(c, Handle(c, s, f, refused).side)
  {
    hide Release, Teardown, DoneIn;
    if f.Data? { TornBounded(c, s.(inb := s.inb.(queued := s.inb.queued + |f.bytes|)), OwnError); }
    TornBounded(c, s, PeerError);
    TornBounded(c, s, PeerClose);
    DoneInCounts(s.inb.(done := true), PeerEnd);
  }

  lemma DoneInCounts(i: Inbound, cause: Cause)
    ensures DoneIn(i, cause).queued == i.queued && DoneIn(i, cause).pending == i.pending
  {
  }

  lemma SettleBounded(c: Config, s: Side)
    requires s.inb.settling != [] && Bounded(c, s)
    ensures Bounded(c, SettleOne(c, s).side)
  {
    var p := s.inb.settling[0];
    var left := if p.units <= s.inb.queued then s.inb.queued - p.units else 0;
    ConsumeConserves(c.buffer, s.inb.pending, p.units, left == 0);
    hide Consume;
  }

  /** Whatever frames a peer sends, honest or not, and whatever the consumer does. */
  lemma StaysBounded(c: Config, s: Side, inbox: seq<Frame>, server: bool, act: Act)
    requires ConfigOk(c) && Enabled(s, inbox, server, act) && PumpOk(s) && Bounded(c, s)
    ensures Bounded(c, Perform(c, s, inbox, server, act).side)
  {
    hide Consume, Reserve, Refuse, Handle, Teardown, PumpOk, Release, SettleOne;
    TornBounded(c, s, OwnClose);
    match act
    case Recv(refused) => HeardBounded(c, s, inbox[0], refused);
    case Settle => SettleBounded(c, s);
    case Cancel => CancelBounded(c, s);
    case InputFail => TornBounded(c, s.(outb := s.outb.(phase := Over)), OwnError);
    case _ =>
  }

  lemma CancelBounded(c: Config, s: Side)
    requires s.inb.hand.Some? && Bounded(c, s)
    ensures Bounded(c, Leave(s).side)
  {
    hide Refuse;
  }
}
