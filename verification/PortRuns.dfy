/** Every step keeps the invariant, so every run does. */
module PortRuns {
  import opened Basics
  import opened PortSide
  import opened PortWire
  import opened PortWorld
  import opened PortSendSteps
  import opened PortCloseSteps
  import opened PortReceiveSteps

  /** One end's view of the port: its own direction and its peer's. */
  ghost predicate View(k: Terms, isA: bool, fo: Flow, fi: Flow) {
    && fi == Flow(fo.r, fo.s, fo.rs, fo.sr, isA || Agreed(k))
    && fo.tight == (!isA || Agreed(k))
    && Local(k, OptionsOf(k, isA), isA, fo.s)
    && PartialOk(fo.r)
    && Dir(k, fo) && Dir(k, fi)
  }

  function OptionsOf(k: Terms, isA: bool): Options {
    if isA then k.oa else k.ob
  }

  /** What a step must leave behind at the end that takes it. */
  ghost predicate Kept(k: Terms, isA: bool, fo: Flow, fi: Flow, e: Effect, inbox: seq<Envelope>) {
    && Local(k, OptionsOf(k, isA), isA, e.side)
    && Dir(k, fo.(s := e.side, sr := fo.sr + e.out, rs := inbox))
    && Dir(k, fi.(r := e.side, sr := inbox, rs := fi.rs + e.out))
    && NoOpen(e.out)
  }

  lemma PlainNoOpen(es: seq<Envelope>)
    requires Plain(es)
    ensures NoOpen(es) && Credits(es) == 0 && Data(es) == es
  {
    DataPlain(es);
  }

  /** A step that only sends. */
  lemma SendKept(k: Terms, isA: bool, fo: Flow, fi: Flow, e: Effect)
    requires View(k, isA, fo, fi) && Plain(e.out)
    requires Local(k, OptionsOf(k, isA), isA, e.side) && Dir(k, fo.(s := e.side, sr := fo.sr + e.out))
    requires e.side.hist.delivered == fo.s.hist.delivered && e.side.half.peerEnded == fo.s.half.peerEnded
    requires e.side.unconsumed == fo.s.unconsumed && e.side.toGrant == fo.s.toGrant
    requires (e.side.status == fo.s.status && e.side.partial == fo.s.partial) || e.side.status == Dead
    ensures Kept(k, isA, fo, fi, e, fi.sr)
  {
    PlainNoOpen(e.out);
    LifeGives(k, fi);
    hide Local, Dir, Plain, Credits, Data;
    InKept(k, fi, e.side, e.out);
  }

  lemma LifeGives(k: Terms, f: Flow)
    requires Dir(k, f)
    ensures f.s.status == Dead && f.r.status != Dead ==> Close in Coming(f) || (f.s.half.endSent && f.s.half.peerEnded)
  {
  }

  /** What the sending steps leave of an end's receiving half. */
  predicate SendsOnly(s: Side, s': Side) {
    && s'.hist.delivered == s.hist.delivered && s'.half.peerEnded == s.half.peerEnded
    && s'.unconsumed == s.unconsumed && s'.toGrant == s.toGrant
    && ((s'.status == s.status && s'.partial == s.partial) || s'.status == Dead)
    && (s'.status == NotYet <==> s.status == NotYet)
    && s'.deal == s.deal
  }

  lemma {:induction false} SendAllSendsOnly(o: Options, s: Side, es: seq<Envelope>)
    requires s.status != NotYet
    ensures SendsOnly(s, SendAllOnPort(o, s, es).side)
    decreases |es|
  {
    if es != [] {
      SendAllSendsOnly(o, SendOnPort(o, s, es[0]).side, es[1..]);
    }
  }

  lemma PostAct(k: Terms, isA: bool, fo: Flow, fi: Flow, p: Payload)
    requires TermsOk(k) && View(k, isA, fo, fi) && k.codec.carries(p) && (k.chunk(p) ==> fo.s.deal.enforced)
    ensures var e := PostPayload(k.codec, fo.s, p); Kept(k, isA, fo, fi, e, fi.sr) && SendsOnly(fo.s, e.side)
  {
    PostKeeps(k, OptionsOf(k, isA), isA, fo, p);
    assert fo.sr + [] == fo.sr;
    hide Local, Dir, CodecOk;
    SendKept(k, isA, fo, fi, PostPayload(k.codec, fo.s, p));
  }

  lemma EndDirAct(k: Terms, isA: bool, fo: Flow, fi: Flow)
    requires TermsOk(k) && View(k, isA, fo, fi)
    ensures var e := Effect(EndDirection(fo.s), []); Kept(k, isA, fo, fi, e, fi.sr) && SendsOnly(fo.s, e.side)
  {
    EndDirKeeps(k, OptionsOf(k, isA), isA, fo);
    assert fo.sr + [] == fo.sr;
    hide Local, Dir, CodecOk;
    SendKept(k, isA, fo, fi, Effect(EndDirection(fo.s), []));
  }

  lemma FlushAct(k: Terms, isA: bool, fo: Flow, fi: Flow)
    requires TermsOk(k) && View(k, isA, fo, fi) && CanFlush(fo.s)
    ensures var e := FlushOne(OptionsOf(k, isA), k.codec, fo.s);
            Kept(k, isA, fo, fi, e, fi.sr) && SendsOnly(fo.s, e.side)
  {
    var o := OptionsOf(k, isA);
    FlushKeeps(k, o, isA, fo);
    FlushSendsOnly(o, k.codec, fo.s);
    hide Local, Dir, CodecOk, FlushOne, Plain;
    SendKept(k, isA, fo, fi, FlushOne(o, k.codec, fo.s));
  }

  lemma FlushSendsOnly(o: Options, c: Codec, s: Side)
    requires OptionsOk(o) && CanFlush(s)
    ensures SendsOnly(s, FlushOne(o, c, s).side)
  {
    var i := s.queue[0];
    var t := s.(queue := s.queue[1..], queued := if ItemSize(i) <= s.queued then s.queued - ItemSize(i) else 0,
                outstanding := s.outstanding + ItemSize(i));
    hide Leaving, SendAllOnPort;
    SendAllSendsOnly(o, t, Leaving(o, c, t, i, false));
  }

  lemma PumpAct(k: Terms, isA: bool, fo: Flow, fi: Flow)
    requires TermsOk(k) && View(k, isA, fo, fi) && fo.s.outgoing != [] && OptionsOf(k, isA).frameSize.Some?
    ensures Kept(k, isA, fo, fi, PumpOne(fo.s), fi.sr) && SendsOnly(fo.s, PumpOne(fo.s).side)
  {
    var o := OptionsOf(k, isA);
    LocalWire(k, o, isA, fo.s);
    PumpStatus(k, o, isA, fo.s);
    LocalOutgoing(k, o, o.(frameSize := Some(1)), isA, fo.s, fo.s.outgoing, fo.s.half.endSent);
    assert fo.s.(outgoing := fo.s.outgoing, half := fo.s.half.(endSent := fo.s.half.endSent)) == fo.s;
    hide Local, Dir, CodecOk, PumpOne, Plain;
    PumpKeeps(k, fo);
    PumpLocal(k, o, isA, fo.s);
    SendKept(k, isA, fo, fi, PumpOne(fo.s));
  }

  lemma PumpStatus(k: Terms, o: Options, isA: bool, s: Side)
    requires Local(k, o, isA, s) && s.outgoing != []
    ensures s.status != NotYet && (s.status == Dead ==> s.queue == []) && SendsOnly(s, PumpOne(s).side)
  {
  }

  lemma CloseAct(k: Terms, isA: bool, fo: Flow, fi: Flow)
    requires View(k, isA, fo, fi)
    ensures var e := CloseSide(OptionsOf(k, isA), fo.s); Kept(k, isA, fo, fi, e, fi.sr) && SendsOnly(fo.s, e.side)
  {
    var o := OptionsOf(k, isA);
    CloseKeeps(k, o, isA, fo);
    CloseSendsOnly(o, fo.s);
    hide Local, Dir, CloseSide, Plain;
    SendKept(k, isA, fo, fi, CloseSide(o, fo.s));
  }

  lemma CloseSendsOnly(o: Options, s: Side)
    ensures SendsOnly(s, CloseSide(o, s).side)
  {
    hide SendAllOnPort;
    if s.status == Live {
      SendAllSendsOnly(o, Spill(s), WholeItems(s.queue) + [Close]);
    }
  }

  /** A refusal, and the end of the whole multiplexer. */
  lemma AbandonAct(k: Terms, isA: bool, fo: Flow, fi: Flow, left: seq<Envelope>)
    requires View(k, isA, fo, fi) && fo.s.status != NotYet && (left == [] || left == fo.s.outgoing)
    ensures Kept(k, isA, fo, fi, Effect(Abandoned(fo.s, left), [Close]), fi.sr)
  {
    AbandonKeeps(k, OptionsOf(k, isA), isA, fo, left);
    assert Plain([Close]);
    hide Local, Dir, Plain;
    SendKept(k, isA, fo, fi, Effect(Abandoned(fo.s, left), [Close]));
  }

  lemma IdleAct(k: Terms, isA: bool, fo: Flow, fi: Flow)
    requires View(k, isA, fo, fi)
    ensures Kept(k, isA, fo, fi, Effect(fo.s, []), fi.sr)
  {
    assert fo.sr + [] == fo.sr && fi.rs + [] == fi.rs;
    hide Local, Dir;
  }

  lemma SettleAct(k: Terms, isA: bool, fo: Flow, fi: Flow, i: nat)
    requires View(k, isA, fo, fi) && i < |fo.s.unsettled|
    ensures var e := SettleOne(fo.s, i); Kept(k, isA, fo, fi, e, fi.sr) && e.side.deal == fo.s.deal && e.side.status == fo.s.status
  {
    var e := SettleOne(fo.s, i);
    SettleShape(k, OptionsOf(k, isA), isA, fo.s, i);
    FlowLife(k, fo);
    hide Local, Dir, SettleOne, Data, Credits, NoOpen;
    OutKept(k, fo, e.side, e.out, fo.rs);
    ConsumeKeeps(k, fi, e.side, e.out);
  }

  lemma FlowLife(k: Terms, f: Flow)
    requires Dir(k, f)
    ensures f.s.status == Live ==> !(f.s.half.endSent && f.s.half.peerEnded)
  {
  }

  lemma TimerAct(k: Terms, isA: bool, fo: Flow, fi: Flow)
    requires View(k, isA, fo, fi) && fo.s.clock.timers > 0
    ensures var e := FireTimer(fo.s); Kept(k, isA, fo, fi, e, fi.sr) && e.side.deal == fo.s.deal && e.side.status == fo.s.status
  {
    var e := FireTimer(fo.s);
    TimerShape(k, OptionsOf(k, isA), isA, fo.s);
    FlowLife(k, fo);
    hide Local, Dir, FireTimer, Data, Credits, NoOpen;
    OutKept(k, fo, e.side, e.out, fo.rs);
    ConsumeKeeps(k, fi, e.side, e.out);
  }

  // ----- receiving -----

  /** A direction whose sender is gone does not depend on the pipe back. */
  lemma BackPipeFree(k: Terms, f: Flow, rs: seq<Envelope>)
    requires Dir(k, f) && (f.s.status == Dead || Credits(rs) == Credits(f.rs))
    ensures Dir(k, f.(rs := rs))
  {
    hide Data, Credits, Feed, Fits, Ordered, Quiet;
    assert Coming(f.(rs := rs)) == Coming(f);
  }

  /** The peer is gone: what this end still held for it can go. */
  lemma PeerGone(k: Terms, f: Flow, rs: seq<Envelope>)
    requires Dir(k, f) && f.r.status == Dead
    ensures Dir(k, f.(s := Abandoned(f.s, []), rs := rs))
    ensures f.s.status == Dead ==> Dir(k, f.(s := f.s.(outgoing := []), rs := rs)) && Dir(k, f.(s := Lost(f.s.(outgoing := [])), rs := rs))
  {
    assert Data(f.sr) + [] == Data(f.sr);
    assert Ordered(Data(f.sr)) by {
      forall i, j | 0 <= i < j < |Data(f.sr)| && Data(f.sr)[i].End? ensures !Traffic(Data(f.sr)[j]) {
        assert Coming(f)[i] == Data(f.sr)[i] && Coming(f)[j] == Data(f.sr)[j];
      }
    }
    forall e | e in Data(f.sr) ensures e in Coming(f) {}
    hide Data, Feed, Fits, Ordered;
  }

  /** Envelopes that carry no traffic change nothing of the direction they travel in. */
  lemma ControlHeard(k: Terms, f: Flow, me: Side, out: seq<Envelope>)
    requires Dir(k, f) && f.sr != [] && (f.sr[0].Open? || f.sr[0].Credit?)
    requires me.hist.delivered == f.r.hist.delivered && me.half.peerEnded == f.r.half.peerEnded
    requires me.unconsumed == f.r.unconsumed && me.toGrant == f.r.toGrant && me.partial == f.r.partial
    requires me.status == f.r.status || f.r.status == NotYet
    requires Credits(out) == 0
    ensures Dir(k, f.(r := me, sr := f.sr[1..], rs := f.rs + out))
  {
    ControlTaken(k, f);
    LifeGives(k, f.(sr := f.sr[1..]));
    hide Dir, Credits, Data, Coming;
    InKept(k, f.(sr := f.sr[1..]), me, out);
  }

  lemma ControlTaken(k: Terms, f: Flow)
    requires Dir(k, f) && f.sr != [] && (f.sr[0].Open? || f.sr[0].Credit?)
    ensures Dir(k, f.(sr := f.sr[1..]))
  {
    ComingHead(f);
    var g := f.(sr := f.sr[1..]);
    hide Data, Credits, Feed, Fits, Ordered, Quiet, Cost, Coming;
    assert Transfer(k, g) && Half(k, g) && Life(g);
    hide Transfer, Half, Life;
    assert Ledger(k, g) && Room(k, g);
  }

  /** Where a pipe stands with the handshake, at the end that reads it. */
  ghost predicate Hears(k: Terms, isA: bool, s: Side, inbox: seq<Envelope>) {
    && inbox != []
    && (isA && !s.deal.enforced && s.status == Live ==> inbox[0] == Ack(k) || inbox[0] == Close)
    && (s.status == NotYet ==> inbox[0] == OpenOf(k))
    && (s.status != NotYet ==> !inbox[0].Open?)
  }

  lemma HearsReady(k: Terms, isA: bool, s: Side, inbox: seq<Envelope>)
    requires Local(k, OptionsOf(k, isA), isA, s) && Hears(k, isA, s, inbox) && s.status == Live
    ensures Traffic(inbox[0]) ==> Ready(k, s)
    ensures s.window == k.window
  {
  }

  lemma CreditAct(k: Terms, isA: bool, fo: Flow, fi: Flow)
    requires View(k, isA, fo, fi) && Hears(k, isA, fo.s, fi.sr) && fo.s.status == Live && !CanFlush(fo.s)
    requires fi.sr[0].Credit?
    ensures var e := TakeCredit(OptionsOf(k, isA), fo.s, fi.sr[0]);
            Kept(k, isA, fo, fi, e, fi.sr[1..]) && e.side.status == Live && e.side.deal.enforced
  {
    CreditKeeps(k, OptionsOf(k, isA), isA, fo);
    var e := TakeCredit(OptionsOf(k, isA), fo.s, fi.sr[0]);
    hide Local, Dir, TakeCredit, Data, Credits, NoOpen;
    ControlHeard(k, fi, e.side, e.out);
  }

  lemma MessageAct(k: Terms, isA: bool, fo: Flow, fi: Flow)
    requires TermsOk(k) && View(k, isA, fo, fi) && Hears(k, isA, fo.s, fi.sr) && fo.s.status == Live
    requires fi.sr[0].Message?
    ensures var p := fi.sr[0].payload;
            var me := Deliver(fo.s, fo.s.partial, p, Size(k.codec, fo.s.deal.exact, p));
            !fo.s.half.peerEnded && Kept(k, isA, fo, fi, Effect(me, []), fi.sr[1..])
  {
    HearsReady(k, isA, fo.s, fi.sr);
    FlowLife(k, fo);
    CreditFactsData(fi);
    assert Data([]) == [] && fo.sr + [] == fo.sr && fi.rs + [] == fi.rs;
    hide Local, Dir, Ready, Data, Credits, CodecOk;
    MessageKeeps(k, OptionsOf(k, isA), isA, fi);
    var p := fi.sr[0].payload;
    OutKept(k, fo, Deliver(fo.s, fo.s.partial, p, Size(k.codec, fo.s.deal.exact, p)), [], fi.sr[1..]);
  }

  lemma FrameAct(k: Terms, isA: bool, fo: Flow, fi: Flow)
    requires TermsOk(k) && View(k, isA, fo, fi) && Hears(k, isA, fo.s, fi.sr) && fo.s.status == Live
    requires fi.sr[0].Frame?
    ensures !fo.s.half.peerEnded && fo.s.window > 0 && fo.s.deal.exact && OptionsOf(k, isA).exactCodec
    ensures !PastRoom(PartialOf(fo.s), |fi.sr[0].data|)
    ensures Kept(k, isA, fo, fi, Effect(Framed(k.codec, fo.s, fi.sr[0]), []), fi.sr[1..])
  {
    HearsReady(k, isA, fo.s, fi.sr);
    CreditFactsData(fi);
    assert fi.rs + [] == fi.rs && fo.sr + [] == fo.sr;
    hide Local, Dir, Ready, Data, Credits, CodecOk, Framed, PastRoom, PartialOf;
    FrameKeeps(k, OptionsOf(k, isA), isA, fi);
    FrameOut(k, fo, fi.sr[0], fi.sr[1..]);
  }

  /** A frame changes nothing of what its end sends. */
  lemma FrameOut(k: Terms, f: Flow, e: Envelope, rs: seq<Envelope>)
    requires Dir(k, f) && f.s.status == Live && e.Frame? && Credits(rs) == Credits(f.rs)
    ensures Dir(k, f.(s := Framed(k.codec, f.s, e), sr := f.sr + [], rs := rs))
  {
    FlowLife(k, f);
    assert Data([]) == [];
    hide Dir, Data, Credits, CodecOk, PartialOf, Charge;
    OutKept(k, f, Framed(k.codec, f.s, e), [], rs);
  }

  /** Only the cap shared by all ports refuses an honest frame. */
  lemma CapAct(k: Terms, isA: bool, fo: Flow, fi: Flow)
    requires View(k, isA, fo, fi) && Hears(k, isA, fo.s, fi.sr) && fo.s.status == Live && fi.sr[0].Frame?
    ensures Kept(k, isA, fo, fi, Fail(fo.s), fi.sr[1..])
  {
    AbandonAct(k, isA, fo, fi, []);
    var e := Fail(fo.s);
    CreditFactsData(fi);
    assert e == Effect(Abandoned(fo.s, []), [Close]);
    hide Local, Dir, NoOpen;
    BackPipeFree(k, fo.(s := e.side, sr := fo.sr + e.out), fi.sr[1..]);
    DeadHears(k, fi, e.side, e.out);
  }

  lemma EndAct(k: Terms, isA: bool, fo: Flow, fi: Flow)
    requires View(k, isA, fo, fi) && Hears(k, isA, fo.s, fi.sr) && fo.s.status == Live && fi.sr[0].End?
    ensures fo.s.window == k.window && HalfClose in fo.s.deal.caps && !fo.s.half.peerEnded
    ensures Kept(k, isA, fo, fi, Effect(FreeIfEnded(fo.s.(half := fo.s.half.(peerEnded := true))), []), fi.sr[1..])
  {
    HearsReady(k, isA, fo.s, fi.sr);
    CreditFactsData(fi);
    var me := FreeIfEnded(fo.s.(half := fo.s.half.(peerEnded := true)));
    assert fo.sr + [] == fo.sr && fi.rs + [] == fi.rs;
    EndSender(k, fo, me, fi.sr[1..]);
    hide Local, Dir, Ready, Data, Credits, FreeIfEnded;
    EndKeeps(k, OptionsOf(k, isA), isA, fi);
  }

  lemma EndSender(k: Terms, f: Flow, me: Side, rs: seq<Envelope>)
    requires Dir(k, f) && f.s.status == Live && me == FreeIfEnded(f.s.(half := f.s.half.(peerEnded := true)))
    requires Credits(rs) == Credits(f.rs)
    ensures Dir(k, f.(s := me, rs := rs))
  {
    assert f.s.half.endSent ==> f.s.queue == [];
    assert me.queue == f.s.queue;
    assert Data([]) == [] && f.sr + [] == f.sr;
    hide Dir, Data, Credits;
    OutKept(k, f, me, [], rs);
  }

  lemma CloseHeardAct(k: Terms, isA: bool, fo: Flow, fi: Flow)
    requires View(k, isA, fo, fi) && Hears(k, isA, fo.s, fi.sr) && fo.s.status != NotYet && fi.sr[0].Close?
    ensures fo.s.status == Live ==> Kept(k, isA, fo, fi, Effect(Abandoned(fo.s, []), []), fi.sr[1..])
    ensures fo.s.status == Dead ==>
              && Kept(k, isA, fo, fi, Effect(fo.s.(outgoing := []), []), fi.sr[1..])
              && Kept(k, isA, fo, fi, Effect(Lost(fo.s.(outgoing := [])), []), fi.sr[1..])
  {
    assert fo.r.status == Dead by {
      ComingHead(fi);
      assert Close in Coming(fi);
    }
    assert fo.sr + [] == fo.sr && fi.rs + [] == fi.rs;
    var o := OptionsOf(k, isA);
    AbandonLocal(k, o, isA, fo.s, []);
    LocalOutgoing(k, o, o, isA, fo.s, [], fo.s.half.endSent);
    var t := fo.s.(outgoing := []);
    assert t == fo.s.(outgoing := [], half := fo.s.half.(endSent := fo.s.half.endSent));
    LocalLost(k, o, isA, t);
    hide Local, Dir;
    PeerGone(k, fo, fi.sr[1..]);
    DeadHears(k, fi, Abandoned(fo.s, []), []);
    if fo.s.status == Dead {
      DeadHears(k, fi, t, []);
      DeadHears(k, fi, Lost(t), []);
    }
  }

  lemma LocalLost(k: Terms, o: Options, isA: bool, s: Side)
    requires Local(k, o, isA, s) && s.status != NotYet
    ensures Local(k, o, isA, Lost(s))
  {
    hide Flatten, HeldSum, Size, Plain;
    assert QueueOk(k, Lost(s));
  }

  /** A closed end drops whatever still arrives. */
  lemma DroppedAct(k: Terms, isA: bool, fo: Flow, fi: Flow)
    requires View(k, isA, fo, fi) && fi.sr != [] && fo.s.status == Dead
    ensures Kept(k, isA, fo, fi, Effect(fo.s, []), fi.sr[1..])
  {
    assert fo.sr + [] == fo.sr && fi.rs + [] == fi.rs;
    hide Local, Dir;
    BackPipeFree(k, fo, fi.sr[1..]);
    DeadHears(k, fi, fo.s, []);
  }

  // ----- the open -----

  lemma OpenAccepted(k: Terms, f: Flow, me: Side, out: seq<Envelope>, rs: seq<Envelope>)
    requires Dir(k, f) && f.s == Fresh(NotYet, 0, false, false, {}) && f.sr == [] && f.tight
    requires Credits(rs) == Credits(f.rs) && Data(out) == []
    requires me == Fresh(Live, me.window, false, me.deal.exact, me.deal.caps)
    ensures Dir(k, f.(s := me, sr := f.sr + out, rs := rs))
  {
    var f' := f.(s := me, sr := f.sr + out, rs := rs);
    assert f.sr + out == out;
    assert Coming(f) == [] && Coming(f') == [];
    hide Data, Credits, Flatten;
    assert Transfer(k, f') && Half(k, f') && Life(f');
    hide Transfer, Half, Life;
    assert Ledger(k, f');
  }

  lemma OpenRefused(k: Terms, f: Flow, me: Side, out: seq<Envelope>, rs: seq<Envelope>)
    requires Dir(k, f) && f.s.status == NotYet && f.sr == [] && f.s.queue == [] && f.s.outgoing == []
    requires f.s.hist.posted == [] && !f.s.half.endSent && !f.s.half.ending
    requires me.status == Dead && me.queue == [] && me.outgoing == [] && me.hist == f.s.hist && me.half == f.s.half
    requires Data(out) == [Close]
    ensures Dir(k, f.(s := me, sr := f.sr + out, rs := rs))
  {
    var f' := f.(s := me, sr := f.sr + out, rs := rs);
    assert f.sr + out == out;
    assert Coming(f) == [] && Coming(f') == [Close];
    hide Data, Credits, Coming;
    RefusedMeans(k, f, f');
    RefusedCounts(k, f, f');
    hide Transfer, Half, Life, Ledger, Room;
  }

  lemma RefusedMeans(k: Terms, f: Flow, f': Flow)
    requires Dir(k, f) && Coming(f) == [] && Coming(f') == [Close] && f' == f.(s := f'.s, sr := f'.sr, rs := f'.rs)
    requires f.s.queue == [] && f.s.hist.posted == [] && !f.s.half.endSent && !f.s.half.ending
    requires f'.s.status == Dead && f'.s.queue == [] && f'.s.hist == f.s.hist && f'.s.half == f.s.half
    ensures Transfer(k, f') && Half(k, f')
  {
    assert [Close][1..] == [];
    hide Life, Ledger, Room, Coming, Flatten;
  }

  lemma RefusedCounts(k: Terms, f: Flow, f': Flow)
    requires Dir(k, f) && Coming(f) == [] && Coming(f') == [Close] && f' == f.(s := f'.s, sr := f'.sr, rs := f'.rs)
    requires f.s.status == NotYet && f'.s.status == Dead && f'.s.half == f.s.half && f'.s.hist == f.s.hist && f'.s.outgoing == f.s.outgoing
    ensures Life(f') && Ledger(k, f') && Room(k, f')
  {
    assert [Close][1..] == [];
    hide Transfer, Half, Coming, Flatten;
  }

  lemma OpenAct(k: Terms, fo: Flow, fi: Flow, full: bool)
    requires View(k, false, fo, fi) && fo.s.status == NotYet && fo.sr == [] && fi.sr != [] && fi.sr[0] == OpenOf(k)
    requires TermsOk(k)
    ensures var e := Attach(k.ob, fo.s, OpenOf(k), full);
            && Kept(k, false, fo, fi, e, fi.sr[1..])
            && e.side.status != NotYet && e.out == [if full then Close else Ack(k)]
  {
    var e := Attach(k.ob, fo.s, OpenOf(k), full);
    var me := e.side;
    assert k.ob.caps * k.oa.caps == Shared(k);
    assert e.out == [if full then Close else Ack(k)];
    assert e.out[1..] == [];
    CreditFactsData(fi);
    OpenLocal(k, fo.s, full);
    hide Local, Dir, Data, Credits;
    OpenDataIs(e.out[0]);
    if full {
      OpenRefused(k, fo, me, e.out, fi.sr[1..]);
      DeadHears(k, fi, me, e.out);
    } else {
      OpenAccepted(k, fo, me, e.out, fi.sr[1..]);
      ControlHeard(k, fi, me, e.out);
    }
  }

  lemma OpenDataIs(e: Envelope)
    ensures e.Credit? ==> Data([e]) == [] && Credits([e]) == e.bytes
    ensures e.Close? ==> Data([e]) == [Close]
  {
    assert [e][1..] == [];
  }

  lemma OpenLocal(k: Terms, s: Side, full: bool)
    requires TermsOk(k) && s == Fresh(NotYet, 0, false, false, {})
    ensures Local(k, k.ob, false, Attach(k.ob, s, OpenOf(k), full).side)
  {
    assert k.ob.caps * k.oa.caps == Shared(k);
    hide CodecOk, Size;
  }

  // ----- one step of one end -----

  lemma RecvAct(k: Terms, isA: bool, fo: Flow, fi: Flow, full: bool, others: nat)
    requires TermsOk(k) && View(k, isA, fo, fi) && Hears(k, isA, fo.s, fi.sr) && !CanFlush(fo.s)
    requires fo.s.status == NotYet ==> !isA && fo.sr == [] && fo.s == Fresh(NotYet, 0, false, false, {})
    ensures var e := Handle(OptionsOf(k, isA), k.codec, fo.s, fi.sr[0], full, others);
            Kept(k, isA, fo, fi, e, fi.sr[1..])
  {
    var e := fi.sr[0];
    if fo.s.status == NotYet {
      hide Dir, Local;
      OpenAct(k, fo, fi, full);
    } else if fo.s.status == Dead {
      hide Dir, Local;
      if e.Close? {
        CloseHeardAct(k, isA, fo, fi);
      } else {
        DroppedAct(k, isA, fo, fi);
      }
    } else {
      HearsReady(k, isA, fo.s, fi.sr);
      hide Dir, Local, Ready, CanFlush, Deliver, PastRoom, PartialOf;
      match e
      case Credit(_, _, _) => CreditAct(k, isA, fo, fi);
      case Message(_) => MessageAct(k, isA, fo, fi);
      case Frame(_, _) =>
        FrameAct(k, isA, fo, fi);
        CapAct(k, isA, fo, fi);
        FrameOutcome(OptionsOf(k, isA), k.codec, fo.s, e, others);
      case End => EndAct(k, isA, fo, fi);
      case Close => CloseHeardAct(k, isA, fo, fi);
    }
  }

  lemma FrameOutcome(o: Options, c: Codec, s: Side, e: Envelope, others: nat)
    requires e.Frame? && !PastRoom(PartialOf(s), |e.data|)
    ensures TakeFrame(o, c, s, e, others) == Fail(s) || TakeFrame(o, c, s, e, others) == Effect(Framed(c, s, e), [])
    ensures TakeFrame(o, c, s, e, others) == Fail(s) <==> others + Charge(s, PartialOf(s), |e.data|) > o.maxReassembled
  {
  }

  lemma ActKept(k: Terms, isA: bool, fo: Flow, fi: Flow, act: Act)
    requires TermsOk(k) && View(k, isA, fo, fi) && Enabled(k, OptionsOf(k, isA), fo.s, fi.sr, act)
    requires act.Recv? ==> Hears(k, isA, fo.s, fi.sr)
    requires fo.s.status == NotYet ==> !isA && fo.sr == [] && fo.s == Fresh(NotYet, 0, false, false, {})
    ensures Kept(k, isA, fo, fi, Perform(k, OptionsOf(k, isA), fo.s, fi.sr, act), Remaining(fi.sr, act))
  {
    hide Local, Dir, CodecOk, PostPayload, FlushOne, PumpOne, Handle, SettleOne, FireTimer, EndDirection, CloseSide;
    match act
    case Post(p) => PostAct(k, isA, fo, fi, p);
    case Flush => FlushAct(k, isA, fo, fi);
    case Pump => PumpAct(k, isA, fo, fi);
    case Recv(full, others) => RecvAct(k, isA, fo, fi, full, others);
    case Settle(i) => SettleAct(k, isA, fo, fi, i);
    case Timer => TimerAct(k, isA, fo, fi);
    case EndDir => EndDirAct(k, isA, fo, fi);
    case CloseIt => CloseAct(k, isA, fo, fi);
    case Reject => if fo.s.status == Live { AbandonAct(k, isA, fo, fi, fo.s.outgoing); } else { IdleAct(k, isA, fo, fi); }
    case Shutdown =>
      if fo.s.status == Live || fo.s.outgoing != [] { AbandonAct(k, isA, fo, fi, []); } else { IdleAct(k, isA, fo, fi); }
  }

  /** What an act does to the handshake's own fields. */
  lemma ActDeal(k: Terms, isA: bool, fo: Flow, fi: Flow, act: Act)
    requires TermsOk(k) && View(k, isA, fo, fi) && Enabled(k, OptionsOf(k, isA), fo.s, fi.sr, act)
    ensures var e := Perform(k, OptionsOf(k, isA), fo.s, fi.sr, act);
            && (!act.Recv? ==> e.side.deal == fo.s.deal && (fo.s.status == NotYet ==> e == Effect(fo.s, [])))
            && (fo.s.status != NotYet ==> e.side.status != NotYet)
            && (fo.s.status != Live && !act.Recv? ==> e.side.status == fo.s.status)
  {
    hide Dir, CodecOk;
    match act
    case Post(p) =>
    case Flush => FlushSendsOnly(OptionsOf(k, isA), k.codec, fo.s);
    case Pump => PumpStatus(k, OptionsOf(k, isA), isA, fo.s);
    case Recv(full, others) => HandleStatus(OptionsOf(k, isA), k.codec, fo.s, fi.sr[0], full, others);
    case Settle(i) => SettleAct(k, isA, fo, fi, i);
    case Timer => TimerAct(k, isA, fo, fi);
    case EndDir =>
    case CloseIt => CloseSendsOnly(OptionsOf(k, isA), fo.s);
    case Reject =>
    case Shutdown =>
  }

  lemma HandleStatus(o: Options, c: Codec, s: Side, e: Envelope, full: bool, others: nat)
    ensures s.status != NotYet ==> Handle(o, c, s, e, full, others).side.status != NotYet
  {
    hide PartialOf, PastRoom, Charge, Size;
  }

  // ----- one step of the pair -----

  lemma NoOpenParts(x: seq<Envelope>, y: seq<Envelope>)
    requires NoOpen(x) && NoOpen(y)
    ensures NoOpen(x + y)
  {
  }

  lemma NoOpenTail(x: seq<Envelope>)
    requires NoOpen(x) && x != []
    ensures NoOpen(x[1..])
  {
  }

  lemma HandshakeA(k: Terms, w: World, act: Act)
    requires TermsOk(k) && Inv(k, w) && Can(k, w, true, act)
    requires Kept(k, true, FlowAB(k, w), FlowBA(w), Perform(k, k.oa, w.a, w.ba, act), Remaining(w.ba, act))
    ensures Handshake(k, Step(k, w, true, act))
  {
    var fo, fi := FlowAB(k, w), FlowBA(w);
    assert View(k, true, fo, fi);
    ActDeal(k, true, fo, fi, act);
    var e := Perform(k, k.oa, w.a, w.ba, act);
    LocalFresh(k, w);
    if act.Recv? {
      NoOpenTail(w.ba);
      ReceiverEnforced(k, w.a, w.ba, act);
    }
    hide Dir, Local, Perform, CodecOk, View, Ack, OpenOf, NoOpen;
    HandshakePipes(k, w, e, act);
  }

  lemma ReceiverEnforced(k: Terms, s: Side, inbox: seq<Envelope>, act: Act)
    requires TermsOk(k) && Local(k, k.oa, true, s) && Enabled(k, k.oa, s, inbox, act) && act.Recv?
    requires Hears(k, true, s, inbox) && s.status != NotYet
    ensures var s' := Perform(k, k.oa, s, inbox, act).side; s'.status == Live ==> s'.deal.enforced
  {
    PerformRecv(k, k.oa, s, inbox, act);
    hide CodecOk;
    LocalModes(k, k.oa, true, s);
    hide Local;
    if s.status == Live && !s.deal.enforced {
      AckSettles(k, k.oa, k.codec, s, inbox[0], act.full, act.others);
    } else {
      HandleEnforced(k.oa, k.codec, s, inbox[0], act.full, act.others);
    }
  }

  lemma HandshakePipes(k: Terms, w: World, e: Effect, act: Act)
    requires Handshake(k, w) && NoOpen(e.out) && e.side.status != NotYet
    requires NoOpen(Remaining(w.ba, act))
    requires w.b.status == NotYet ==> !act.Recv? || w.ba == []
    requires !act.Recv? ==> e.side.deal == w.a.deal && (w.a.status != Live ==> e.side.status == w.a.status)
    requires act.Recv? ==> w.ba != [] && (e.side.status == Live ==> e.side.deal.enforced)
    ensures Handshake(k, World(e.side, w.b, w.ab + e.out, Remaining(w.ba, act)))
  {
    hide Ack, OpenOf;
    if w.b.status == NotYet {
      assert (w.ab + e.out)[0] == w.ab[0] && (w.ab + e.out)[1..] == w.ab[1..] + e.out;
      NoOpenParts(w.ab[1..], e.out);
    } else {
      NoOpenParts(w.ab, e.out);
    }
  }

  lemma PerformRecv(k: Terms, o: Options, s: Side, inbox: seq<Envelope>, act: Act)
    requires OptionsOk(o) && Enabled(k, o, s, inbox, act) && act.Recv?
    ensures Perform(k, o, s, inbox, act) == Handle(o, k.codec, s, inbox[0], act.full, act.others)
  {
  }

  lemma AckSettles(k: Terms, o: Options, c: Codec, s: Side, e: Envelope, full: bool, others: nat)
    requires s.status == Live && s.window > 0 && (e == Ack(k) || e == Close)
    ensures var s' := Handle(o, c, s, e, full, others).side; s'.status == Live ==> s'.deal.enforced
  {
  }

  lemma HandleEnforced(o: Options, c: Codec, s: Side, e: Envelope, full: bool, others: nat)
    requires !e.Open? && (s.status == Live ==> s.deal.enforced)
    ensures var s' := Handle(o, c, s, e, full, others).side; s'.status == Live ==> s'.deal.enforced
  {
    hide PartialOf, PastRoom, Charge, Size;
  }

  lemma HandshakeB(k: Terms, w: World, act: Act)
    requires TermsOk(k) && Inv(k, w) && Can(k, w, false, act)
    requires Kept(k, false, FlowBA(w), FlowAB(k, w), Perform(k, k.ob, w.b, w.ab, act), Remaining(w.ab, act))
    ensures Handshake(k, Step(k, w, false, act))
  {
    var fo, fi := FlowBA(w), FlowAB(k, w);
    assert View(k, false, fo, fi);
    ActDeal(k, false, fo, fi, act);
    var e := Perform(k, k.ob, w.b, w.ab, act);
    var w' := Step(k, w, false, act);
    if w.b.status == NotYet && act.Recv? {
      OpenAct(k, fo, fi, act.full);
    }
    hide Dir, Local, Perform, CodecOk, View;
    if act.Recv? {
      PerformRecv(k, k.ob, w.b, w.ab, act);
      if w.b.status != NotYet {
        NoOpenTail(w.ab);
      }
    }
    NoOpenParts(w.ba, e.out);
    assert w.b.status == NotYet && !act.Recv? ==> w' == w by {
      if w.b.status == NotYet && !act.Recv? {
        assert w.ba + [] == w.ba;
      }
    }
  }

  /** Every step of either end keeps the invariant. */
  lemma StepKeeps(k: Terms, w: World, byA: bool, act: Act)
    requires TermsOk(k) && Inv(k, w) && Can(k, w, byA, act)
    ensures Inv(k, Step(k, w, byA, act))
  {
    var ab, ba := FlowAB(k, w), FlowBA(w);
    LocalWire(k, k.oa, true, w.a);
    LocalWire(k, k.ob, false, w.b);
    LocalFresh(k, w);
    hide Dir, Local, Perform, CodecOk;
    if byA {
      ActKept(k, true, ab, ba, act);
      HandshakeA(k, w, act);
    } else {
      ActKept(k, false, ba, ab, act);
      HandshakeB(k, w, act);
    }
  }

  lemma LocalFresh(k: Terms, w: World)
    requires Inv(k, w)
    ensures w.b.status == NotYet ==> w.ba == [] && w.b == Fresh(NotYet, 0, false, false, {})
    ensures w.a.status != NotYet
    ensures w.ba != [] ==> Hears(k, true, w.a, w.ba)
    ensures w.ab != [] ==> Hears(k, false, w.b, w.ab)
  {
  }

  /** A run: any interleaving of the two ends' steps. */
  ghost predicate IsRun(k: Terms, w: World, steps: seq<(bool, Act)>, w': World)
    requires TermsOk(k)
    decreases |steps|
  {
    if steps == [] then w == w'
    else Can(k, w, steps[0].0, steps[0].1) && IsRun(k, Step(k, w, steps[0].0, steps[0].1), steps[1..], w')
  }

  lemma {:induction false} RunKeeps(k: Terms, w: World, steps: seq<(bool, Act)>, w': World)
    requires TermsOk(k) && Inv(k, w) && IsRun(k, w, steps, w')
    ensures Inv(k, w')
    decreases |steps|
  {
    if steps != [] {
      StepKeeps(k, w, steps[0].0, steps[0].1);
      RunKeeps(k, Step(k, w, steps[0].0, steps[0].1), steps[1..], w');
    }
  }

  /** Some run from `openPort` leads to `w`. */
  ghost predicate Reachable(k: Terms, w: World)
    requires TermsOk(k)
  {
    exists steps :: IsRun(k, Init(k), steps, w)
  }

  lemma ReachableInv(k: Terms, w: World)
    requires TermsOk(k) && Reachable(k, w)
    ensures Inv(k, w)
  {
    var steps :| IsRun(k, Init(k), steps, w);
    InitInv(k);
    RunKeeps(k, Init(k), steps, w);
  }
}
