/**
 Two whole multiplexers over one pipe: each port of theirs runs as if it were
 alone, so everything proved of one port holds of all of them at once.
 */
module PortNet {
  import opened Basics
  import opened PortSide
  import opened PortWire
  import opened PortWorld
  import opened PortRuns
  import opened PortTheorems
  import opened PortTable

  /** The two ends' options; the initiator opens even ids, the responder odd ones. */
  datatype NetTerms = NetTerms(i: Config, j: Config, chunk: nat -> Payload -> bool)

  ghost predicate NetOk(t: NetTerms) {
    && OptionsOk(t.i.o) && OptionsOk(t.j.o) && t.i.window >= 1 && t.j.window >= 1
    && t.i.codecs == t.j.codecs && forall id :: CodecOk(t.i.codecs(id))
  }

  function ConfigOf(t: NetTerms, byI: bool): Config { if byI then t.i else t.j }

  predicate OwnId(byI: bool, id: nat) { (id % 2 == 0) == byI }

  /** What is fixed for one port: its opener's window, and both ends' options. */
  function TermsOf(t: NetTerms, id: nat): Terms {
    if id % 2 == 0 then Terms(t.i.codecs(id), t.i.window, t.i.o, t.j.o, t.chunk(id))
    else Terms(t.i.codecs(id), t.j.window, t.j.o, t.i.o, t.chunk(id))
  }

  datatype Net = Net(i: Mux, j: Mux)

  function MuxOf(n: Net, byI: bool): Mux { if byI then n.i else n.j }

  /** One port of the two multiplexers. */
  function WorldOf(n: Net, id: nat): World {
    if id % 2 == 0 then World(SideOf(n.i, id), SideOf(n.j, id), Of(n.i.pipe, id), Of(n.j.pipe, id))
    else World(SideOf(n.j, id), SideOf(n.i, id), Of(n.j.pipe, id), Of(n.i.pipe, id))
  }

  /** The block of code that made a queue sendable flushes it before anything else happens there. */
  predicate Allowed(t: NetTerms, m: Mux, d: Deed) {
    match d
    case OpenPort(_) => true
    case On(id, act) =>
      && (CanFlush(SideOf(m, id)) ==> act.Flush?)
      && (act.Post? ==> t.i.codecs(id).carries(act.payload))
      && (act.Post? && t.chunk(id)(act.payload) ==> SideOf(m, id).deal.enforced)
      && (act.Reject? ==> !SideOf(m, id).deal.opener)
    case Hear(id, _) => !CanFlush(SideOf(m, id))
    case Turn => m.ring != [] && !CanFlush(SideOf(m, m.ring[0]))
    case CloseAll => forall id :: id in m.ports ==> !CanFlush(m.ports[id])
  }

  /** One end does something; what it hears is the oldest envelope of the other's pipe. */
  ghost predicate NetStep(t: NetTerms, n: Net, byI: bool, d: Deed, n': Net)
    requires NetOk(t)
  {
    var me, peer, me', peer' := MuxOf(n, byI), MuxOf(n, !byI), MuxOf(n', byI), MuxOf(n', !byI);
    && Allowed(t, me, d)
    && Did(ConfigOf(t, byI), me, d, me')
    && (d.Hear? ==> peer.pipe != [] && peer.pipe[0] == Tagged(d.id, d.env))
    && peer' == if d.Hear? then peer.(pipe := peer.pipe[1..]) else peer
  }

  // ----- runs of one port -----

  lemma {:induction false} RunSnoc(k: Terms, w: World, steps: seq<(bool, Act)>, w1: World, byA: bool, act: Act)
    requires TermsOk(k) && IsRun(k, w, steps, w1) && Can(k, w1, byA, act)
    ensures IsRun(k, w, steps + [(byA, act)], Step(k, w1, byA, act))
    decreases |steps|
  {
    var more := steps + [(byA, act)];
    if steps == [] {
      assert more[1..] == [];
    } else {
      assert more[1..] == steps[1..] + [(byA, act)];
      RunSnoc(k, Step(k, w, steps[0].0, steps[0].1), steps[1..], w1, byA, act);
    }
  }

  lemma ReachStep(k: Terms, w: World, byA: bool, act: Act)
    requires TermsOk(k) && Reachable(k, w) && Can(k, w, byA, act)
    ensures Reachable(k, Step(k, w, byA, act))
  {
    var steps :| IsRun(k, Init(k), steps, w);
    RunSnoc(k, Init(k), steps, w, byA, act);
  }

  // ----- one step of the whole is one step of one port -----

  /** The port's step that a deed of one end is, for the port it is about. */
  function ActOf(cfg: Config, m: Mux, d: Deed, id: nat): Act {
    match d
    case On(_, act) => act
    case Hear(_, _) => Recv(Full(cfg, m), Others(m, id))
    case Turn => Pump
    case _ => Shutdown
  }

  predicate About(m: Mux, d: Deed, id: nat) {
    match d
    case OpenPort(x) => x == id
    case On(x, _) => x == id
    case Hear(x, _) => x == id
    case Turn => m.ring != [] && m.ring[0] == id
    case CloseAll => true
  }

  lemma PutElsewhere(m: Mux, x: nat, e: Effect, ring: seq<nat>, id: nat)
    requires x != id
    ensures var m' := PutRing(m, x, e, ring);
            SideOf(m', id) == SideOf(m, id) && Of(m'.pipe, id) == Of(m.pipe, id) && (id in m'.ports <==> id in m.ports)
  {
    PutPort(m, x, e, ring, id);
    assert Of(m.pipe, id) + [] == Of(m.pipe, id);
  }

  lemma DeedElsewhere(cfg: Config, m: Mux, d: Deed, m': Mux, id: nat)
    requires OptionsOk(cfg.o) && Did(cfg, m, d, m') && !About(m, d, id)
    ensures SideOf(m', id) == SideOf(m, id) && Of(m'.pipe, id) == Of(m.pipe, id) && (id in m'.ports <==> id in m.ports)
  {
    hide LocalEffect, Handle, PumpOne, OpenEffect, RingAfter, Full, Others, Charged;
    match d
    case OpenPort(x) => PutElsewhere(m, x, OpenEffect(cfg, SideOf(m, x)), Put(m, x, OpenEffect(cfg, SideOf(m, x))).ring, id);
    case On(x, act) =>
      var e := LocalEffect(cfg.o, cfg.codecs(x), m.ports[x], act);
      PutElsewhere(m, x, e, Put(m, x, e).ring, id);
    case Hear(x, env) =>
      var e := Handle(cfg.o, cfg.codecs(x), SideOf(m, x), env, Full(cfg, m), Others(m, x));
      PutElsewhere(m, x, e, Put(m, x, e).ring, id);
    case Turn => PutElsewhere(m, m.ring[0], PumpOne(SideOf(m, m.ring[0])), PumpTurn(m).ring, id);
    case CloseAll =>
  }

  /** What no step is about, none changes: no port's traffic touches another's. */
  lemma OthersUntouched(t: NetTerms, n: Net, byI: bool, d: Deed, n': Net, id: nat)
    requires NetOk(t) && NetStep(t, n, byI, d, n') && !About(MuxOf(n, byI), d, id)
    ensures WorldOf(n', id) == WorldOf(n, id)
  {
    DeedElsewhere(ConfigOf(t, byI), MuxOf(n, byI), d, MuxOf(n', byI), id);
    hide Did, Allowed;
  }

  /** What a deed does at its end, to the port it is about. */
  lemma DeedIsAct(t: NetTerms, n: Net, byI: bool, d: Deed, n': Net, id: nat)
    requires NetOk(t) && NetStep(t, n, byI, d, n') && About(MuxOf(n, byI), d, id) && !d.OpenPort?
    requires MuxOk(ConfigOf(t, byI), MuxOf(n, byI))
    requires d.CloseAll? ==> SideOf(MuxOf(n, byI), id).status != NotYet
    requires d.Turn? ==> ConfigOf(t, byI).o.frameSize.Some?
    ensures var k, cfg, me, act := TermsOf(t, id), ConfigOf(t, byI), MuxOf(n, byI), ActOf(ConfigOf(t, byI), MuxOf(n, byI), d, id);
            var s, inbox := SideOf(me, id), Of(MuxOf(n, !byI).pipe, id);
            && Enabled(k, cfg.o, s, inbox, act)
            && SideOf(MuxOf(n', byI), id) == Perform(k, cfg.o, s, inbox, act).side
            && Of(MuxOf(n', byI).pipe, id) == Of(me.pipe, id) + Perform(k, cfg.o, s, inbox, act).out
            && Of(MuxOf(n', !byI).pipe, id) == Remaining(inbox, act)
            && SideOf(MuxOf(n', !byI), id) == SideOf(MuxOf(n, !byI), id)
  {
    var k, cfg, me, peer := TermsOf(t, id), ConfigOf(t, byI), MuxOf(n, byI), MuxOf(n, !byI);
    var s, inbox, act := SideOf(me, id), Of(peer.pipe, id), ActOf(cfg, me, d, id);
    hide MuxOk, CodecOk, PostPayload, FlushOne, SettleOne, FireTimer, EndDirection, CloseSide, RejectSide, Handle, PumpOne, Full, Others;
    match d
    case On(x, a) =>
      var e := LocalEffect(cfg.o, cfg.codecs(x), s, a);
      PutPort(me, x, e, Put(me, x, e).ring, id);
      assert e == Perform(k, cfg.o, s, inbox, act);
    case Hear(x, env) =>
      var e := Handle(cfg.o, cfg.codecs(x), s, env, Full(cfg, me), Others(me, x));
      PutPort(me, x, e, Put(me, x, e).ring, id);
      assert inbox == [env] + Of(peer.pipe[1..], id);
    case Turn => PutPort(me, id, PumpOne(s), PumpTurn(me).ring, id);
    case CloseAll =>
  }

  // ----- every run of the whole is, port by port, a run of that port -----

  predicate Opened(n: Net, id: nat) { id < MuxOf(n, id % 2 == 0).nextId }

  predicate Untouched(n: Net, id: nat) {
    id !in n.i.ports && id !in n.j.ports && Of(n.i.pipe, id) == [] && Of(n.j.pipe, id) == []
  }

  ghost predicate PortOk(t: NetTerms, n: Net, id: nat)
    requires NetOk(t)
  {
    if Opened(n, id) then Reachable(TermsOf(t, id), WorldOf(n, id)) else Untouched(n, id)
  }

  ghost predicate NetInv(t: NetTerms, n: Net)
    requires NetOk(t)
  {
    && MuxOk(t.i, n.i) && MuxOk(t.j, n.j)
    && n.i.nextId % 2 == 0 && n.j.nextId % 2 == 1
    && forall id: nat :: PortOk(t, n, id)
  }

  /** The next id is always free: the peer never takes one of this end's parity. */
  lemma OpensNext(t: NetTerms, n: Net, byI: bool, id: nat)
    requires NetOk(t) && NetInv(t, n) && NextFree(MuxOf(n, byI), id)
    ensures id == MuxOf(n, byI).nextId && OwnId(byI, id) && Untouched(n, id)
  {
    var m := MuxOf(n, byI);
    assert PortOk(t, n, m.nextId);
    assert m.nextId !in m.ports;
    assert m.nextId !in OpenIds(m);
  }

  lemma OpenStarts(t: NetTerms, n: Net, byI: bool, id: nat, n': Net)
    requires NetOk(t) && NetInv(t, n) && NetStep(t, n, byI, OpenPort(id), n')
    ensures PortOk(t, n', id) && Opened(n', id)
  {
    var me, cfg := MuxOf(n, byI), ConfigOf(t, byI);
    OpensNext(t, n, byI, id);
    var e := OpenEffect(cfg, NO_PORT);
    PutPort(me, id, e, Put(me, id, e).ring, id);
    var k := TermsOf(t, id);
    assert WorldOf(n', id) == Init(k);
    hide NetInv, MuxOk, NetStep;
    assert IsRun(k, Init(k), [], WorldOf(n', id));
  }

  lemma ActSteps(t: NetTerms, n: Net, byI: bool, d: Deed, n': Net, id: nat)
    requires NetOk(t) && NetInv(t, n) && NetStep(t, n, byI, d, n') && Opened(n, id)
    requires About(MuxOf(n, byI), d, id) && !d.OpenPort?
    requires d.CloseAll? ==> SideOf(MuxOf(n, byI), id).status != NotYet
    ensures Reachable(TermsOf(t, id), WorldOf(n', id))
  {
    var k, act := TermsOf(t, id), ActOf(ConfigOf(t, byI), MuxOf(n, byI), d, id);
    assert PortOk(t, n, id);
    if d.Turn? { FramesInRing(t, n, byI); }
    DeedIsAct(t, n, byI, d, n', id);
    hide NetInv, NetStep, Reachable, Perform, Enabled, ActOf, NetOk;
    var byA := byI == (id % 2 == 0);
    assert Can(k, WorldOf(n, id), byA, act);
    assert WorldOf(n', id) == Step(k, WorldOf(n, id), byA, act);
    ReachStep(k, WorldOf(n, id), byA, act);
  }

  /** Only an end that frames has anything in its ring. */
  lemma FramesInRing(t: NetTerms, n: Net, byI: bool)
    requires NetOk(t) && NetInv(t, n) && MuxOf(n, byI).ring != []
    ensures ConfigOf(t, byI).o.frameSize.Some?
  {
    var m := MuxOf(n, byI);
    var id := m.ring[0];
    assert id in m.ring;
    assert PortOk(t, n, id);
    assert SideOf(m, id).outgoing != [];
    ReachableInv(TermsOf(t, id), WorldOf(n, id));
    hide Dir, Handshake, CodecOk, QueueOk, Reachable;
  }

  lemma PortSteps(t: NetTerms, n: Net, byI: bool, d: Deed, n': Net, id: nat)
    requires NetOk(t) && NetInv(t, n) && NetStep(t, n, byI, d, n')
    ensures PortOk(t, n', id)
  {
    var me := MuxOf(n, byI);
    hide Reachable, TermsOf, CodecOk;
    if !About(me, d, id) {
      OthersOk(t, n, byI, d, n', id);
    } else if d.OpenPort? {
      OpenStarts(t, n, byI, id, n');
    } else if d.CloseAll? && SideOf(me, id).status == NotYet {
      IdleOk(t, n, byI, d, n', id);
    } else {
      KnownPort(t, n, byI, d, n', id);
      ActSteps(t, n, byI, d, n', id);
    }
  }

  lemma OthersOk(t: NetTerms, n: Net, byI: bool, d: Deed, n': Net, id: nat)
    requires NetOk(t) && NetInv(t, n) && NetStep(t, n, byI, d, n') && !About(MuxOf(n, byI), d, id)
    ensures PortOk(t, n', id)
  {
    assert PortOk(t, n, id);
    NextIds(t, n, byI, d, n');
    OthersUntouched(t, n, byI, d, n', id);
    OthersAbsent(t, n, byI, d, n', id);
    hide Reachable, TermsOf, CodecOk, NetStep, MuxOk, NetInv;
  }

  lemma IdleOk(t: NetTerms, n: Net, byI: bool, d: Deed, n': Net, id: nat)
    requires NetOk(t) && NetInv(t, n) && NetStep(t, n, byI, d, n') && About(MuxOf(n, byI), d, id)
    requires d.CloseAll? && SideOf(MuxOf(n, byI), id).status == NotYet
    ensures PortOk(t, n', id)
  {
    assert PortOk(t, n, id);
    NextIds(t, n, byI, d, n');
    hide Reachable, TermsOf, CodecOk;
    assert id !in MuxOf(n, byI).ports ==> id !in MuxOf(n', byI).ports;
    IdleClose(t, n, byI, n', id);
  }

  lemma KnownPort(t: NetTerms, n: Net, byI: bool, d: Deed, n': Net, id: nat)
    requires NetOk(t) && NetInv(t, n) && NetStep(t, n, byI, d, n') && About(MuxOf(n, byI), d, id) && !d.OpenPort?
    requires d.CloseAll? ==> SideOf(MuxOf(n, byI), id).status != NotYet
    ensures Opened(n, id)
  {
    assert PortOk(t, n, id);
  }

  lemma NextIds(t: NetTerms, n: Net, byI: bool, d: Deed, n': Net)
    requires NetOk(t) && NetInv(t, n) && NetStep(t, n, byI, d, n')
    ensures MuxOf(n', byI).nextId == MuxOf(n, byI).nextId + (if d.OpenPort? then 2 else 0)
    ensures MuxOf(n', !byI).nextId == MuxOf(n, !byI).nextId
    ensures d.OpenPort? ==> d.id == MuxOf(n, byI).nextId && OwnId(byI, d.id)
  {
    if d.OpenPort? { OpensNext(t, n, byI, d.id); }
    hide NetInv;
  }

  lemma OthersAbsent(t: NetTerms, n: Net, byI: bool, d: Deed, n': Net, id: nat)
    requires NetOk(t) && NetStep(t, n, byI, d, n') && !About(MuxOf(n, byI), d, id)
    ensures id in MuxOf(n', byI).ports <==> id in MuxOf(n, byI).ports
    ensures MuxOf(n', !byI).ports == MuxOf(n, !byI).ports
  {
    DeedElsewhere(ConfigOf(t, byI), MuxOf(n, byI), d, MuxOf(n', byI), id);
    hide Did;
  }

  lemma IdleClose(t: NetTerms, n: Net, byI: bool, n': Net, id: nat)
    requires NetOk(t) && NetInv(t, n) && NetStep(t, n, byI, CloseAll, n') && SideOf(MuxOf(n, byI), id).status == NotYet
    ensures WorldOf(n', id) == WorldOf(n, id)
  {
    var me := MuxOf(n, byI);
    assert PortOk(t, n, id);
    assert SideOf(me, id).outgoing == [] by {
      if Opened(n, id) {
        ReachableInv(TermsOf(t, id), WorldOf(n, id));
        LocalFresh(TermsOf(t, id), WorldOf(n, id));
        hide Inv, CodecOk, Reachable;
      }
    }
    hide NetInv;
    assert Of(MuxOf(n', byI).pipe, id) == Of(me.pipe, id) + ShutdownSide(SideOf(me, id)).out;
  }

  /** Every step of either multiplexer keeps every port a run of its own. */
  lemma NetStepKeeps(t: NetTerms, n: Net, byI: bool, d: Deed, n': Net)
    requires NetOk(t) && NetInv(t, n) && NetStep(t, n, byI, d, n')
    ensures NetInv(t, n')
  {
    forall id: nat ensures PortOk(t, n', id) { PortSteps(t, n, byI, d, n', id); }
    NextIds(t, n, byI, d, n');
    DeedKeeps(ConfigOf(t, byI), MuxOf(n, byI), d, MuxOf(n', byI));
    hide PortOk, Did, CodecOk;
    ReadKeeps(ConfigOf(t, !byI), MuxOf(n, !byI), MuxOf(n', !byI));
  }

  lemma ReadKeeps(cfg: Config, m: Mux, m': Mux)
    requires MuxOk(cfg, m) && m' == m.(pipe := m'.pipe)
    ensures MuxOk(cfg, m')
  {
    assert OpenIds(m') == OpenIds(m);
    forall id ensures SideOf(m', id) == SideOf(m, id) {}
  }

  /** Two fresh multiplexers, joined. */
  const JOINED := Net(Empty(0), Empty(1))

  ghost predicate IsNetRun(t: NetTerms, nets: seq<Net>, deeds: seq<(bool, Deed)>)
    requires NetOk(t)
  {
    && |nets| == |deeds| + 1 && nets[0] == JOINED
    && forall i :: 0 <= i < |deeds| ==> NetStep(t, nets[i], deeds[i].0, deeds[i].1, nets[i + 1])
  }

  lemma {:induction false} NetRunKeeps(t: NetTerms, nets: seq<Net>, deeds: seq<(bool, Deed)>)
    requires NetOk(t) && IsNetRun(t, nets, deeds)
    ensures NetInv(t, nets[|deeds|])
    decreases |deeds|
  {
    if deeds == [] {
      JoinedInv(t);
    } else {
      var n := |deeds| - 1;
      var earlier, past := nets[..n + 1], deeds[..n];
      assert IsNetRun(t, earlier, past) by {
        forall i | 0 <= i < n ensures NetStep(t, earlier[i], past[i].0, past[i].1, earlier[i + 1]) {
          assert earlier[i] == nets[i] && earlier[i + 1] == nets[i + 1] && past[i] == deeds[i];
        }
      }
      hide NetInv, NetStep;
      NetRunKeeps(t, earlier, past);
      NetStepKeeps(t, nets[n], deeds[n].0, deeds[n].1, nets[n + 1]);
    }
  }

  lemma JoinedInv(t: NetTerms)
    requires NetOk(t)
    ensures NetInv(t, JOINED)
  {
    assert OpenIds(Empty(0)) == {} && OpenIds(Empty(1)) == {};
    forall n: nat ensures Sum(Charged, map[], n) == 0 { NothingCharged(Empty(0), n); }
  }

  /**
   Two multiplexers, any number of ports, any interleaving: every port opened is
   in a state it could be in alone, so all that is proved of one port holds of it.
   */
  lemma EveryPortRunsAlone(t: NetTerms, nets: seq<Net>, deeds: seq<(bool, Deed)>, id: nat)
    requires NetOk(t) && IsNetRun(t, nets, deeds)
    ensures var n := nets[|deeds|];
            Opened(n, id) ==> TermsOk(TermsOf(t, id)) && Reachable(TermsOf(t, id), WorldOf(n, id))
  {
    NetRunKeeps(t, nets, deeds);
    assert PortOk(t, nets[|deeds|], id);
  }

  /** End to end: on every port, each end has delivered, intact and in order, a beginning of what the other posted. */
  lemma EveryPortDelivers(t: NetTerms, nets: seq<Net>, deeds: seq<(bool, Deed)>, id: nat)
    requires NetOk(t) && IsNetRun(t, nets, deeds)
    ensures var i, j := SideOf(nets[|deeds|].i, id), SideOf(nets[|deeds|].j, id);
            i.hist.delivered <= j.hist.posted && j.hist.delivered <= i.hist.posted
  {
    var n := nets[|deeds|];
    NetRunKeeps(t, nets, deeds);
    assert PortOk(t, n, id);
    if Opened(n, id) { DeliveredIsPrefix(TermsOf(t, id), WorldOf(n, id)); }
  }
}
