/**
 Two whole credit multiplexers over one pipe: each stream of theirs runs as if it
 were alone, and once nothing is on the wire their tables hold the same streams.
 */
module CreditNet {
  import opened Basics
  import opened FlowControl
  import opened CreditSide
  import opened CreditWorld
  import opened CreditRuns
  import opened CreditMux

  /** The two ends' options; the initiator calls on even ids, the responder on odd ones. */
  datatype NetTerms = NetTerms(i: Config, j: Config, iMax: nat, jMax: nat)

  predicate NetOk(t: NetTerms) { ConfigOk(t.i) && ConfigOk(t.j) }

  function ConfigOf(t: NetTerms, byI: bool): Config { if byI then t.i else t.j }

  function MaxOf(t: NetTerms, byI: bool): nat { if byI then t.iMax else t.jMax }

  predicate OwnId(byI: bool, id: nat) { (id % 2 == 0) == byI }

  /** A stream's caller and its server. */
  function TermsOf(t: NetTerms, id: nat): Terms {
    if id % 2 == 0 then Terms(t.i, t.j) else Terms(t.j, t.i)
  }

  datatype Net = Net(i: Table, j: Table)

  function TableOf(n: Net, byI: bool): Table { if byI then n.i else n.j }

  function With(n: Net, byI: bool, me: Table, peer: Table): Net {
    if byI then Net(me, peer) else Net(peer, me)
  }

  /** One stream's frames, among those of all of them. */
  function Of(pipe: seq<Sent>, id: nat): seq<Frame> {
    if pipe == [] then [] else (if pipe[0].id == id then [pipe[0].frame] else []) + Of(pipe[1..], id)
  }

  /** One stream of the two multiplexers. */
  function WorldOf(n: Net, id: nat): World {
    if id % 2 == 0 then World(EndOf(n.i.ends, id), EndOf(n.j.ends, id), Of(n.i.pipe, id), Of(n.j.pipe, id))
    else World(EndOf(n.j.ends, id), EndOf(n.i.ends, id), Of(n.j.pipe, id), Of(n.i.pipe, id))
  }

  // ----- what either end may do -----

  datatype Deed = Call | Serve(on: bool) | On(id: nat, act: Act) | Hear

  predicate Able(t: NetTerms, n: Net, byI: bool, d: Deed) {
    match d
    case Call => |OpenIds(TableOf(n, byI).ends)| < MaxOf(t, byI)
    case Serve(_) => true
    case On(id, act) =>
      var s := EndOf(TableOf(n, byI).ends, id);
      !act.Recv? && Enabled(s, [], !OwnId(byI, id), act) && (s.outb.phase.Taken? ==> s.outb.phase.units <= |s.outb.chunk|)
    case Hear => TableOf(n, !byI).pipe != []
  }

  /** One end does something; what it hears is the oldest frame of the other's pipe. */
  function Next(t: NetTerms, n: Net, byI: bool, d: Deed): Net
    requires NetOk(t) && Able(t, n, byI, d)
  {
    var c, me, peer := ConfigOf(t, byI), TableOf(n, byI), TableOf(n, !byI);
    match d
    case Call => With(n, byI, Called(c, me), peer)
    case Serve(on) => With(n, byI, me.(served := on), peer)
    case On(id, act) => With(n, byI, Put(me, id, Perform(c, EndOf(me.ends, id), [], !OwnId(byI, id), act)), peer)
    case Hear => With(n, byI, Heard(c, MaxOf(t, byI), me, peer.pipe[0]), peer.(pipe := peer.pipe[1..]))
  }

  /** Two fresh multiplexers, joined. */
  const JOINED := Net(Table(map[], 2, false, []), Table(map[], 1, false, []))

  predicate IsNetRun(t: NetTerms, nets: seq<Net>, deeds: seq<(bool, Deed)>)
    requires NetOk(t)
  {
    && |nets| == |deeds| + 1 && nets[0] == JOINED
    && forall i :: 0 <= i < |deeds| ==>
         Able(t, nets[i], deeds[i].0, deeds[i].1) && nets[i + 1] == Next(t, nets[i], deeds[i].0, deeds[i].1)
  }

  // ----- the pipes -----

  lemma {:induction false} OfAppend(x: seq<Sent>, y: seq<Sent>, id: nat)
    ensures Of(x + y, id) == Of(x, id) + Of(y, id)
  {
    if x == [] {
      assert x + y == y;
    } else {
      var head := if x[0].id == id then [x[0].frame] else [];
      assert (x + y)[0] == x[0] && (x + y)[1..] == x[1..] + y;
      OfAppend(x[1..], y, id);
      assert Of(x + y, id) == head + (Of(x[1..], id) + Of(y, id));
      assert head + (Of(x[1..], id) + Of(y, id)) == (head + Of(x[1..], id)) + Of(y, id);
    }
  }

  lemma {:induction false} OfTag(x: nat, fs: seq<Frame>, id: nat)
    ensures Of(Tag(x, fs), id) == if x == id then fs else []
  {
    if fs != [] {
      assert Tag(x, fs)[1..] == Tag(x, fs[1..]);
      OfTag(x, fs[1..], id);
    }
  }

  lemma {:induction false} OfIn(pipe: seq<Sent>, id: nat)
    ensures Of(pipe, id) != [] ==> exists x :: x in pipe && x.id == id
  {
    if pipe != [] && pipe[0].id != id { OfIn(pipe[1..], id); }
    if pipe != [] && pipe[0].id == id { assert pipe[0] in pipe; }
  }

  lemma PutStream(m: Table, x: nat, e: Effect, id: nat)
    ensures EndOf(Put(m, x, e).ends, id) == if x == id then e.side else EndOf(m.ends, id)
    ensures Of(Put(m, x, e).pipe, id) == Of(m.pipe, id) + (if x == id then e.out else [])
  {
    OfAppend(m.pipe, Tag(x, e.out), id);
    OfTag(x, e.out, id);
  }

  // ----- one step of the whole is one step of one stream -----

  predicate About(n: Net, byI: bool, d: Deed, id: nat) {
    match d
    case Call => TableOf(n, byI).nextId == id
    case Serve(_) => false
    case On(x, _) => x == id
    case Hear => TableOf(n, !byI).pipe != [] && TableOf(n, !byI).pipe[0].id == id
  }

  /** The stream's step that a deed of one end is, for the stream it is about. */
  function ActOf(t: NetTerms, n: Net, byI: bool, d: Deed): Act
    requires d.On? || d.Hear?
  {
    if d.On? then d.act else Recv(|OpenIds(TableOf(n, byI).ends)| >= MaxOf(t, byI) || !TableOf(n, byI).served)
  }

  /** What no step is about, none changes: no stream's frames touch another's. */
  lemma OthersUntouched(t: NetTerms, n: Net, byI: bool, d: Deed, id: nat)
    requires NetOk(t) && Able(t, n, byI, d) && !About(n, byI, d, id)
    ensures WorldOf(Next(t, n, byI, d), id) == WorldOf(n, id)
  {
    var c, me, peer := ConfigOf(t, byI), TableOf(n, byI), TableOf(n, !byI);
    assert Of(me.pipe, id) + [] == Of(me.pipe, id);
    hide Perform, Handle, Enabled, Put;
    if d.Hear? {
      OthersHear(t, n, byI, id);
    } else {
      hide Of, EndOf, OpenIds;
      match d
      case Call => PutStream(me.(nextId := me.nextId + 2), me.nextId, Opened(c), id);
      case On(x, act) => PutStream(me, x, Perform(c, EndOf(me.ends, x), [], !OwnId(byI, x), act), id);
      case _ =>
    }
  }

  lemma OthersHear(t: NetTerms, n: Net, byI: bool, id: nat)
    requires NetOk(t) && Able(t, n, byI, Hear) && !About(n, byI, Hear, id)
    ensures WorldOf(Next(t, n, byI, Hear), id) == WorldOf(n, id)
  {
    var c, me, peer := ConfigOf(t, byI), TableOf(n, byI), TableOf(n, !byI);
    var x := peer.pipe[0];
    assert Of(peer.pipe, id) == Of(peer.pipe[1..], id);
    hide Perform, Handle, Enabled, Put, Of, EndOf;
    PutStream(me, x.id, Handle(c, EndOf(me.ends, x.id), x.frame, |OpenIds(me.ends)| >= MaxOf(t, byI) || !me.served), id);
    assert Of(me.pipe, id) + [] == Of(me.pipe, id);
  }

  /** An act that hears nothing looks at nothing that is on the wire. */
  lemma Unread(c: Config, s: Side, inbox: seq<Frame>, server: bool, act: Act)
    requires ConfigOk(c) && !act.Recv? && Enabled(s, [], server, act)
    requires s.outb.phase.Taken? ==> s.outb.phase.units <= |s.outb.chunk|
    ensures Enabled(s, inbox, server, act) && Perform(c, s, inbox, server, act) == Perform(c, s, [], server, act)
    ensures Remaining(inbox, act) == inbox
  {
  }

  /** What a deed does at its end, to the stream it is about, is that stream's own step. */
  lemma DeedIsStep(t: NetTerms, n: Net, byI: bool, d: Deed, id: nat)
    requires NetOk(t) && Able(t, n, byI, d) && About(n, byI, d, id) && (d.On? || d.Hear?)
    requires PumpOk(EndOf(TableOf(n, byI).ends, id))
    ensures var k, w, byA, act := TermsOf(t, id), WorldOf(n, id), byI == (id % 2 == 0), ActOf(t, n, byI, d);
            Can(w, byA, act) && WorldOf(Next(t, n, byI, d), id) == Step(k, w, byA, act)
  {
    var c, me, peer, act := ConfigOf(t, byI), TableOf(n, byI), TableOf(n, !byI), ActOf(t, n, byI, d);
    var s, inbox, server := EndOf(me.ends, id), Of(peer.pipe, id), !OwnId(byI, id);
    hide PumpOk, Put;
    if d.On? {
      Unread(c, s, inbox, server, act);
      PutStream(me, id, Perform(c, s, [], server, act), id);
      hide Perform, Enabled;
    } else {
      var x := peer.pipe[0];
      assert inbox == [x.frame] + Of(peer.pipe[1..], id);
      assert Enabled(s, inbox, server, act) && Remaining(inbox, act) == Of(peer.pipe[1..], id);
      PutStream(me, id, Handle(c, s, x.frame, act.refused), id);
      hide Handle;
    }
  }

  // ----- every run of the whole is, stream by stream, a run of that stream -----

  predicate Made(n: Net, id: nat) { 0 < id < TableOf(n, id % 2 == 0).nextId }

  predicate Untouched(n: Net, id: nat) {
    id !in n.i.ends && id !in n.j.ends && Of(n.i.pipe, id) == [] && Of(n.j.pipe, id) == []
  }

  ghost predicate StreamOk(t: NetTerms, n: Net, id: nat)
    requires NetOk(t)
  {
    if Made(n, id) then Reachable(TermsOf(t, id), WorldOf(n, id)) else Untouched(n, id)
  }

  predicate WithinLimit(t: NetTerms, n: Net, byI: bool) {
    |OpenIds(TableOf(n, byI).ends)| <= MaxOf(t, byI)
  }

  predicate Ids(n: Net) {
    n.i.nextId >= 2 && n.i.nextId % 2 == 0 && n.j.nextId % 2 == 1
  }

  ghost predicate NetInv(t: NetTerms, n: Net)
    requires NetOk(t)
  {
    && Ids(n) && WithinLimit(t, n, true) && WithinLimit(t, n, false)
    && forall id: nat :: StreamOk(t, n, id)
  }

  lemma CallStarts(t: NetTerms, n: Net, byI: bool)
    requires NetOk(t) && NetInv(t, n) && Able(t, n, byI, Call)
    ensures StreamOk(t, Next(t, n, byI, Call), TableOf(n, byI).nextId)
  {
    var c, me, id := ConfigOf(t, byI), TableOf(n, byI), TableOf(n, byI).nextId;
    var k := TermsOf(t, id);
    assert StreamOk(t, n, id) && !Made(n, id) && Untouched(n, id);
    PutStream(me.(nextId := id + 2), id, Opened(c), id);
    assert [] + Opened(c).out == Opened(c).out;
    hide Opened, Reachable, Put, NetInv;
    assert WorldOf(Next(t, n, byI, Call), id) == Init(k);
    AtFirst(k);
  }

  lemma AtFirst(k: Terms)
    requires TermsOk(k)
    ensures Reachable(k, Init(k))
  {
    assert IsRun(k, [Init(k)]);
  }

  /** Only a stream that was made has an end that acts, or frames on the wire. */
  lemma OnlyMadeActs(t: NetTerms, n: Net, byI: bool, d: Deed, id: nat)
    requires NetOk(t) && NetInv(t, n) && Able(t, n, byI, d) && About(n, byI, d, id) && (d.On? || d.Hear?)
    ensures Made(n, id)
  {
    assert StreamOk(t, n, id);
    hide Reachable;
    if d.On? { assert Enabled(EndOf(TableOf(n, byI).ends, id), [], !OwnId(byI, id), d.act); }
  }

  lemma ActSteps(t: NetTerms, n: Net, byI: bool, d: Deed, id: nat)
    requires NetOk(t) && NetInv(t, n) && Able(t, n, byI, d) && About(n, byI, d, id) && (d.On? || d.Hear?)
    ensures Made(n, id) && Reachable(TermsOf(t, id), WorldOf(Next(t, n, byI, d), id))
  {
    OnlyMadeActs(t, n, byI, d, id);
    var k, w := TermsOf(t, id), WorldOf(n, id);
    assert StreamOk(t, n, id);
    hide Reachable, NetInv;
    ReachableInv(k, w);
    assert PumpOk(w.a) && PumpOk(w.b);
    hide *;
    assert PumpOk(EndOf(TableOf(n, byI).ends, id)) by { EndIn(n, byI, id); }
    DeedIsStep(t, n, byI, d, id);
    Extend(k, w, byI == (id % 2 == 0), ActOf(t, n, byI, d));
  }

  lemma EndIn(n: Net, byI: bool, id: nat)
    ensures EndOf(TableOf(n, byI).ends, id) == if byI == (id % 2 == 0) then WorldOf(n, id).a else WorldOf(n, id).b
  {
  }

  lemma NextIds(t: NetTerms, n: Net, byI: bool, d: Deed)
    requires NetOk(t) && Able(t, n, byI, d)
    ensures var n' := Next(t, n, byI, d);
            && TableOf(n', byI).nextId == TableOf(n, byI).nextId + (if d.Call? then 2 else 0)
            && TableOf(n', !byI).nextId == TableOf(n, !byI).nextId
            && TableOf(n', !byI).ends == TableOf(n, !byI).ends
  {
    hide Perform, Handle, Opened, Enabled;
  }

  lemma StreamKept(t: NetTerms, n: Net, byI: bool, d: Deed, id: nat)
    requires NetOk(t) && NetInv(t, n) && Able(t, n, byI, d)
    ensures StreamOk(t, Next(t, n, byI, d), id)
  {
    assert StreamOk(t, n, id);
    NextIds(t, n, byI, d);
    hide Reachable, Able, Next, NetInv, WorldOf, TermsOf;
    if !About(n, byI, d, id) {
      OthersUntouched(t, n, byI, d, id);
      OthersAbsent(t, n, byI, d, id);
      MadeKept(t, n, byI, d, id);
    } else if d.Call? {
      CallStarts(t, n, byI);
    } else {
      ActSteps(t, n, byI, d, id);
      MadeKept(t, n, byI, d, id);
    }
  }

  lemma MadeKept(t: NetTerms, n: Net, byI: bool, d: Deed, id: nat)
    requires NetOk(t) && NetInv(t, n) && Able(t, n, byI, d)
    requires !About(n, byI, d, id) || !d.Call?
    ensures Made(Next(t, n, byI, d), id) == Made(n, id)
  {
    NextIds(t, n, byI, d);
    hide Next, Able, StreamOk;
  }

  lemma OthersAbsent(t: NetTerms, n: Net, byI: bool, d: Deed, id: nat)
    requires NetOk(t) && Able(t, n, byI, d) && !About(n, byI, d, id)
    ensures var n' := Next(t, n, byI, d);
            && (id in n'.i.ends <==> id in n.i.ends) && (id in n'.j.ends <==> id in n.j.ends)
            && Of(n'.i.pipe, id) == Of(n.i.pipe, id) && Of(n'.j.pipe, id) == Of(n.j.pipe, id)
  {
    OthersUntouched(t, n, byI, d, id);
    hide Perform, Handle, Opened, Enabled;
  }

  /** Nothing but an OPEN, or a call, takes a slot. */
  lemma ActTakesNoSlot(c: Config, s: Side, server: bool, act: Act)
    requires ConfigOk(c) && !act.Recv? && Enabled(s, [], server, act)
    requires s.outb.phase.Taken? ==> s.outb.phase.units <= |s.outb.chunk|
    ensures Perform(c, s, [], server, act).side.status == Live ==> s.status == Live
  {
    hide Reserve, Consume;
  }

  lemma PutTakesNoSlot(m: Table, id: nat, e: Effect)
    requires e.side.status == Live ==> EndOf(m.ends, id).status == Live
    ensures |OpenIds(Put(m, id, e).ends)| <= |OpenIds(m.ends)|
  {
    var after := OpenIds(Put(m, id, e).ends);
    if e.side.status == Live {
      assert after == OpenIds(m.ends);
    } else {
      assert after == OpenIds(m.ends) - {id};
      Fewer(OpenIds(m.ends), id);
    }
  }

  lemma CallTakesOne(c: Config, m: Table)
    ensures |OpenIds(Called(c, m).ends)| <= |OpenIds(m.ends)| + 1
  {
    assert OpenIds(Called(c, m).ends) == OpenIds(m.ends) + {m.nextId};
  }

  lemma LimitKept(t: NetTerms, n: Net, byI: bool, d: Deed)
    requires NetOk(t) && Able(t, n, byI, d) && WithinLimit(t, n, byI)
    ensures WithinLimit(t, Next(t, n, byI, d), byI)
  {
    var c, me, peer := ConfigOf(t, byI), TableOf(n, byI), TableOf(n, !byI);
    hide Handle, Perform, Enabled, OpenIds;
    match d
    case Call => CallTakesOne(c, me);
    case Serve(_) =>
    case On(id, act) =>
      ActTakesNoSlot(c, EndOf(me.ends, id), !OwnId(byI, id), act);
      PutTakesNoSlot(me, id, Perform(c, EndOf(me.ends, id), [], !OwnId(byI, id), act));
    case Hear =>
      var x := peer.pipe[0];
      OpensWithinLimit(c, me.ends, x.id, x.frame, |OpenIds(me.ends)| >= MaxOf(t, byI) || !me.served, MaxOf(t, byI));
  }

  /** Every step of either multiplexer keeps every stream a run of its own, and both tables within their limits. */
  lemma NetStepKeeps(t: NetTerms, n: Net, byI: bool, d: Deed)
    requires NetOk(t) && NetInv(t, n) && Able(t, n, byI, d)
    ensures NetInv(t, Next(t, n, byI, d))
  {
    forall id: nat ensures StreamOk(t, Next(t, n, byI, d), id) { StreamKept(t, n, byI, d, id); }
    NextIds(t, n, byI, d);
    hide Next, StreamOk, Able;
    LimitKept(t, n, byI, d);
  }

  lemma {:induction false} NetRunKeeps(t: NetTerms, nets: seq<Net>, deeds: seq<(bool, Deed)>)
    requires NetOk(t) && IsNetRun(t, nets, deeds)
    ensures NetInv(t, nets[|deeds|])
    decreases |deeds|
  {
    if deeds == [] {
      assert OpenIds(map[]) == {};
    } else {
      var n := |deeds| - 1;
      var earlier, past := nets[..n + 1], deeds[..n];
      assert IsNetRun(t, earlier, past) by {
        forall i | 0 <= i < n
          ensures Able(t, earlier[i], past[i].0, past[i].1) && earlier[i + 1] == Next(t, earlier[i], past[i].0, past[i].1)
        {
          assert earlier[i] == nets[i] && earlier[i + 1] == nets[i + 1] && past[i] == deeds[i];
        }
      }
      hide NetInv, Able, Next;
      NetRunKeeps(t, earlier, past);
      NetStepKeeps(t, nets[n], deeds[n].0, deeds[n].1);
    }
  }

  // ----- what it means -----

  /**
   Two multiplexers, any number of streams called from either end, any
   interleaving: every stream made is in a state it could be in alone, so all that
   is proved of one stream holds of it; and neither table passes its limit.
   */
  lemma EveryStreamRunsAlone(t: NetTerms, nets: seq<Net>, deeds: seq<(bool, Deed)>, id: nat)
    requires NetOk(t) && IsNetRun(t, nets, deeds)
    ensures var n := nets[|deeds|];
            && (Made(n, id) ==> Reachable(TermsOf(t, id), WorldOf(n, id)))
            && (!Made(n, id) ==> Untouched(n, id))
            && |OpenIds(n.i.ends)| <= t.iMax && |OpenIds(n.j.ends)| <= t.jMax
  {
    NetRunKeeps(t, nets, deeds);
    assert StreamOk(t, nets[|deeds|], id);
    hide Reachable;
  }

  /** The streams with a frame on the wire. */
  function OnWire(pipe: seq<Sent>): set<nat> {
    set x | x in pipe :: x.id
  }

  lemma HeldByBoth(t: NetTerms, n: Net, id: nat)
    requires NetOk(t) && NetInv(t, n) && id !in OnWire(n.i.pipe) && id !in OnWire(n.j.pipe)
    ensures id in OpenIds(n.i.ends) <==> id in OpenIds(n.j.ends)
  {
    assert StreamOk(t, n, id);
    hide Reachable;
    if Made(n, id) {
      OfIn(n.i.pipe, id);
      OfIn(n.j.pipe, id);
      SlotsAgree(TermsOf(t, id), WorldOf(n, id));
    }
  }

  /**
   The two tables differ in no stream but those with a frame on the wire; so once
   all is read, they hold exactly the same streams.
   */
  lemma TablesAgree(t: NetTerms, nets: seq<Net>, deeds: seq<(bool, Deed)>)
    requires NetOk(t) && IsNetRun(t, nets, deeds)
    ensures var n := nets[|deeds|];
            && OpenIds(n.i.ends) - OpenIds(n.j.ends) <= OnWire(n.i.pipe) + OnWire(n.j.pipe)
            && OpenIds(n.j.ends) - OpenIds(n.i.ends) <= OnWire(n.i.pipe) + OnWire(n.j.pipe)
            && (n.i.pipe == [] && n.j.pipe == [] ==> OpenIds(n.i.ends) == OpenIds(n.j.ends))
  {
    var n := nets[|deeds|];
    NetRunKeeps(t, nets, deeds);
    forall id: nat | id !in OnWire(n.i.pipe) && id !in OnWire(n.j.pipe)
      ensures id in OpenIds(n.i.ends) <==> id in OpenIds(n.j.ends)
    {
      HeldByBoth(t, n, id);
    }
    hide NetInv, IsNetRun;
  }

  /** On every stream, each consumer has read, in order, a beginning of what the other end's input gave. */
  lemma EveryStreamReads(t: NetTerms, nets: seq<Net>, deeds: seq<(bool, Deed)>, id: nat)
    requires NetOk(t) && IsNetRun(t, nets, deeds)
    ensures var i, j := EndOf(nets[|deeds|].i.ends, id), EndOf(nets[|deeds|].j.ends, id);
            i.inb.read <= j.outb.offered && j.inb.read <= i.outb.offered
  {
    var n := nets[|deeds|];
    NetRunKeeps(t, nets, deeds);
    assert StreamOk(t, n, id);
    hide Reachable;
    if Made(n, id) {
      ReadIsPrefix(TermsOf(t, id), WorldOf(n, id), true);
      ReadIsPrefix(TermsOf(t, id), WorldOf(n, id), false);
    }
  }
}
