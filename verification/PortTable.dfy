/**
 One multiplexer end as a value: its ports, the fair ring, the bytes it holds of
 messages still arriving, and the pipe it writes to. The class in `PortMux`
 updates exactly this state; here is what every one of its operations keeps,
 whatever the peer sends.
 */
module PortTable {
  import opened Basics
  import opened PortSide
  import opened PortWire
  import opened PortWorld

  /** An envelope with the id of its port. */
  datatype Tagged = Tagged(id: nat, env: Envelope)

  /** The options of one end; a port's codec sees its id in every envelope. */
  datatype Config = Config(o: Options, codecs: nat -> Codec, window: nat, maxPorts: nat)

  /**
   `ports` keeps the record of every port known so far; those that are `Live` are
   in the table (`open`). `pipe` is what was put on the pipe and not yet read.
   */
  datatype Mux = Mux(ports: map<nat, Side>, ring: seq<nat>, reassembling: nat, nextId: nat, closed: bool, pipe: seq<Tagged>)

  const NO_PORT := Fresh(NotYet, 0, false, false, {})

  function SideOf(m: Mux, id: nat): Side {
    if id in m.ports then m.ports[id] else NO_PORT
  }

  function OpenIds(m: Mux): set<nat> {
    set id | id in m.ports && m.ports[id].status == Live
  }

  predicate Full(cfg: Config, m: Mux) { |OpenIds(m)| >= cfg.maxPorts }

  /** What a partial message holds past its window. */
  function Charged(s: Side): nat {
    if s.partial.Some? then s.partial.value.charged else 0
  }

  function PartHeld(s: Side): nat {
    if s.partial.Some? then s.partial.value.bytes else 0
  }

  function Window(s: Side): nat {
    if s.status == Live then s.window else 0
  }

  /** The excess held by every other port. */
  function Others(m: Mux, id: nat): nat {
    if Charged(SideOf(m, id)) <= m.reassembling then m.reassembling - Charged(SideOf(m, id)) else 0
  }

  function Tag(id: nat, es: seq<Envelope>): seq<Tagged> {
    if es == [] then [] else [Tagged(id, es[0])] + Tag(id, es[1..])
  }

  /** What of the pipe is one port's. */
  function Of(pipe: seq<Tagged>, id: nat): seq<Envelope> {
    if pipe == [] then []
    else (if pipe[0].id == id then [pipe[0].env] else []) + Of(pipe[1..], id)
  }

  function Without(ring: seq<nat>, id: nat): seq<nat> {
    if ring == [] then [] else (if ring[0] == id then [] else [ring[0]]) + Without(ring[1..], id)
  }

  /** A port joins the ring when its first item comes, and leaves it when its items are dropped. */
  function RingAfter(ring: seq<nat>, id: nat, was: bool, now: bool): seq<nat> {
    if now && !was then ring + [id] else if was && !now then Without(ring, id) else ring
  }

  /** One port's operation, in the table. */
  function Put(m: Mux, id: nat, e: Effect): Mux {
    PutRing(m, id, e, RingAfter(m.ring, id, SideOf(m, id).outgoing != [], e.side.outgoing != []))
  }

  function PutRing(m: Mux, id: nat, e: Effect, ring: seq<nat>): Mux {
    var before := SideOf(m, id);
    m.(ports := m.ports[id := e.side], ring := ring, pipe := m.pipe + Tag(id, e.out),
       reassembling := if Charged(before) <= m.reassembling + Charged(e.side)
                       then m.reassembling + Charged(e.side) - Charged(before) else 0)
  }

  function OpenEffect(cfg: Config, s: Side): Effect {
    Effect(Fresh(Live, cfg.window, true, cfg.o.exactCodec, {}).(outgoing := s.outgoing, hist := s.hist),
           [Open(cfg.window, cfg.o.exactCodec, if cfg.window > 0 then Some(cfg.o.caps) else None)])
  }

  function OpenNext(cfg: Config, m: Mux, id: nat): Mux {
    Put(m, id, OpenEffect(cfg, SideOf(m, id))).(nextId := id + 2)
  }

  /** One turn of `pump`. */
  function PumpTurn(m: Mux): Mux
    requires m.ring != [] && SideOf(m, m.ring[0]).outgoing != []
  {
    var e := PumpOne(SideOf(m, m.ring[0]));
    PutRing(m, m.ring[0], e, m.ring[1..] + (if e.side.outgoing != [] then [m.ring[0]] else []))
  }

  function HandleAt(cfg: Config, m: Mux, id: nat, env: Envelope): Mux {
    Put(m, id, Handle(cfg.o, cfg.codecs(id), SideOf(m, id), env, Full(cfg, m), Others(m, id)))
  }

  /** The whole multiplexer closed: every port heard it, nothing waits. */
  ghost predicate Closes(m: Mux, m': Mux) {
    && m'.closed && m'.ring == [] && m'.reassembling == m.reassembling && m'.nextId == m.nextId && m'.ports.Keys == m.ports.Keys
    && (forall id :: SideOf(m', id) == ShutdownSide(SideOf(m, id)).side)
    && (forall id :: Of(m'.pipe, id) == Of(m.pipe, id) + ShutdownSide(SideOf(m, id)).out)
  }

  // ----- what every operation keeps -----

  ghost predicate Distinct(ring: seq<nat>) {
    forall i, j :: 0 <= i < j < |ring| ==> ring[i] != ring[j]
  }

  /** The ring lists exactly the ports with items waiting, each once. */
  ghost predicate RingOk(m: Mux) {
    && Distinct(m.ring)
    && (forall id :: id in m.ring <==> SideOf(m, id).outgoing != [])
  }

  /** A partial message fits the room it was given, or is charged for what it holds past the window. */
  predicate PartialFits(s: Side) {
    s.partial.Some? ==>
      && s.status == Live
      && s.partial.value.bytes == |Flatten(s.partial.value.chunks)|
      && match s.partial.value.room
         case Some(r) => s.partial.value.bytes <= r <= s.window && s.partial.value.charged == 0
         case None => s.partial.value.charged == Max(0, s.partial.value.bytes - s.window)
  }

  /** The sum of a quantity over the ports with ids below `n`. */
  function Sum(f: Side -> nat, ports: map<nat, Side>, n: nat): nat {
    if n == 0 then 0 else Sum(f, ports, n - 1) + (if n - 1 in ports then f(ports[n - 1]) else 0)
  }

  ghost predicate Below(ports: map<nat, Side>, n: nat) {
    forall id :: id in ports ==> id < n
  }

  ghost predicate MuxOk(cfg: Config, m: Mux) {
    && RingOk(m)
    && (forall id :: id in m.ports ==> PartialFits(m.ports[id]))
    && (!m.closed ==> forall n: nat :: Below(m.ports, n) ==> m.reassembling == Sum(Charged, m.ports, n))
    && m.reassembling <= cfg.o.maxReassembled
    && |OpenIds(m)| <= cfg.maxPorts
    && (m.closed ==> OpenIds(m) == {})
  }

  lemma {:induction false} SumPut(f: Side -> nat, ports: map<nat, Side>, id: nat, s: Side, n: nat)
    requires id < n
    ensures Sum(f, ports[id := s], n) == Sum(f, ports, n) + f(s) - (if id in ports then f(ports[id]) else 0)
    ensures (if id in ports then f(ports[id]) else 0) <= Sum(f, ports, n)
  {
    if n == id + 1 {
      SumSame(f, ports, ports[id := s], id);
    } else {
      SumPut(f, ports, id, s, n - 1);
    }
  }

  lemma {:induction false} SumSame(f: Side -> nat, p: map<nat, Side>, q: map<nat, Side>, n: nat)
    requires forall id :: 0 <= id < n ==> (id in p <==> id in q) && (id in p ==> p[id] == q[id])
    ensures Sum(f, p, n) == Sum(f, q, n)
  {
    if n > 0 { SumSame(f, p, q, n - 1); }
  }

  /** Some bound covers all ids. */
  lemma BoundOf(ports: map<nat, Side>) returns (n: nat)
    ensures Below(ports, n)
  {
    n := SetBound(ports.Keys);
  }

  lemma {:induction false} SetBound(ids: set<nat>) returns (n: nat)
    ensures forall id :: id in ids ==> id < n
    decreases |ids|
  {
    if ids == {} {
      n := 0;
    } else {
      var id :| id in ids;
      n := SetBound(ids - {id});
      if n <= id { n := id + 1; }
      forall x | x in ids ensures x < n { assert x == id || x in ids - {id}; }
    }
  }

  // ----- the ring -----

  lemma {:induction false} WithoutIn(ring: seq<nat>, id: nat)
    requires Distinct(ring)
    ensures Distinct(Without(ring, id))
    ensures forall x :: x in Without(ring, id) <==> x in ring && x != id
  {
    if ring != [] {
      assert Distinct(ring[1..]) by {
        forall i, j | 0 <= i < j < |ring| - 1 ensures ring[1..][i] != ring[1..][j] {
          assert ring[i + 1] != ring[j + 1];
        }
      }
      WithoutIn(ring[1..], id);
      assert ring[0] !in ring[1..];
      assert forall x :: x in ring <==> x == ring[0] || x in ring[1..];
      if ring[0] != id {
        assert Without(ring, id) == [ring[0]] + Without(ring[1..], id);
        assert Without(ring, id)[1..] == Without(ring[1..], id);
      }
    }
  }

  lemma PutRingOk(m: Mux, id: nat, e: Effect)
    requires RingOk(m)
    ensures RingOk(Put(m, id, e))
  {
    var m' := Put(m, id, e);
    WithoutIn(m.ring, id);
    forall x ensures SideOf(m', x) == if x == id then e.side else SideOf(m, x) {}
  }

  lemma PumpRingOk(m: Mux)
    requires RingOk(m) && m.ring != []
    ensures SideOf(m, m.ring[0]).outgoing != []
    ensures RingOk(PumpTurn(m))
  {
    var id := m.ring[0];
    assert id in m.ring;
    var m' := PumpTurn(m);
    forall x ensures SideOf(m', x) == if x == id then PumpOne(SideOf(m, id)).side else SideOf(m, x) {}
    assert id !in m.ring[1..];
    assert forall x :: x in m.ring <==> x == id || x in m.ring[1..];
  }

  // ----- the pipe, port by port -----

  lemma {:induction false} OfAppend(x: seq<Tagged>, y: seq<Tagged>, id: nat)
    ensures Of(x + y, id) == Of(x, id) + Of(y, id)
  {
    if x == [] {
      assert x + y == y;
    } else {
      assert (x + y)[1..] == x[1..] + y;
      OfAppend(x[1..], y, id);
      var h := if x[0].id == id then [x[0].env] else [];
      assert h + (Of(x[1..], id) + Of(y, id)) == (h + Of(x[1..], id)) + Of(y, id);
    }
  }

  lemma {:induction false} OfTag(es: seq<Envelope>, id: nat, x: nat)
    ensures Of(Tag(id, es), x) == if x == id then es else []
  {
    if es != [] {
      var rest := Tag(id, es[1..]);
      assert ([Tagged(id, es[0])] + rest)[1..] == rest;
      OfTag(es[1..], id, x);
    }
  }

  lemma PutPort(m: Mux, id: nat, e: Effect, ring: seq<nat>, x: nat)
    ensures var m' := PutRing(m, id, e, ring);
            && SideOf(m', x) == (if x == id then e.side else SideOf(m, x))
            && Of(m'.pipe, x) == Of(m.pipe, x) + (if x == id then e.out else [])
  {
    OfAppend(m.pipe, Tag(id, e.out), x);
    OfTag(e.out, id, x);
  }

  // ----- the shared cap and the table -----

  lemma PutSums(cfg: Config, m: Mux, id: nat, e: Effect, ring: seq<nat>)
    requires MuxOk(cfg, m) && PartialFits(e.side) && !m.closed
    ensures var m' := PutRing(m, id, e, ring);
            && m'.reassembling == m.reassembling - Charged(SideOf(m, id)) + Charged(e.side)
            && Charged(SideOf(m, id)) <= m.reassembling
            && (forall n: nat :: Below(m'.ports, n) ==> m'.reassembling == Sum(Charged, m'.ports, n))
            && (forall x :: x in m'.ports ==> PartialFits(m'.ports[x]))
  {
    var m' := PutRing(m, id, e, ring);
    var b := BoundOf(m'.ports);
    assert id in m'.ports;
    assert Below(m.ports, b) by {
      forall x | x in m.ports ensures x < b { assert x in m'.ports; }
    }
    SumPut(Charged, m.ports, id, e.side, b);
    forall n: nat | Below(m'.ports, n) ensures m'.reassembling == Sum(Charged, m'.ports, n) {
      assert Below(m.ports, n) by {
        forall x | x in m.ports ensures x < n { assert x in m'.ports; }
      }
      SumPut(Charged, m.ports, id, e.side, n);
    }
  }

  /** The counter holds every port's own charge. */
  lemma ChargeHeld(cfg: Config, m: Mux, id: nat)
    requires MuxOk(cfg, m)
    ensures Charged(SideOf(m, id)) <= m.reassembling
  {
    if m.closed {
      NoneOpen(m, id);
      assert id in m.ports ==> PartialFits(m.ports[id]);
    } else if id in m.ports {
      PutSums(cfg, m, id, Effect(m.ports[id], []), m.ring);
    }
  }

  lemma NoneOpen(m: Mux, id: nat)
    requires OpenIds(m) == {}
    ensures SideOf(m, id).status != Live
  {
    if id in m.ports { assert id !in OpenIds(m); }
  }

  lemma PutTable(m: Mux, id: nat, e: Effect, ring: seq<nat>)
    ensures OpenIds(PutRing(m, id, e, ring)) == if e.side.status == Live then OpenIds(m) + {id} else OpenIds(m) - {id}
  {
  }

  /**
   An operation of one port keeps the whole table in order, if it opens no port
   past the limit and takes no excess past the cap.
   */
  lemma PutKeeps(cfg: Config, m: Mux, id: nat, e: Effect, ring: seq<nat>)
    requires MuxOk(cfg, m) && PartialFits(e.side)
    requires RingOk(PutRing(m, id, e, ring))
    requires e.side.status == Live ==> SideOf(m, id).status == Live || (!Full(cfg, m) && !m.closed)
    requires Charged(e.side) <= Charged(SideOf(m, id)) || Others(m, id) + Charged(e.side) <= cfg.o.maxReassembled
    ensures MuxOk(cfg, PutRing(m, id, e, ring))
  {
    PutTable(m, id, e, ring);
    if m.closed {
      NoneOpen(m, id);
      ChargeHeld(cfg, m, id);
      assert OpenIds(m) - {id} == {};
    } else {
      PutSums(cfg, m, id, e, ring);
    }
    if e.side.status == Live && SideOf(m, id).status == Live {
      assert OpenIds(m) + {id} == OpenIds(m);
    } else if e.side.status != Live {
      assert OpenIds(m) - {id} <= OpenIds(m);
      SubsetSize(OpenIds(m) - {id}, OpenIds(m));
    }
  }

  lemma SubsetSize(a: set<nat>, b: set<nat>)
    requires a <= b
    ensures |a| <= |b|
  {
    if a != b {
      assert |b - a| + |a| == |b| by { assert a + (b - a) == b; }
    }
  }

  // ----- every deed of the multiplexer, whatever the peer sends -----

  /** The consumers' and the timers' steps at one port. */
  predicate LocalReady(s: Side, act: Act) {
    match act
    case Flush => CanFlush(s)
    case Settle(i) => i < |s.unsettled|
    case Timer => s.clock.timers > 0
    case Pump => false
    case Recv(_, _) => false
    case Shutdown => false
    case _ => true
  }

  function LocalEffect(o: Options, c: Codec, s: Side, act: Act): Effect
    requires OptionsOk(o) && LocalReady(s, act)
  {
    match act
    case Post(p) => PostPayload(c, s, p)
    case Flush => FlushOne(o, c, s)
    case Settle(i) => SettleOne(s, i)
    case Timer => FireTimer(s)
    case EndDir => Effect(EndDirection(s), [])
    case CloseIt => CloseSide(o, s)
    case Reject => RejectSide(s)
  }

  datatype Deed = OpenPort(id: nat) | On(id: nat, act: Act) | Hear(id: nat, env: Envelope) | Turn | CloseAll

  /** The id `openPort` takes: the first of its parity not in the table. */
  ghost predicate NextFree(m: Mux, id: nat) {
    && m.nextId <= id && (id - m.nextId) % 2 == 0 && id !in OpenIds(m)
    && forall x: nat :: m.nextId <= x < id && (x - m.nextId) % 2 == 0 ==> x in OpenIds(m)
  }

  ghost predicate Did(cfg: Config, m: Mux, d: Deed, m': Mux)
    requires OptionsOk(cfg.o)
  {
    match d
    case OpenPort(id) => !m.closed && !Full(cfg, m) && NextFree(m, id) && m' == OpenNext(cfg, m, id)
    case On(id, act) =>
      id in m.ports && LocalReady(m.ports[id], act) && m' == Put(m, id, LocalEffect(cfg.o, cfg.codecs(id), m.ports[id], act))
    case Hear(id, env) => !m.closed && m' == HandleAt(cfg, m, id, env)
    case Turn => !m.closed && m.ring != [] && SideOf(m, m.ring[0]).outgoing != [] && m' == PumpTurn(m)
    case CloseAll => !m.closed && Closes(m, m')
  }

  function Empty(first: nat): Mux {
    Mux(map[], [], 0, first, false, [])
  }

  // ----- one port's operations, as the table sees them -----

  predicate Modest(s: Side, t: Side) {
    PartialFits(t) && (t.status == Live ==> s.status == Live) && Charged(t) <= Charged(s)
  }

  lemma {:induction false} SendAllModest(o: Options, s: Side, es: seq<Envelope>)
    requires PartialFits(s)
    ensures Modest(s, SendAllOnPort(o, s, es).side)
    decreases |es|
  {
    if es != [] {
      SendAllModest(o, SendOnPort(o, s, es[0]).side, es[1..]);
    }
  }

  lemma LocalModest(o: Options, c: Codec, s: Side, act: Act)
    requires OptionsOk(o) && LocalReady(s, act) && PartialFits(s)
    ensures Modest(s, LocalEffect(o, c, s, act).side)
  {
    match act
    case Flush =>
      var i := s.queue[0];
      var t := s.(queue := s.queue[1..], queued := if ItemSize(i) <= s.queued then s.queued - ItemSize(i) else 0,
                  outstanding := s.outstanding + ItemSize(i));
      hide Leaving, SendAllOnPort;
      SendAllModest(o, t, Leaving(o, c, t, i, false));
    case CloseIt => SendAllModest(o, Spill(s), WholeItems(s.queue) + [Close]);
    case _ =>
  }

  /** Hearing the peer opens a port only below the limit, and takes excess only up to the cap. */
  lemma HandleModest(o: Options, c: Codec, s: Side, e: Envelope, full: bool, others: nat)
    requires PartialFits(s)
    ensures var t := Handle(o, c, s, e, full, others).side;
            && PartialFits(t)
            && (t.status == Live ==> s.status == Live || !full)
            && (Charged(t) <= Charged(s) || others + Charged(t) <= o.maxReassembled)
  {
    if e.Frame? { FlattenSnoc(PartialOf(s).chunks, e.data); }
    hide Flatten;
  }

  /** Against any envelopes the peer sends, every deed keeps the table in order. */
  lemma DeedKeeps(cfg: Config, m: Mux, d: Deed, m': Mux)
    requires OptionsOk(cfg.o) && MuxOk(cfg, m) && Did(cfg, m, d, m')
    ensures MuxOk(cfg, m')
  {
    match d
    case OpenPort(id) =>
      var e := OpenEffect(cfg, SideOf(m, id));
      PutRingOk(m, id, e);
      PutKeeps(cfg, m, id, e, Put(m, id, e).ring);
      hide Put;
      assert MuxOk(cfg, Put(m, id, e));
    case On(id, act) =>
      var e := LocalEffect(cfg.o, cfg.codecs(id), m.ports[id], act);
      LocalModest(cfg.o, cfg.codecs(id), m.ports[id], act);
      PutRingOk(m, id, e);
      PutKeeps(cfg, m, id, e, Put(m, id, e).ring);
    case Hear(id, env) =>
      var e := Handle(cfg.o, cfg.codecs(id), SideOf(m, id), env, Full(cfg, m), Others(m, id));
      HandleModest(cfg.o, cfg.codecs(id), SideOf(m, id), env, Full(cfg, m), Others(m, id));
      PutRingOk(m, id, e);
      PutKeeps(cfg, m, id, e, Put(m, id, e).ring);
    case Turn =>
      PumpRingOk(m);
      PutKeeps(cfg, m, m.ring[0], PumpOne(SideOf(m, m.ring[0])), PumpTurn(m).ring);
    case CloseAll => ClosesKeeps(cfg, m, m');
  }

  lemma ClosesKeeps(cfg: Config, m: Mux, m': Mux)
    requires MuxOk(cfg, m) && Closes(m, m')
    ensures MuxOk(cfg, m')
  {
    forall id ensures SideOf(m', id).status != Live && SideOf(m', id).partial == None && SideOf(m', id).outgoing == [] {
      assert SideOf(m', id) == ShutdownSide(SideOf(m, id)).side;
      assert id in m.ports ==> PartialFits(m.ports[id]);
    }
    assert OpenIds(m') == {} by {
      forall id ensures id !in OpenIds(m') { assert SideOf(m', id).status != Live; }
    }
    forall id | id in m'.ports ensures PartialFits(m'.ports[id]) { assert m'.ports[id] == SideOf(m', id); }
    forall n: nat ensures Sum(Charged, m'.ports, n) == 0 { NothingCharged(m', n); }
  }

  lemma {:induction false} NothingCharged(m: Mux, n: nat)
    requires forall id :: SideOf(m, id).partial == None
    ensures Sum(Charged, m.ports, n) == 0
  {
    if n > 0 {
      NothingCharged(m, n - 1);
      assert SideOf(m, n - 1).partial == None;
    }
  }

  /** The states a multiplexer passes through. */
  ghost predicate IsMuxRun(cfg: Config, states: seq<Mux>, deeds: seq<Deed>)
    requires OptionsOk(cfg.o)
  {
    && |states| == |deeds| + 1
    && forall i :: 0 <= i < |deeds| ==> Did(cfg, states[i], deeds[i], states[i + 1])
  }

  /**
   Whatever the peer sends and the consumers do, after any number of deeds the
   count of bytes held past the windows is exact and within the cap, the table
   is within its limit, and the ring lists exactly the ports with items waiting.
   */
  lemma {:induction false} TableHolds(cfg: Config, first: nat, states: seq<Mux>, deeds: seq<Deed>)
    requires OptionsOk(cfg.o) && IsMuxRun(cfg, states, deeds) && states[0] == Empty(first)
    ensures forall i :: 0 <= i < |states| ==> MuxOk(cfg, states[i])
    decreases |deeds|
  {
    if deeds == [] {
      assert forall n: nat :: Sum(Charged, map[], n) == 0 by {
        forall n: nat ensures Sum(Charged, map[], n) == 0 { NothingCharged(Empty(first), n); }
      }
      assert OpenIds(Empty(first)) == {};
    } else {
      var n := |deeds| - 1;
      TableHolds(cfg, first, states[..n + 1], deeds[..n]);
      assert states[..n + 1][n] == states[n];
      DeedKeeps(cfg, states[n], deeds[n], states[n + 1]);
      forall i | 0 <= i < |states| ensures MuxOk(cfg, states[i]) {
        if i <= n { assert states[..n + 1][i] == states[i]; }
      }
    }
  }

  /** All bytes held of messages still arriving are bounded by the open windows and the shared cap. */
  lemma PartialsBounded(cfg: Config, m: Mux, n: nat)
    requires MuxOk(cfg, m) && !m.closed && Below(m.ports, n)
    ensures Sum(PartHeld, m.ports, n) <= Sum(Window, m.ports, n) + cfg.o.maxReassembled
  {
    HeldSums(m, n);
  }

  lemma {:induction false} HeldSums(m: Mux, n: nat)
    requires forall id :: id in m.ports ==> PartialFits(m.ports[id])
    ensures Sum(PartHeld, m.ports, n) <= Sum(Window, m.ports, n) + Sum(Charged, m.ports, n)
  {
    if n > 0 { HeldSums(m, n - 1); }
  }
}
