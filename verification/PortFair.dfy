/** Fair framing: a port with an item waiting lets at most one item of each other port go first. */
module PortFair {
  import opened Basics
  import opened PortSide
  import opened PortTable

  /** The ports whose next item leaves before the next one of `id`. */
  function Ahead(ring: seq<nat>, id: nat): set<nat> {
    if ring == [] || ring[0] == id then {} else {ring[0]} + Ahead(ring[1..], id)
  }

  lemma {:induction false} AheadAppend(ring: seq<nat>, more: seq<nat>, id: nat)
    requires id in ring
    ensures Ahead(ring + more, id) == Ahead(ring, id)
  {
    if ring[0] != id {
      assert (ring + more)[1..] == ring[1..] + more;
      AheadAppend(ring[1..], more, id);
    }
  }

  lemma {:induction false} AheadWithout(ring: seq<nat>, x: nat, id: nat)
    requires Distinct(ring) && x != id
    ensures Ahead(Without(ring, x), id) == Ahead(ring, id) - {x}
  {
    if ring != [] && ring[0] != id {
      DistinctTail(ring);
      AheadWithout(ring[1..], x, id);
      if ring[0] == x {
        assert Without(ring, x) == Without(ring[1..], x);
        AheadIn(ring[1..], id);
        assert x !in Ahead(ring[1..], id);
      } else {
        var w := Without(ring[1..], x);
        assert ([ring[0]] + w)[1..] == w;
      }
    }
  }

  lemma {:induction false} AheadIn(ring: seq<nat>, id: nat)
    ensures forall x :: x in Ahead(ring, id) ==> x in ring
  {
    if ring != [] { AheadIn(ring[1..], id); }
  }

  lemma DistinctTail(ring: seq<nat>)
    requires Distinct(ring) && ring != []
    ensures Distinct(ring[1..]) && ring[0] !in ring[1..]
  {
    forall i, j | 0 <= i < j < |ring| - 1 ensures ring[1..][i] != ring[1..][j] {
      assert ring[i + 1] != ring[j + 1];
    }
  }

  predicate Serves(m: Mux, d: Deed, id: nat) {
    d.Turn? && m.ring != [] && m.ring[0] == id
  }

  /** One operation at a port never lets another one overtake a third that waits. */
  lemma PutAhead(m: Mux, x: nat, e: Effect, id: nat)
    requires RingOk(m) && SideOf(m, id).outgoing != [] && SideOf(Put(m, x, e), id).outgoing != []
    ensures Ahead(Put(m, x, e).ring, id) <= Ahead(m.ring, id)
  {
    assert id in m.ring;
    AheadAppend(m.ring, [x], id);
    if x != id { AheadWithout(m.ring, x, id); }
  }

  /** The turn of another port takes it off those ahead, and puts nobody there. */
  lemma TurnAhead(m: Mux, id: nat)
    requires RingOk(m) && m.ring != [] && SideOf(m, m.ring[0]).outgoing != []
    requires SideOf(m, id).outgoing != [] && m.ring[0] != id
    ensures m.ring[0] in Ahead(m.ring, id)
    ensures Ahead(PumpTurn(m).ring, id) == Ahead(m.ring, id) - {m.ring[0]}
  {
    assert id in m.ring;
    DistinctTail(m.ring);
    AheadIn(m.ring[1..], id);
    AheadAppend(m.ring[1..], [m.ring[0]], id);
    assert m.ring[1..] + [] == m.ring[1..];
  }

  lemma DeedAhead(cfg: Config, m: Mux, d: Deed, m': Mux, id: nat)
    requires OptionsOk(cfg.o) && MuxOk(cfg, m) && Did(cfg, m, d, m')
    requires SideOf(m, id).outgoing != [] && SideOf(m', id).outgoing != [] && !Serves(m, d, id)
    ensures Ahead(m'.ring, id) <= Ahead(m.ring, id)
    ensures d.Turn? ==> m.ring != [] && m.ring[0] in Ahead(m.ring, id) && m.ring[0] !in Ahead(m'.ring, id)
  {
    match d
    case OpenPort(x) => PutAhead(m, x, OpenEffect(cfg, SideOf(m, x)), id);
    case On(x, act) => PutAhead(m, x, LocalEffect(cfg.o, cfg.codecs(x), m.ports[x], act), id);
    case Hear(x, env) => PutAhead(m, x, Handle(cfg.o, cfg.codecs(x), SideOf(m, x), env, Full(cfg, m), Others(m, x)), id);
    case Turn => TurnAhead(m, id);
    case CloseAll =>
  }

  /** `id` has an item waiting throughout, and none of the turns is its own. */
  ghost predicate Waits(states: seq<Mux>, deeds: seq<Deed>, id: nat)
    requires |states| == |deeds| + 1
  {
    && (forall i :: 0 <= i < |states| ==> SideOf(states[i], id).outgoing != [])
    && (forall i :: 0 <= i < |deeds| ==> !Serves(states[i], deeds[i], id))
  }

  lemma {:induction false} AheadShrinks(cfg: Config, states: seq<Mux>, deeds: seq<Deed>, id: nat, i: nat, j: nat)
    requires OptionsOk(cfg.o) && IsMuxRun(cfg, states, deeds) && Waits(states, deeds, id)
    requires forall n :: 0 <= n < |states| ==> MuxOk(cfg, states[n])
    requires i <= j < |states|
    ensures Ahead(states[j].ring, id) <= Ahead(states[i].ring, id)
    decreases j
  {
    hide MuxOk, Did, Ahead;
    if i < j {
      AheadShrinks(cfg, states, deeds, id, i, j - 1);
      DeedAhead(cfg, states[j - 1], deeds[j - 1], states[j], id);
    }
  }

  /**
   While a port has an item waiting, whatever else happens (posts, closes, drops,
   the peer), the pump serves every other port at most once before it.
   */
  lemma OneItemEach(cfg: Config, states: seq<Mux>, deeds: seq<Deed>, id: nat, i: nat, j: nat)
    requires OptionsOk(cfg.o) && IsMuxRun(cfg, states, deeds) && Waits(states, deeds, id)
    requires forall n :: 0 <= n < |states| ==> MuxOk(cfg, states[n])
    requires i < j < |deeds| && deeds[i].Turn? && deeds[j].Turn?
    ensures states[i].ring != [] && states[j].ring != [] && states[i].ring[0] != states[j].ring[0]
  {
    DeedAhead(cfg, states[i], deeds[i], states[i + 1], id);
    DeedAhead(cfg, states[j], deeds[j], states[j + 1], id);
    AheadShrinks(cfg, states, deeds, id, i + 1, j);
  }

  function Turns(deeds: seq<Deed>): nat {
    if deeds == [] then 0 else Turns(deeds[..|deeds| - 1]) + (if deeds[|deeds| - 1].Turn? then 1 else 0)
  }

  /** So it waits for no more turns than there are ports ahead of it in the ring. */
  lemma {:induction false} WaitBounded(cfg: Config, states: seq<Mux>, deeds: seq<Deed>, id: nat)
    requires OptionsOk(cfg.o) && IsMuxRun(cfg, states, deeds) && Waits(states, deeds, id)
    requires forall n :: 0 <= n < |states| ==> MuxOk(cfg, states[n])
    ensures Turns(deeds) + |Ahead(states[|deeds|].ring, id)| <= |Ahead(states[0].ring, id)|
    ensures |Ahead(states[0].ring, id)| < |states[0].ring|
    decreases |deeds|
  {
    var n := |deeds|;
    hide Did, Ahead;
    if n == 0 {
      assert RingOk(states[0]);
      assert id in states[0].ring;
      AheadCount(states[0].ring, id);
    } else {
      var s, d := states[..n], deeds[..n - 1];
      hide MuxOk;
      WaitBounded(cfg, s, d, id);
      DeedAhead(cfg, states[n - 1], deeds[n - 1], states[n], id);
      var before, after := Ahead(states[n - 1].ring, id), Ahead(states[n].ring, id);
      SubsetSize(after, before);
      if deeds[n - 1].Turn? { SubsetSize(after, before - {states[n - 1].ring[0]}); }
    }
  }

  lemma {:induction false} AheadCount(ring: seq<nat>, id: nat)
    requires id in ring
    ensures |Ahead(ring, id)| < |ring|
  {
    if ring[0] != id { AheadCount(ring[1..], id); }
  }
}
