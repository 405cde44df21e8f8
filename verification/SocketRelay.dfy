/**
 Detaching a socket end that was not accepted: a relay stands between the peer and
 the new holder, and splits the acknowledgements of bytes the old end had sent.
 */
module SocketRelay {
  import opened Basics
  import opened Socket
  import opened SocketRuns

  /** `owed`: bytes the peer still has to acknowledge to the old end. */
  datatype Relay = Relay(owed: nat, closingIn: bool, closingOut: bool)

  /** What the relay passes on. */
  datatype Passed = Passed(relay: Relay, out: seq<Frame>)

  /** From the peer's port: acks the old end is owed are absorbed, everything else passes. */
  function FromPort(r: Relay, f: Frame): Passed {
    if f.Ack? && r.owed > 0 then
      var absorbed := Min(r.owed, f.n);
      Passed(r.(owed := r.owed - absorbed), if f.n > absorbed then [Ack(f.n - absorbed)] else [])
    else Passed(if f.CloseFrame? then r.(closingIn := true) else r, [f])
  }

  function FromHolder(r: Relay, f: Frame): Passed {
    Passed(if f.CloseFrame? then r.(closingOut := true) else r, [f])
  }

  predicate Ended(r: Relay) { r.closingIn && r.closingOut }

  class DetachRelay {
    var owed: nat
    var closingIn: bool
    var closingOut: bool
    var toHolder: seq<Frame>
    var toPort: seq<Frame>

    function Is(): Relay
      reads this
    {
      Relay(owed, closingIn, closingOut)
    }

    /** The frames that reached the old end first go ahead of the rest. */
    constructor (owed: nat, queued: seq<Frame>)
      ensures Is() == Relay(owed, CloseFrame in queued, false) && toHolder == queued && toPort == []
    {
      this.owed, closingIn, closingOut, toHolder, toPort := owed, false, false, [], [];
      new;
      for i := 0 to |queued|
        invariant toHolder == queued[..i] && closingIn == (CloseFrame in queued[..i])
        invariant this.owed == owed && !closingOut && toPort == []
      {
        assert queued[..i + 1] == queued[..i] + [queued[i]];
        toHolder := toHolder + [queued[i]];
        if queued[i].CloseFrame? { closingIn := true; }
      }
      assert queued[..|queued|] == queued;
    }

    method OnPort(f: Frame)
      modifies this
      ensures var p := FromPort(old(Is()), f); Is() == p.relay && toHolder == old(toHolder) + p.out && toPort == old(toPort)
    {
      if f.Ack? && owed > 0 {
        var absorbed := Min(owed, f.n);
        owed := owed - absorbed;
        if f.n > absorbed { toHolder := toHolder + [Ack(f.n - absorbed)]; } else { assert toHolder + [] == toHolder; }
        return;
      }
      toHolder := toHolder + [f];
      if f.CloseFrame? { closingIn := true; }
    }

    method OnHolder(f: Frame)
      modifies this
      ensures var p := FromHolder(old(Is()), f); Is() == p.relay && toPort == old(toPort) + p.out && toHolder == old(toHolder)
    {
      toPort := toPort + [f];
      if f.CloseFrame? { closingOut := true; }
    }
  }

  // ----- peer, relay and holder -----

  /**
   `p1`, `q1`: the port between peer and relay; `p2`, `q2`: between relay and
   holder. `line`: for each byte sent to the peer through the port and not acked
   at the relay, oldest first, whether the new holder sent it. `before`: what the
   old end had sent.
   */
  datatype Chain = Chain(p: End, h: End, relay: Relay, p1: seq<Frame>, q1: seq<Frame>, p2: seq<Frame>, q2: seq<Frame>,
                         line: seq<bool>, before: seq<Bytes>)

  function Bits(b: bool, n: nat): (r: seq<bool>)
    ensures |r| == n && forall i :: 0 <= i < n ==> r[i] == b
  {
    seq(n, _ => b)
  }

  /** `detach()`: the relay starts with the old end's count and its queue. */
  function Detach(w: World, keen: bool, accepted: bool): Chain {
    var owed := w.b.inFlight + w.b.discarded;
    Chain(w.a, Fresh(accepted, keen), Relay(owed, CloseFrame in w.b.queue, false), w.ab, w.ba, w.b.queue, [],
          Bits(false, owed), w.b.sent)
  }

  datatype Move = Peer(act: Act) | Holder(act: Act) | In | Out

  predicate CanMove(c: Chain, m: Move) {
    match m
    case Peer(act) => Enabled(c.p, c.q1, act)
    case Holder(act) => Enabled(c.h, c.p2, act)
    case In => c.p1 != [] && !Ended(c.relay)
    case Out => c.q2 != [] && !Ended(c.relay)
  }

  function Moved(c: Chain, m: Move): Chain
    requires CanMove(c, m)
  {
    match m
    case Peer(act) =>
      var e := Perform(c.p, c.q1, act);
      c.(p := e.end, p1 := c.p1 + e.out, q1 := Socket.Remaining(c.q1, act))
    case Holder(act) =>
      var e := Perform(c.h, c.p2, act);
      c.(h := e.end, q2 := c.q2 + e.out, p2 := Socket.Remaining(c.p2, act))
    case In =>
      var p := FromPort(c.relay, c.p1[0]);
      c.(relay := p.relay, p1 := c.p1[1..], p2 := c.p2 + p.out,
         line := if c.p1[0].Ack? then (if c.p1[0].n <= |c.line| then c.line[c.p1[0].n..] else []) else c.line)
    case Out =>
      var p := FromHolder(c.relay, c.q2[0]);
      c.(relay := p.relay, q2 := c.q2[1..], q1 := c.q1 + p.out,
         line := if c.q2[0].Message? then c.line + Bits(true, |c.q2[0].data|) else c.line)
  }

  // ----- the relay is invisible -----

  /** The holder, with what the old end still counts and what it had sent. */
  function Lifted(c: Chain): End {
    c.h.(inFlight := c.h.inFlight + c.relay.owed, sent := c.before + c.h.sent)
  }

  /** The same sockets, as if no relay stood between them. */
  function Direct(c: Chain): World {
    World(c.p, Lifted(c), c.p2 + c.p1, c.q1 + c.q2)
  }

  predicate BothUp(c: Chain) { Up(c.p) && Up(c.h) }

  predicate OldFirst(owed: nat, line: seq<bool>) {
    owed <= |line| && forall i :: 0 <= i < |line| ==> line[i] == (i >= owed)
  }

  /** The old end's unacked bytes are the oldest ones on the line. */
  predicate Tagged(c: Chain) {
    && OldFirst(c.relay.owed, c.line)
    && c.h.inFlight + c.relay.owed == c.h.reserved + Size(c.q2) + |c.line| + Acks(c.p2)
  }

  predicate ChainInv(c: Chain) {
    BothUp(c) ==> Inv(Direct(c)) && Tagged(c) && EndOk(c.h)
  }

  lemma AppendedEnds(c: Chain)
    ensures Size(c.q1 + c.q2) == Size(c.q1) + Size(c.q2) && Acks(c.p2 + c.p1) == Acks(c.p2) + Acks(c.p1)
    ensures Size(c.p2 + c.p1) == Size(c.p2) + Size(c.p1) && Acks(c.q1 + c.q2) == Acks(c.q1) + Acks(c.q2)
    ensures Messages(c.p2 + c.p1) == Messages(c.p2) + Messages(c.p1) && Messages(c.q1 + c.q2) == Messages(c.q1) + Messages(c.q2)
  {
    Appended(c.q1, c.q2);
    Appended(c.p2, c.p1);
  }

  /** The two ends as a run leaves them, the server's open, not accepted and preparing no message. */
  ghost predicate Detachable(worlds: seq<World>) {
    IsRun(worlds) && var w := worlds[|worlds| - 1]; Up(w.a) && w.b.state == Open && !w.b.accepted && w.b.reserved == 0
  }

  /** Whatever happened before, an end is detached with nothing lost. */
  lemma DetachStarts(worlds: seq<World>, keen: bool, accepted: bool)
    requires Detachable(worlds)
    ensures ChainInv(Detach(worlds[|worlds| - 1], keen, accepted))
  {
    RunKeeps(worlds);
    hide Inv, ChainInv, IsRun;
    DetachInv(worlds[|worlds| - 1], keen, accepted);
  }

  lemma DetachInv(w: World, keen: bool, accepted: bool)
    requires Inv(w) && Up(w.a) && w.b.state == Open && !w.b.accepted && w.b.reserved == 0
    ensures ChainInv(Detach(w, keen, accepted))
  {
    var c := Detach(w, keen, accepted);
    assert c.q1 + [] == c.q1;
    hide Bits, Size, Acks, Messages, OldFirst;
    DetachCounts(w, c);
    DetachOrder(w, c);
    hide InOrder, Accounts, Tagged;
  }

  lemma DetachCounts(w: World, c: Chain)
    requires Accounts(FlowAB(w)) && Accounts(FlowBA(w)) && EndOk(w.b) && Up(w.a) && w.b.state == Open && !w.b.accepted && w.b.reserved == 0
    requires exists keen, accepted :: c == Detach(w, keen, accepted)
    ensures Accounts(FlowAB(Direct(c))) && Accounts(FlowBA(Direct(c))) && Tagged(c)
  {
    assert Size([]) == 0 && Acks([]) == 0;
    assert OldFirst(c.relay.owed, c.line);
    hide Bits, Size, Acks, Messages, OldFirst;
    AppendedEnds(c);
    QueueSends(w.b.queue);
  }

  lemma DetachOrder(w: World, c: Chain)
    requires InOrder(FlowAB(w)) && InOrder(FlowBA(w)) && Up(w.a) && w.b.state == Open && w.b.got == []
    requires c.p == w.a && c.h.got == [] && c.h.queue == [] && c.h.sent == [] && c.before == w.b.sent
    requires c.p1 == w.ab && c.p2 == w.b.queue && c.q1 == w.ba && c.q2 == []
    ensures InOrder(FlowAB(Direct(c))) && InOrder(FlowBA(Direct(c)))
  {
    AppendedEnds(c);
    assert Messages([]) == [];
    hide Messages;
    var q, x, y, g := Messages(w.b.queue), Messages(w.ab), Messages(w.ba), w.a.got + Messages(w.a.queue);
    assert w.b.sent + [] == w.b.sent;
    assert [] + q + x == q + x && [] + [] + (q + x) == q + x;
    assert y + [] == y;
    DetachOrderTo(w, c, q, x);
    assert g + (y + []) == g + y;
  }

  lemma DetachOrderTo(w: World, c: Chain, q: seq<Bytes>, x: seq<Bytes>)
    requires w.b.got == [] && w.b.state == Open && InOrder(FlowAB(w)) && q == Messages(w.b.queue) && x == Messages(w.ab)
    ensures q + x == w.a.sent
  {
    assert [] + q + x == q + x;
  }

  lemma {:induction false} QueueSends(q: seq<Frame>)
    requires forall f :: f in q ==> f.Message? || f.CloseFrame?
    ensures Acks(q) == 0
  {
    if q != [] {
      assert q[0] in q;
      QueueSends(q[1..]);
    }
  }

  // ----- the ends' own steps -----

  lemma PeerMoves(c: Chain, act: Act)
    requires ChainInv(c) && CanMove(c, Peer(act))
    ensures ChainInv(Moved(c, Peer(act)))
    ensures BothUp(Moved(c, Peer(act))) ==> Can(Direct(c), true, act) && Direct(Moved(c, Peer(act))) == Socket.Step(Direct(c), true, act)
  {
    var c' := Moved(c, Peer(act));
    if BothUp(c') {
      StaysOpen(c.p, c.q1, act);
      PeerDirect(c, act);
      hide Perform, EndOk, Direct, Inv, Bits;
      StepKeeps(Direct(c), true, act);
    }
  }

  lemma PeerDirect(c: Chain, act: Act)
    requires CanMove(c, Peer(act))
    ensures Can(Direct(c), true, act) && Direct(Moved(c, Peer(act))) == Socket.Step(Direct(c), true, act)
  {
    if act.DoReceive? { assert (c.q1 + c.q2)[0] == c.q1[0] && (c.q1 + c.q2)[1..] == c.q1[1..] + c.q2; }
    var e := Perform(c.p, c.q1, act);
    assert e == Perform(c.p, c.q1 + c.q2, act) by { hide Accept, Receive, Send, SendReserved; }
    assert c.p2 + (c.p1 + e.out) == (c.p2 + c.p1) + e.out;
    hide Perform;
  }

  /** A closing or closed end does not open again, and only the client connects. */
  lemma StaysOpen(e: End, inbox: seq<Frame>, act: Act)
    requires Enabled(e, inbox, act) && Up(Perform(e, inbox, act).end)
    ensures Up(e)
  {
    if act.DoAccept? && !e.accepted { StaysOpenAll(e.(accepted := true, queue := []), e.queue); }
  }

  lemma {:induction false} StaysOpenAll(e: End, fs: seq<Frame>)
    ensures Up(DeliverAll(e, fs).end) ==> Up(e)
    decreases |fs|
  {
    if fs != [] { StaysOpenAll(Deliver(e, fs[0]).end, fs[1..]); }
  }

  function Lift(e: End, more: nat, before: seq<Bytes>): End {
    e.(inFlight := e.inFlight + more, sent := before + e.sent)
  }

  lemma LiftOne(e: End, f: Frame, more: nat, before: seq<Bytes>)
    ensures Deliver(Lift(e, more, before), f) == Effect(Lift(Deliver(e, f).end, more, before), Deliver(e, f).out)
    ensures Deliver(e, f).end.inFlight == e.inFlight && Deliver(e, f).end.reserved == e.reserved
  {
  }

  lemma {:induction false} LiftDeliver(e: End, fs: seq<Frame>, more: nat, before: seq<Bytes>)
    ensures DeliverAll(Lift(e, more, before), fs) == Effect(Lift(DeliverAll(e, fs).end, more, before), DeliverAll(e, fs).out)
    ensures DeliverAll(e, fs).end.inFlight == e.inFlight && DeliverAll(e, fs).end.reserved == e.reserved
    decreases |fs|
  {
    if fs != [] {
      LiftOne(e, fs[0], more, before);
      LiftDeliver(Deliver(e, fs[0]).end, fs[1..], more, before);
      hide Lift, Deliver;
    }
  }

  lemma LiftReceive(e: End, f: Frame, more: nat, before: seq<Bytes>)
    requires Up(e) && (f.Ack? ==> f.n <= e.inFlight)
    ensures Receive(Lift(e, more, before), f) == Effect(Lift(Receive(e, f).end, more, before), Receive(e, f).out)
  {
    LiftOne(e, f, more, before);
    hide Deliver;
  }

  /** What the old end still counts does not change what the holder does. */
  lemma LiftPerform(e: End, inbox: seq<Frame>, act: Act, more: nat, before: seq<Bytes>)
    requires Enabled(e, inbox, act) && Up(e) && (act.DoReceive? && inbox[0].Ack? ==> inbox[0].n <= e.inFlight)
    ensures Perform(Lift(e, more, before), inbox, act) == Effect(Lift(Perform(e, inbox, act).end, more, before), Perform(e, inbox, act).out)
  {
    hide Receive, DeliverAll;
    match act
    case DoSend(d) => assert before + (e.sent + [d]) == (before + e.sent) + [d];
    case DoSendReserved(d) => assert before + (e.sent + [d]) == (before + e.sent) + [d];
    case DoAccept => if !e.accepted { LiftDeliver(e.(accepted := true, queue := []), e.queue, more, before); }
    case DoReceive => LiftReceive(e, inbox[0], more, before);
    case _ =>
  }

  lemma AcceptCounts(e: End)
    requires (!Attached(e) ==> e.accepted) && (e.toAck > 0 ==> e.scheduled)
    ensures var d := Accept(e); d.end.inFlight == e.inFlight && d.end.reserved == e.reserved && Size(d.out) == 0
  {
    if !e.accepted {
      var base := e.(accepted := true, queue := []);
      DeliverMany(base, e.queue);
      LiftDeliver(base, e.queue, 0, []);
      hide DeliverAll, Size, Acks, Messages;
    }
  }

  lemma ReceiveCounts(e: End, inbox: seq<Frame>)
    requires Up(e) && inbox != [] && (inbox[0].Ack? ==> inbox[0].n <= e.inFlight)
    ensures var d := Receive(e, inbox[0]);
            d.end.inFlight - d.end.reserved - Size(d.out) - Acks(inbox[1..]) == e.inFlight - e.reserved - Acks(inbox)
  {
    Head(inbox);
    var d := Receive(e, inbox[0]);
    if d.out != [] { assert d.out == [d.out[0]]; One(d.out[0]); }
  }

  /** What the holder's step does to its own count. */
  lemma HolderCounts(e: End, inbox: seq<Frame>, act: Act)
    requires Enabled(e, inbox, act) && Up(e) && (act.DoReceive? && inbox[0].Ack? ==> inbox[0].n <= e.inFlight)
    requires (e.toAck > 0 ==> e.scheduled) && (!Attached(e) ==> e.accepted)
    ensures var d := Perform(e, inbox, act);
            d.end.inFlight - d.end.reserved - Size(d.out) - Acks(Socket.Remaining(inbox, act)) == e.inFlight - e.reserved - Acks(inbox)
  {
    hide Accept, Receive;
    match act
    case DoAccept => AcceptCounts(e);
    case DoReceive => ReceiveCounts(e, inbox);
    case DoSend(x) => One(Message(x));
    case DoSendReserved(x) => One(Message(x));
    case DoClose => One(CloseFrame);
    case DoAck => One(Ack(e.toAck));
    case _ =>
  }

  lemma HolderMoves(c: Chain, act: Act)
    requires ChainInv(c) && CanMove(c, Holder(act))
    ensures ChainInv(Moved(c, Holder(act)))
    ensures BothUp(Moved(c, Holder(act))) ==> Can(Direct(c), false, act) && Direct(Moved(c, Holder(act))) == Socket.Step(Direct(c), false, act)
  {
    var c' := Moved(c, Holder(act));
    if BothUp(c') {
      StaysOpen(c.h, c.p2, act);
      HolderAckFits(c);
      HolderTagged(c, act);
      HolderEndOk(c, act);
      HolderDirect(c, act);
      hide Inv, Tagged, EndOk, Direct, Socket.Step, Moved;
      StepKeeps(Direct(c), false, act);
    }
  }

  /** The holder's next ack is within its own count. */
  lemma HolderAckFits(c: Chain)
    requires Tagged(c)
    ensures c.p2 != [] && c.p2[0].Ack? ==> c.p2[0].n + c.h.reserved <= c.h.inFlight
  {
    if c.p2 != [] { Head(c.p2); }
    hide Bits;
  }

  lemma HolderTagged(c: Chain, act: Act)
    requires Tagged(c) && CanMove(c, Holder(act)) && Up(c.h) && EndOk(c.h)
    requires act.DoReceive? && c.p2[0].Ack? ==> c.p2[0].n <= c.h.inFlight
    ensures Tagged(Moved(c, Holder(act)))
  {
    HolderCounts(c.h, c.p2, act);
    Appended(c.q2, Perform(c.h, c.p2, act).out);
    hide Perform, Size, Acks, Bits, Messages, EndOk;
  }

  lemma HolderDirect(c: Chain, act: Act)
    requires CanMove(c, Holder(act)) && Up(c.h)
    requires act.DoReceive? && c.p2[0].Ack? ==> c.p2[0].n <= c.h.inFlight
    ensures Can(Direct(c), false, act) && Direct(Moved(c, Holder(act))) == Socket.Step(Direct(c), false, act)
  {
    var e := Perform(c.h, c.p2, act);
    SameInput(c, act);
    LiftPerform(c.h, c.p2, act, c.relay.owed, c.before);
    assert c.q1 + (c.q2 + e.out) == (c.q1 + c.q2) + e.out;
    assert Lifted(c) == Lift(c.h, c.relay.owed, c.before);
    hide Perform;
  }

  lemma SameInput(c: Chain, act: Act)
    requires Enabled(c.h, c.p2, act)
    ensures Enabled(Lifted(c), c.p2 + c.p1, act) && Enabled(Lifted(c), c.p2, act)
    ensures Perform(Lifted(c), c.p2 + c.p1, act) == Perform(Lifted(c), c.p2, act)
    ensures Socket.Remaining(c.p2 + c.p1, act) == Socket.Remaining(c.p2, act) + c.p1
  {
    if act.DoReceive? { assert (c.p2 + c.p1)[0] == c.p2[0] && (c.p2 + c.p1)[1..] == c.p2[1..] + c.p1; }
    hide Accept, Receive, Send, SendReserved;
  }

  lemma HolderEndOk(c: Chain, act: Act)
    requires Enabled(c.h, c.p2, act) && EndOk(c.h) && Up(c.h)
    requires act.DoReceive? && c.p2[0].Ack? ==> c.p2[0].n + c.h.reserved <= c.h.inFlight
    ensures EndOk(Perform(c.h, c.p2, act).end)
  {
    var e := c.h;
    if act.DoAccept? && !e.accepted {
      var base := e.(accepted := true, queue := []);
      DeliverMany(base, e.queue);
      DeliveredOk(base, e.queue, DeliverAll(base, e.queue));
    }
  }

  // ----- the relay's steps -----

  function Count(b: bool, line: seq<bool>): nat {
    if line == [] then 0 else (if line[0] == b then 1 else 0) + Count(b, line[1..])
  }

  /** The oldest bytes of a line are the old end's first, then the holder's. */
  lemma {:induction false} OldestAre(owed: nat, line: seq<bool>, k: nat)
    requires OldFirst(owed, line) && k <= |line|
    ensures Count(false, line[..k]) == Min(owed, k) && Count(true, line[..k]) == k - Min(owed, k)
    decreases k
  {
    if k > 0 {
      var rest := line[1..];
      assert forall i :: 0 <= i < |rest| ==> rest[i] == line[i + 1];
      OldestAre(if owed > 0 then owed - 1 else 0, rest, k - 1);
      assert line[..k][1..] == rest[..k - 1];
    }
  }

  /** What the peer has acked or will ack fits the line. */
  lemma LineIsOutstanding(c: Chain)
    requires ChainInv(c) && BothUp(c)
    ensures |c.line| == Size(c.q1) + Size(c.p.queue) + c.p.toAck + Acks(c.p1)
  {
    AppendedEnds(c);
    hide Size, Acks, Messages, Bits;
  }

  lemma AckFitsLine(c: Chain)
    requires ChainInv(c) && BothUp(c) && c.p1 != [] && c.p1[0].Ack?
    ensures c.p1[0].n <= |c.line|
  {
    LineIsOutstanding(c);
    Head(c.p1);
    hide ChainInv;
  }

  /**
   Of an ack that passes the relay, even one that covers both holders' bytes, the
   new holder gets exactly the part for its own bytes, and the old end's part is
   absorbed: the ack covers the oldest unacked bytes, the old end's first.
   */
  lemma RelaySplits(c: Chain)
    requires ChainInv(c) && BothUp(c) && CanMove(c, In) && c.p1[0].Ack?
    ensures var n, p := c.p1[0].n, FromPort(c.relay, c.p1[0]);
            && n <= |c.line|
            && Acks(p.out) == Count(true, c.line[..n])
            && c.relay.owed - p.relay.owed == Count(false, c.line[..n])
  {
    AckFitsLine(c);
    var n, p := c.p1[0].n, FromPort(c.relay, c.p1[0]);
    OldestAre(c.relay.owed, c.line, n);
    if p.out != [] { One(p.out[0]); assert p.out == [p.out[0]]; }
    hide Bits, Count, Inv;
  }

  lemma LineGrows(owed: nat, line: seq<bool>, n: nat)
    requires OldFirst(owed, line)
    ensures OldFirst(owed, line + Bits(true, n))
  {
    hide Bits;
  }

  lemma LineTaken(owed: nat, line: seq<bool>, n: nat)
    requires OldFirst(owed, line) && n <= |line|
    ensures OldFirst(owed - Min(owed, n), line[n..])
  {
    var rest := line[n..];
    assert forall i :: 0 <= i < |rest| ==> rest[i] == line[n + i];
  }

  lemma OutTagged(c: Chain)
    requires Tagged(c) && CanMove(c, Out)
    ensures Tagged(Moved(c, Out))
  {
    Head(c.q2);
    if c.q2[0].Message? { LineGrows(c.relay.owed, c.line, |c.q2[0].data|); }
    hide Bits, Size, Acks, OldFirst;
  }

  lemma OutMoves(c: Chain)
    requires ChainInv(c) && CanMove(c, Out)
    ensures ChainInv(Moved(c, Out)) && Direct(Moved(c, Out)) == Direct(c)
  {
    OutDirect(c);
    if BothUp(c) { OutTagged(c); }
    hide Inv, Tagged, EndOk, Bits, Direct;
  }

  lemma OutDirect(c: Chain)
    requires CanMove(c, Out)
    ensures Direct(Moved(c, Out)) == Direct(c)
  {
    assert c.q1 + [c.q2[0]] + c.q2[1..] == c.q1 + c.q2;
  }

  lemma PassDirect(c: Chain)
    requires CanMove(c, In) && !(c.p1[0].Ack? && c.relay.owed > 0)
    ensures Direct(Moved(c, In)) == Direct(c)
  {
    assert c.p2 + [c.p1[0]] + c.p1[1..] == c.p2 + c.p1;
  }

  lemma PassTagged(c: Chain)
    requires Tagged(c) && CanMove(c, In) && !(c.p1[0].Ack? && c.relay.owed > 0) && (c.p1[0].Ack? ==> c.p1[0].n <= |c.line|)
    ensures Tagged(Moved(c, In))
  {
    var f := c.p1[0];
    Appended(c.p2, [f]);
    One(f);
    if f.Ack? { LineTaken(0, c.line, f.n); }
    hide Bits, Size, Acks, Count, OldFirst;
  }

  /** Anything but an ack the old end is owed passes as it is. */
  lemma PassMoves(c: Chain)
    requires ChainInv(c) && CanMove(c, In) && !(c.p1[0].Ack? && c.relay.owed > 0)
    ensures ChainInv(Moved(c, In)) && Direct(Moved(c, In)) == Direct(c)
  {
    PassDirect(c);
    if BothUp(c) {
      if c.p1[0].Ack? { AckFitsLine(c); }
      PassTagged(c);
    }
    hide Inv, Tagged, EndOk, Bits, Direct;
  }

  lemma AbsorbTagged(c: Chain)
    requires Tagged(c) && CanMove(c, In) && c.p1[0].Ack? && c.relay.owed > 0 && c.p1[0].n <= |c.line|
    ensures Tagged(Moved(c, In))
    ensures var c' := Moved(c, In);
            Acks(c'.p2) == Acks(c.p2) + c.p1[0].n - (c.relay.owed - c'.relay.owed) && Size(c'.p2) == Size(c.p2) && Messages(c'.p2) == Messages(c.p2)
  {
    var out := FromPort(c.relay, c.p1[0]).out;
    LineTaken(c.relay.owed, c.line, c.p1[0].n);
    Appended(c.p2, out);
    if out != [] { One(out[0]); assert out == [out[0]]; } else { assert c.p2 + [] == c.p2; }
    assert Messages(c.p2) + [] == Messages(c.p2);
    hide Bits, Size, Acks, Count, Messages, OldFirst;
  }

  /** An ack of the old end's bytes is absorbed, as far as it is for them. */
  lemma AbsorbMoves(c: Chain)
    requires ChainInv(c) && CanMove(c, In) && c.p1[0].Ack? && c.relay.owed > 0
    ensures ChainInv(Moved(c, In))
  {
    if BothUp(c) {
      var c' := Moved(c, In);
      AckFitsLine(c);
      AbsorbTagged(c);
      Head(c.p1);
      AppendedEnds(c);
      AppendedEnds(c');
      assert [] + Messages(c.p1[1..]) == Messages(c.p1[1..]);
      hide Inv, Bits, Size, Acks, Count, Tagged, EndOk, Messages;
      AbsorbInv(c, c');
    }
  }

  lemma AbsorbInv(c: Chain, c': Chain)
    requires Inv(Direct(c)) && EndOk(c.h) && BothUp(c)
    requires c' == c.(relay := c'.relay, p1 := c'.p1, p2 := c'.p2, line := c'.line)
    requires c'.relay.owed <= c.relay.owed && Acks(c.p2 + c.p1) - Acks(c'.p2 + c'.p1) == c.relay.owed - c'.relay.owed
    requires Size(c'.p2 + c'.p1) == Size(c.p2 + c.p1) && Messages(c'.p2 + c'.p1) == Messages(c.p2 + c.p1)
    ensures Inv(Direct(c'))
  {
    hide Size, Acks, Messages;
  }

  // ----- any run after a detach -----

  lemma MoveKeeps(c: Chain, m: Move)
    requires ChainInv(c) && CanMove(c, m)
    ensures ChainInv(Moved(c, m))
  {
    hide ChainInv;
    match m
    case Peer(act) => PeerMoves(c, act);
    case Holder(act) => HolderMoves(c, act);
    case In => if c.p1[0].Ack? && c.relay.owed > 0 { AbsorbMoves(c); } else { PassMoves(c); }
    case Out => OutMoves(c);
  }

  ghost predicate Chained(c: Chain, c': Chain) {
    exists m :: CanMove(c, m) && c' == Moved(c, m)
  }

  lemma {:induction false} ChainRunKeeps(chains: seq<Chain>)
    requires |chains| >= 1 && ChainInv(chains[0])
    requires forall i :: 0 <= i < |chains| - 1 ==> Chained(chains[i], chains[i + 1])
    ensures ChainInv(chains[|chains| - 1])
    decreases |chains|
  {
    hide ChainInv, Moved;
    var n := |chains| - 1;
    if n > 0 {
      var past := chains[..n];
      forall i | 0 <= i < n - 1 ensures Chained(past[i], past[i + 1]) { assert past[i] == chains[i] && past[i + 1] == chains[i + 1]; }
      ChainRunKeeps(past);
      assert Chained(chains[n - 1], chains[n]);
      var m :| CanMove(chains[n - 1], m) && chains[n] == Moved(chains[n - 1], m);
      MoveKeeps(chains[n - 1], m);
    }
  }

  /**
   Whatever happened before, the accounts survive a detach, in every state of every
   run after it while neither socket is closing or closed: each side counts exactly
   its own bytes, wherever they are between it and the other, the peer what it sent before the detach too, and
   what each was handed is, in order, the beginning of what was sent to it, the
   frames that had reached the old end first.
   */
  lemma AccountsSurviveDetach(worlds: seq<World>, keen: bool, accepted: bool, chains: seq<Chain>)
    requires Detachable(worlds)
    requires |chains| >= 1 && chains[0] == Detach(worlds[|worlds| - 1], keen, accepted)
    requires forall i :: 0 <= i < |chains| - 1 ==> Chained(chains[i], chains[i + 1])
    requires BothUp(chains[|chains| - 1])
    ensures var c := chains[|chains| - 1];
            && c.relay.owed <= |c.line|
            && c.p.inFlight == c.p.reserved + Size(c.p1) + Size(c.p2) + Size(c.h.queue) + c.h.toAck + Acks(c.q1) + Acks(c.q2)
            && c.h.inFlight == c.h.reserved + Size(c.q2) + (|c.line| - c.relay.owed) + Acks(c.p2)
            && |c.line| == Size(c.q1) + Size(c.p.queue) + c.p.toAck + Acks(c.p1)
            && (forall i :: 0 <= i < |c.line| ==> c.line[i] == (i >= c.relay.owed))
            && c.h.got <= c.p.sent && c.p.got <= c.before + c.h.sent
  {
    DetachStarts(worlds, keen, accepted);
    hide Detachable;
    ChainRunKeeps(chains);
    var c := chains[|chains| - 1];
    LineIsOutstanding(c);
    AppendedEnds(c);
    hide Size, Acks, Messages, Bits;
  }
}
