/** The two ends of a WebSocket over a message port: frames, close handshake, and byte accounting. */
module Socket {
  import opened Basics

  datatype Frame = Message(data: Bytes) | CloseFrame | Ack(n: nat) | Ping | Pong

  /**
   `Leaving`: a client closed while it was connecting. The platform calls it CLOSING
   too, but it has no port yet, so it posts nothing and hears nothing.
   */
  datatype State = Connecting | Leaving | Open | Closing | Closed

  /** `keen`: messages that arrive after `close()` are still delivered. */
  datatype End = End(state: State, accepted: bool, keen: bool, inFlight: nat, discarded: nat, reserved: nat,
                     toAck: nat, scheduled: bool, queue: seq<Frame>, sent: seq<Bytes>, got: seq<Bytes>)

  datatype Effect = Effect(end: End, out: seq<Frame>)

  /** A server's end is open at once and heard after `accept()`; a client's is heard once it has its port. */
  function Fresh(accepted: bool, keen: bool): End {
    End(if accepted then Connecting else Open, accepted, keen, 0, 0, 0, 0, false, [], [], [])
  }

  /** Neither closing nor closed. */
  predicate Up(e: End) { e.state == Open || e.state == Connecting }

  /** Its port has a listener. */
  predicate Attached(e: End) { e.state != Connecting && e.state != Leaving }

  /** The client gets its port: it takes it and pings, or lets it go if it was closed meanwhile. */
  function Connected(e: End): Effect
    requires !Attached(e)
  {
    if e.state == Connecting then Effect(e.(state := Open), [Ping]) else Effect(e.(state := Closed), [CloseFrame])
  }

  // ----- sending -----

  function Send(e: End, data: Bytes): Effect {
    if e.state != Open then Effect(e.(discarded := e.discarded + |data|), [])
    else Effect(e.(inFlight := e.inFlight + |data|, sent := e.sent + [data]), [Message(data)])
  }

  /** A message still being prepared counts already. */
  function Reserve(e: End, bytes: nat): End {
    e.(inFlight := e.inFlight + bytes, reserved := e.reserved + bytes)
  }

  function SendReserved(e: End, data: Bytes): Effect
    requires |data| <= e.reserved
  {
    var t := e.(reserved := e.reserved - |data|);
    if e.state != Open
    then Effect(t.(inFlight := Max(0, e.inFlight - |data|), discarded := e.discarded + |data|), [])
    else Effect(t.(sent := e.sent + [data]), [Message(data)])
  }

  function StartClose(e: End): Effect {
    if e.state == Connecting then Effect(e.(state := Leaving), [])
    else if e.state != Open then Effect(e, [])
    else Effect(e.(state := Closing), [CloseFrame])
  }

  /** The close timer fired, the heartbeat stopped, or no connection was made. */
  function Finish(e: End): End { e.(state := Closed) }

  // ----- receiving -----

  function Consumed(e: End, bytes: nat): End {
    e.(toAck := e.toAck + bytes, scheduled := true)
  }

  /** A message or a close of a socket ready to act on it. */
  function Deliver(e: End, f: Frame): Effect {
    match f
    case CloseFrame =>
      if e.state == Closed then Effect(e, [])
      else if e.state == Closing || e.state == Leaving then Effect(Finish(e), [])
      else Effect(Finish(e), [CloseFrame])
    case Message(d) =>
      if e.state == Open || (e.state == Closing && e.keen)
      then Effect(Consumed(e.(got := e.got + [d]), |d|), [])
      else Effect(e, [])
    case _ => Effect(e, [])
  }

  function DeliverAll(e: End, fs: seq<Frame>): Effect
    decreases |fs|
  {
    if fs == [] then Effect(e, [])
    else
      var first := Deliver(e, fs[0]);
      var rest := DeliverAll(first.end, fs[1..]);
      Effect(rest.end, first.out + rest.out)
  }

  /** `accept()`: what arrived before is delivered first. */
  function Accept(e: End): Effect {
    if e.accepted then Effect(e, []) else DeliverAll(e.(accepted := true, queue := []), e.queue)
  }

  /** A frame from the port; a closed socket's port receives nothing. */
  function Receive(e: End, f: Frame): Effect {
    if e.state == Closed then Effect(e, [])
    else match f
      case Ack(n) => Effect(e.(inFlight := Max(0, e.inFlight - n)), [])
      case Ping => Effect(e, [Pong])
      case Pong => Effect(e, [])
      case _ => if e.accepted then Deliver(e, f) else Effect(e.(queue := e.queue + [f]), [])
  }

  /** The acks of one turn go as one frame. */
  function AckTurn(e: End): Effect
    requires e.scheduled
  {
    var t := e.(scheduled := false, toAck := 0);
    Effect(t, if e.toAck > 0 && e.state != Closed then [Ack(e.toAck)] else [])
  }

  lemma DeliverNext(e: End, fs: seq<Frame>, i: nat, out: seq<Frame>)
    requires i < |fs|
    ensures var first := Deliver(e, fs[i]);
            && DeliverAll(e, fs[i..]).end == DeliverAll(first.end, fs[i + 1..]).end
            && out + DeliverAll(e, fs[i..]).out == (out + first.out) + DeliverAll(first.end, fs[i + 1..]).out
  {
    assert fs[i..][1..] == fs[i + 1..];
    hide Deliver;
  }

  class PortSocket {
    var state: State
    var accepted: bool
    var keen: bool
    var inFlight: nat
    var discarded: nat
    var reserved: nat
    var toAck: nat
    var scheduled: bool
    var queue: seq<Frame>
    var port: seq<Frame>
    ghost var sent: seq<Bytes>
    ghost var got: seq<Bytes>

    ghost function Is(): End
      reads this
    {
      End(state, accepted, keen, inFlight, discarded, reserved, toAck, scheduled, queue, sent, got)
    }

    /** The block did what `e` says: the new state, and the frames it posted. */
    twostate predicate Did(e: Effect)
      reads this
    {
      Is() == e.end && port == old(port) + e.out
    }

    constructor (accepted: bool, keen: bool)
      ensures Is() == Fresh(accepted, keen) && port == []
    {
      state, inFlight, discarded, reserved, toAck, scheduled := if accepted then Connecting else Open, 0, 0, 0, 0, false;
      this.accepted, this.keen, queue, port, sent, got := accepted, keen, [], [], [], [];
    }

    method Connect()
      requires state == Connecting || state == Leaving
      modifies this
      ensures Did(Connected(old(Is())))
      ensures if old(state) == Connecting then state == Open && port == old(port) + [Ping] else state == Closed && port == old(port) + [CloseFrame]
    {
      if state == Leaving {
        port := port + [CloseFrame];
        state := Closed;
        return;
      }
      state := Open;
      port := port + [Ping];
    }

    method Close()
      modifies this
      ensures Did(StartClose(old(Is())))
      ensures old(state) == Open ==> state == Closing && port == old(port) + [CloseFrame]
      ensures old(state) == Connecting ==> state == Leaving
      ensures old(state) != Open ==> port == old(port)
    {
      assert port + [] == port;
      if state == Connecting {
        state := Leaving;
        return;
      }
      if state != Open { return; }
      state := Closing;
      port := port + [CloseFrame];
    }

    method SendData(data: Bytes, fromReserve: bool)
      requires fromReserve ==> |data| <= reserved
      modifies this
      ensures Did(if fromReserve then SendReserved(old(Is()), data) else Send(old(Is()), data))
      ensures if old(state) == Open
              then port == old(port) + [Message(data)] && inFlight == old(inFlight) + (if fromReserve then 0 else |data|)
              else port == old(port) && discarded == old(discarded) + |data|
    {
      assert port + [] == port;
      var size := |data|;
      if fromReserve { reserved := reserved - size; }
      if state != Open {
        if fromReserve { inFlight := Max(0, inFlight - size); }
        discarded := discarded + size;
        return;
      }
      if !fromReserve { inFlight := inFlight + size; }
      sent := sent + [data];
      port := port + [Message(data)];
    }

    method DeliverFrame(f: Frame)
      modifies this
      ensures Did(Deliver(old(Is()), f))
      ensures f.CloseFrame? ==> state == Closed && port == old(port) + (if old(state) == Open || old(state) == Connecting then [CloseFrame] else [])
      ensures f.Message? ==>
                && state == old(state) && port == old(port)
                && if old(state) == Open || (old(state) == Closing && keen)
                   then got == old(got) + [f.data] && toAck == old(toAck) + |f.data| && scheduled
                   else got == old(got) && toAck == old(toAck)
    {
      assert port + [] == port;
      if f.CloseFrame? {
        if state == Closed { return; }
        if state == Open || state == Connecting { port := port + [CloseFrame]; }
        state := Closed;
      } else if f.Message? && (state == Open || (state == Closing && keen)) {
        got := got + [f.data];
        toAck := toAck + |f.data|;
        scheduled := true;
      }
    }

    method OnFrame(f: Frame)
      modifies this
      ensures Did(Receive(old(Is()), f))
      ensures f.Ping? && old(state) != Closed ==> port == old(port) + [Pong]
      ensures f.Ack? && old(state) != Closed ==> inFlight == Max(0, old(inFlight) - f.n) && port == old(port)
    {
      assert port + [] == port;
      if state == Closed { return; }
      match f {
        case Ack(n) => inFlight := Max(0, inFlight - n);
        case Ping => port := port + [Pong];
        case Pong =>
        case _ => if accepted { DeliverFrame(f); } else { queue := queue + [f]; }
      }
    }

    method AcceptSocket()
      modifies this
      ensures Did(Accept(old(Is())))
    {
      assert port + [] == port;
      if accepted { return; }
      accepted := true;
      var waiting := queue;
      queue := [];
      DeliverQueue(waiting);
    }

    method DeliverQueue(waiting: seq<Frame>)
      modifies this
      ensures Did(DeliverAll(old(Is()), waiting))
    {
      ghost var e0 := Is();
      ghost var out: seq<Frame> := [];
      assert waiting[0..] == waiting && port + [] == port;
      assert [] + DeliverAll(e0, waiting).out == DeliverAll(e0, waiting).out;
      for i := 0 to |waiting|
        invariant port == old(port) + out
        invariant Effect(DeliverAll(Is(), waiting[i..]).end, out + DeliverAll(Is(), waiting[i..]).out) == DeliverAll(e0, waiting)
      {
        DeliverNext(Is(), waiting, i, out);
        ghost var first := Deliver(Is(), waiting[i]).out;
        assert old(port) + out + first == old(port) + (out + first);
        hide DeliverAll, Deliver;
        DeliverFrame(waiting[i]);
        out := out + first;
      }
      assert waiting[|waiting|..] == [];
      assert out + [] == out;
    }

    method AckNow()
      requires scheduled
      modifies this
      ensures Did(AckTurn(old(Is())))
      ensures toAck == 0 && port == old(port) + (if old(toAck) > 0 && state != Closed then [Ack(old(toAck))] else [])
    {
      assert port + [] == port;
      scheduled := false;
      var n := toAck;
      toAck := 0;
      if n > 0 && state != Closed { port := port + [Ack(n)]; }
    }
  }

  // ----- two ends and their port -----

  datatype World = World(a: End, b: End, ab: seq<Frame>, ba: seq<Frame>)

  datatype Act =
    | DoConnect | DoSend(data: Bytes) | DoReserve(n: nat) | DoSendReserved(data: Bytes) | DoClose | DoFinish
    | DoAccept | DoAck | DoReceive

  predicate Enabled(e: End, inbox: seq<Frame>, act: Act) {
    match act
    case DoConnect => !Attached(e)
    case DoSend(_) => e.state != Connecting
    case DoReserve(_) => e.state == Open
    case DoSendReserved(d) => |d| <= e.reserved && Attached(e)
    case DoAck => e.scheduled
    case DoReceive => inbox != [] && Attached(e)
    case _ => true
  }

  function Perform(e: End, inbox: seq<Frame>, act: Act): Effect
    requires Enabled(e, inbox, act)
  {
    match act
    case DoConnect => Connected(e)
    case DoSend(d) => Send(e, d)
    case DoReserve(n) => Effect(Reserve(e, n), [])
    case DoSendReserved(d) => SendReserved(e, d)
    case DoClose => StartClose(e)
    case DoFinish => Effect(Finish(e), [])
    case DoAccept => Accept(e)
    case DoAck => AckTurn(e)
    case DoReceive => Receive(e, inbox[0])
  }

  function Remaining(inbox: seq<Frame>, act: Act): seq<Frame> {
    if act.DoReceive? && inbox != [] then inbox[1..] else inbox
  }

  predicate Can(w: World, byA: bool, act: Act) {
    if byA then Enabled(w.a, w.ba, act) else Enabled(w.b, w.ab, act)
  }

  function Step(w: World, byA: bool, act: Act): World
    requires Can(w, byA, act)
  {
    if byA then
      var e := Perform(w.a, w.ba, act);
      World(e.end, w.b, w.ab + e.out, Remaining(w.ba, act))
    else
      var e := Perform(w.b, w.ab, act);
      World(w.a, e.end, Remaining(w.ab, act), w.ba + e.out)
  }

  function Size(fs: seq<Frame>): nat {
    if fs == [] then 0 else (if fs[0].Message? then |fs[0].data| else 0) + Size(fs[1..])
  }

  function Acks(fs: seq<Frame>): nat {
    if fs == [] then 0 else (if fs[0].Ack? then fs[0].n else 0) + Acks(fs[1..])
  }

  function Messages(fs: seq<Frame>): seq<Bytes> {
    if fs == [] then [] else (if fs[0].Message? then [fs[0].data] else []) + Messages(fs[1..])
  }

  /** An end that hears every message it is sent, or will. */
  predicate Hears(e: End) { Up(e) || (e.state == Closing && e.keen) }

  predicate EndOk(e: End) {
    && (Up(e) ==> e.discarded == 0)
    && (!Attached(e) ==> e.accepted)
    && (!e.accepted ==> e.toAck == 0 && e.got == [])
    && (e.accepted ==> e.queue == [])
    && (forall f :: f in e.queue ==> f.Message? || f.CloseFrame?)
    && (e.toAck > 0 ==> e.scheduled)
    && e.reserved <= e.inFlight
  }

  datatype Flow = Flow(s: End, r: End, sr: seq<Frame>, rs: seq<Frame>)

  /** Every byte the sender counts: being prepared, on the way, waiting for `accept`, read and not yet acked, or acked. */
  function Outstanding(f: Flow): nat {
    f.s.reserved + Size(f.sr) + Size(f.r.queue) + f.r.toAck + Acks(f.rs)
  }

  predicate Accounts(f: Flow) {
    f.s.state != Closed ==>
      && (Up(f.r) ==> f.s.inFlight == Outstanding(f))
      && (f.r.state != Closed ==> f.s.inFlight >= Outstanding(f))
      && f.s.inFlight >= f.s.reserved + Acks(f.rs)
  }

  predicate InOrder(f: Flow) {
    && f.r.got <= f.s.sent
    && (Hears(f.r) ==> f.r.got + Messages(f.r.queue) + Messages(f.sr) == f.s.sent)
  }

  predicate Dir(f: Flow) { Accounts(f) && InOrder(f) }

  function FlowAB(w: World): Flow { Flow(w.a, w.b, w.ab, w.ba) }
  function FlowBA(w: World): Flow { Flow(w.b, w.a, w.ba, w.ab) }

  predicate Inv(w: World) {
    EndOk(w.a) && EndOk(w.b) && Dir(FlowAB(w)) && Dir(FlowBA(w))
  }
}
