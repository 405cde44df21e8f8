/**
 One end of one stream of the credit multiplexer: its outbound pump, its inbound
 queue with the consumer's generator, and what each synchronous block does.
 */
module CreditSide {
  import opened Basics
  import opened FlowControl
  import U = Uint32

  datatype Frame = Open(window: nat) | Data(bytes: Bytes) | Ack(units: nat) | EndFrame | ErrorFrame | CloseFrame

  /** The largest piece, and the bytes one stream may hold for its consumer. */
  datatype Config = Config(mtu: nat, buffer: nat)

  predicate ConfigOk(c: Config) { c.mtu >= 1 && c.buffer >= 1 }

  /**
   Why a stream's input is over: the peer's END, CLOSE or ERROR, or this side's own
   close (its handler's output was over first) or error. The consumer's loop throws
   for the two errors, and finishes normally for the other three.
   */
  datatype Cause = PeerEnd | PeerClose | PeerError | OwnClose | OwnError

  predicate Throws(c: Cause) { c == PeerError || c == OwnError }

  datatype Slot = Value(bytes: Bytes) | Done(cause: Cause)

  /** A pushed value's promise: its consumer took it, or the queue closed first. */
  datatype Settled = Settled(units: nat, handled: bool)

  /** The pump: between chunks, waiting in `reserve`, holding what it reserved, or over. */
  datatype Phase = Waiting | Parked | Taken(units: nat) | Over

  datatype Outcome = Running | Finished(cause: Cause) | Cancelled

  datatype Status = NotYet | Live | Gone

  /** `offered`: all the input's bytes so far; `sent`: those put on the wire; `chunk`: those in between. */
  datatype Outbound = Outbound(ledger: Ledger, phase: Phase, chunk: Bytes, offered: Bytes, sent: Bytes, done: bool)

  /** `hand`: the value yielded last, until the consumer asks for the next one. */
  datatype Inbound = Inbound(slots: seq<Slot>, hand: Option<nat>, settling: seq<Settled>,
                             queued: nat, pending: nat, outcome: Outcome, read: Bytes, done: bool)

  datatype Side = Side(status: Status, outb: Outbound, inb: Inbound)

  datatype Effect = Effect(side: Side, out: seq<Frame>)

  function Fresh(status: Status): Side {
    Side(status, Outbound(Ledger(0, [], false), Waiting, [], [], [], false),
         Inbound([], None, [], 0, 0, Running, [], false))
  }

  predicate HasDone(slots: seq<Slot>) {
    exists i :: 0 <= i < |slots| && slots[i].Done?
  }

  /** `doneIn`: the first reason ends the queue; later ones change nothing. */
  function DoneIn(i: Inbound, cause: Cause): Inbound {
    if !i.outcome.Running? || HasDone(i.slots) then i else i.(slots := i.slots + [Done(cause)])
  }

  /** The slot is freed at once; a parked pump unwinds. */
  function Teardown(s: Side, cause: Cause): Side {
    if s.status == Gone then s
    else Side(Gone,
              s.outb.(ledger := Fail(s.outb.ledger), phase := if s.outb.phase.Parked? then Over else s.outb.phase),
              DoneIn(s.inb, cause))
  }

  function ReleaseIfComplete(s: Side): Side {
    if s.status != Live || !s.inb.done || !s.outb.done then s else s.(status := Gone)
  }

  // ----- the pump -----

  /** `reserve` for the rest of the chunk: answered at once, or parked. */
  function ReserveNext(c: Config, s: Side): Side
    requires s.outb.chunk != [] && ConfigOk(c)
  {
    match Reserve(s.outb.ledger, Min(c.mtu, |s.outb.chunk|))
    case Given(l, n) => s.(outb := s.outb.(ledger := l, phase := Taken(n)))
    case Queued(l) => s.(outb := s.outb.(ledger := l, phase := Parked))
    case Refused => s.(outb := s.outb.(phase := Over))
  }

  /** The input yields a chunk. */
  function OfferChunk(c: Config, s: Side, chunk: Bytes): Side
    requires s.outb.phase.Waiting? && ConfigOk(c)
  {
    if s.status == Gone then s.(outb := s.outb.(phase := Over))
    else if chunk == [] then s
    else ReserveNext(c, s.(outb := s.outb.(chunk := chunk, offered := s.outb.offered + chunk)))
  }

  /** The reserved piece goes out. */
  function SendPiece(c: Config, s: Side): Effect
    requires s.outb.phase.Taken? && s.outb.phase.units <= |s.outb.chunk| && ConfigOk(c)
  {
    if s.status == Gone then Effect(s.(outb := s.outb.(phase := Over)), [])
    else
      var n := s.outb.phase.units;
      var t := s.(outb := s.outb.(chunk := s.outb.chunk[n..], sent := s.outb.sent + s.outb.chunk[..n], phase := Waiting));
      Effect(if t.outb.chunk == [] then t else ReserveNext(c, t), [Data(s.outb.chunk[..n])])
  }

  /** The input is exhausted. */
  function InputEnds(s: Side): Effect
    requires s.outb.phase.Waiting?
  {
    var t := s.(outb := s.outb.(phase := Over));
    if s.status == Gone then Effect(t, [])
    else Effect(ReleaseIfComplete(t.(outb := t.outb.(done := true))), [EndFrame])
  }

  /** The input throws, or the handler did before giving any. */
  function InputFails(s: Side): Effect
    requires s.outb.phase.Waiting?
  {
    var t := s.(outb := s.outb.(phase := Over));
    if s.status == Gone then Effect(t, []) else Effect(Teardown(t, OwnError), [ErrorFrame])
  }

  /** The serving side, its response complete, no longer wants the request. */
  function HandlerDone(s: Side): Effect {
    if s.inb.done || s.status == Gone then Effect(s, []) else Effect(Teardown(s, OwnClose), [CloseFrame])
  }

  // ----- the inbound queue and its consumer -----

  function Refuse(slots: seq<Slot>): seq<Settled> {
    if slots == [] then []
    else (if slots[0].Value? then [Settled(|slots[0].bytes|, false)] else []) + Refuse(slots[1..])
  }

  /** The consumer's loop takes the next slot: a value is yielded, the end finishes it. */
  function TakeSlot(s: Side): Side
    requires s.inb.slots != []
  {
    match s.inb.slots[0]
    case Value(b) => s.(inb := s.inb.(slots := s.inb.slots[1..], hand := Some(|b|), read := s.inb.read + b))
    case Done(cause) =>
      s.(inb := s.inb.(slots := [], outcome := Finished(cause), settling := s.inb.settling + Refuse(s.inb.slots[1..])))
  }

  /** The consumer asks for the next value: the one in hand was handled. */
  function AskNext(s: Side): Side
    requires s.inb.hand.Some?
  {
    s.(inb := s.inb.(hand := None, settling := s.inb.settling + [Settled(s.inb.hand.value, true)]))
  }

  /** The consumer leaves early, at a value: what is queued is refused, and the peer told unless the input was over. */
  function Leave(s: Side): Effect
    requires s.inb.hand.Some?
  {
    var t := s.(inb := s.inb.(slots := [], hand := None, outcome := Cancelled, settling := s.inb.settling + Refuse(s.inb.slots)));
    if HasDone(s.inb.slots) || s.status == Gone then Effect(t, []) else Effect(Teardown(t, OwnClose), [CloseFrame])
  }

  /** A settled push: its bytes leave the count, and credit may go back. */
  function SettleOne(c: Config, s: Side): Effect
    requires s.inb.settling != []
  {
    var p := s.inb.settling[0];
    var left := if p.units <= s.inb.queued then s.inb.queued - p.units else 0;
    var t := s.(inb := s.inb.(settling := s.inb.settling[1..], queued := left));
    if !p.handled || s.status == Gone then Effect(t, [])
    else
      var g := Consume(c.buffer, s.inb.pending, p.units, left == 0);
      Effect(t.(inb := t.inb.(pending := g.pending)), if g.grant > 0 then [Ack(U.Clamp(g.grant))] else [])
  }

  // ----- frames -----

  function Opened(c: Config): Effect {
    Effect(Fresh(Live), [Open(U.Clamp(c.buffer))])
  }

  function AddCredit(s: Side, units: nat): Side {
    var r := Grant(s.outb.ledger, units);
    s.(outb := s.outb.(ledger := r.ledger,
                       phase := if s.outb.phase.Parked? && r.given != [] then Taken(r.given[0]) else s.outb.phase))
  }

  function HandleData(c: Config, s: Side, b: Bytes): Effect {
    var t := s.(inb := s.inb.(queued := s.inb.queued + |b|));
    if t.inb.queued > c.buffer then Effect(Teardown(t, OwnError), [ErrorFrame])
    else if !s.inb.outcome.Running? then Effect(t.(inb := t.inb.(settling := t.inb.settling + [Settled(|b|, false)])), [])
    else Effect(t.(inb := t.inb.(slots := t.inb.slots + [Value(b)])), [])
  }

  /**
   `refused`: no slot or no handler for a stream the peer opens. Only an OPEN for
   a live stream is a duplicate; an id that finished, or was refused, opens anew.
   */
  function Handle(c: Config, s: Side, f: Frame, refused: bool): Effect {
    if s.status != Live then
      if !f.Open? then Effect(s, [])
      else if refused then Effect(s.(status := Gone), [ErrorFrame])
      else Effect(AddCredit(Fresh(Live), f.window), [Ack(U.Clamp(c.buffer))])
    else
      match f
      case Open(_) => Effect(s, [])
      case Data(b) => HandleData(c, s, b)
      case Ack(n) => Effect(AddCredit(s, n), [])
      case EndFrame => Effect(ReleaseIfComplete(s.(inb := DoneIn(s.inb.(done := true), PeerEnd))), [])
      case ErrorFrame => Effect(Teardown(s, PeerError), [])
      case CloseFrame => Effect(Teardown(s, PeerClose), [])
  }
}
