/**
 One end of one multiplexed port, as a value: what `multiplexPort` keeps for the
 port's id (its table entry, its flow-control record and its queue of the fair
 ring) and what each synchronous block of code does to it. The class in
 `PortMux` works on exactly these values.
 */
module PortSide {
  import opened Basics
  import Values

  /** A value posted on a port. Nothing here looks inside one. */
  type Payload = Values.Value

  datatype Cap = Pipeline | HalfClose

  /**
   The envelopes of one port. A `window` of 0 stands for no (or no usable)
   window; capabilities are the known ones of the list.
   */
  datatype Envelope =
    | Open(window: nat, exact: bool, caps: Option<set<Cap>>)
    | Message(payload: Payload)
    | Frame(data: Bytes, last: bool)
    | Credit(bytes: nat, exact: bool, caps: Option<set<Cap>>)
    | End
    | Close

  /**
   A codec seen from one port: the bytes of a `message` envelope on that port,
   the payload back from such bytes (`None` for anything else), the size both
   ends fall back to when they cannot count bytes, and the payloads it gives
   back as they were.
   */
  datatype Codec = Codec(
    encode: Payload -> Bytes, decode: Bytes -> Option<Payload>, estimate: Payload -> nat, carries: Payload -> bool)

  ghost predicate CodecOk(c: Codec) {
    forall p :: |c.encode(p)| >= 1 && c.estimate(p) >= 1 && (c.carries(p) ==> c.decode(c.encode(p)) == Some(p))
  }

  /** The options of one multiplexer end that its ports depend on. */
  datatype Options = Options(frameSize: Option<nat>, exactCodec: bool, caps: set<Cap>, maxReassembled: nat)

  predicate OptionsOk(o: Options) {
    o.frameSize.Some? ==> o.frameSize.value >= 1
  }

  /** What waits in a port's window queue: a payload with its size, or this side's `end` (size 0). */
  datatype Item = Send(payload: Payload, bytes: nat) | EndItem

  function ItemSize(i: Item): nat {
    match i case Send(_, n) => n case EndItem => 0
  }

  /** A message still arriving in frames. */
  datatype Partial = Partial(chunks: seq<Bytes>, bytes: nat, room: Option<int>, charged: nat)

  /** A payload handed to the listeners whose promises have not settled. */
  datatype Held = Held(payload: Payload, size: nat)

  datatype Status = NotYet | Live | Dead

  /** What the handshake settles: who opened, and what each end may rely on. */
  datatype Deal = Deal(opener: bool, enforced: bool, exact: bool, caps: set<Cap>)

  /** The half-close: this side's `end` queued, sent, and the peer's read. */
  datatype Halves = Halves(ending: bool, endSent: bool, peerEnded: bool)

  /** A grant is due on a timer; timers already armed may be more. */
  datatype Clock = Clock(grantScheduled: bool, timers: nat)

  /**
   History: the payloads the consumer of this end posted while it could, those
   handed to its listeners, whether this end threw away something it had
   accepted for sending, and whether a close sent its queue past the window.
   */
  datatype Hist = Hist(posted: seq<Payload>, delivered: seq<Payload>, dropped: bool, spilled: bool)

  datatype Side = Side(
    status: Status, window: nat, deal: Deal,
    outstanding: nat, queue: seq<Item>, queued: nat,
    unsettled: seq<Held>, unconsumed: nat, toGrant: nat, clock: Clock,
    half: Halves, partial: Option<Partial>, outgoing: seq<Envelope>, hist: Hist)

  /** The new state of an end, and the envelopes it puts on the pipe, in order. */
  datatype Effect = Effect(side: Side, out: seq<Envelope>)

  function Fresh(status: Status, window: nat, opener: bool, exact: bool, caps: set<Cap>): Side {
    Side(status, window, Deal(opener, false, exact, caps), 0, [], 0, [], 0, 0, Clock(false, 0),
         Halves(false, false, false), None, [], Hist([], [], false, false))
  }

  function Size(c: Codec, exact: bool, p: Payload): nat {
    if exact then |c.encode(p)| else c.estimate(p)
  }

  // ----- leaving the table -----

  function Die(s: Side): Side {
    s.(status := Dead, partial := None, queue := [], queued := 0)
  }

  /** Something accepted for sending is thrown away. */
  function Lost(s: Side): Side {
    s.(hist := s.hist.(dropped := true))
  }

  function FreeIfEnded(s: Side): Side {
    if s.status == Live && s.half.endSent && s.half.peerEnded then Die(s) else s
  }

  /** A peer that broke the protocol: hold none of its traffic, and close. */
  function Fail(s: Side): Effect {
    Effect(Lost(Die(s)).(outgoing := []), [Close])
  }

  // ----- the sending half -----

  /** One item of the fair ring runs: an `end` of a port closed meanwhile is not sent. */
  function Emit(s: Side, e: Envelope): Effect {
    if e.End? then
      if s.status == Live then Effect(FreeIfEnded(s.(half := s.half.(endSent := true))), [End]) else Effect(s, [])
    else Effect(s, [e])
  }

  /** `sendOnPort`: at once without framing, else behind this port's earlier items. */
  function SendOnPort(o: Options, s: Side, e: Envelope): Effect {
    if o.frameSize.None? then Emit(s, e) else Effect(s.(outgoing := s.outgoing + [e]), [])
  }

  function SendAllOnPort(o: Options, s: Side, es: seq<Envelope>): Effect
    decreases |es|
  {
    if es == [] then Effect(s, [])
    else
      var first := SendOnPort(o, s, es[0]);
      var rest := SendAllOnPort(o, first.side, es[1..]);
      Effect(rest.side, first.out + rest.out)
  }

  /** The frames of an encoded message. */
  function Pieces(bytes: Bytes, frameSize: nat): seq<Envelope>
    requires frameSize >= 1
    decreases |bytes|
  {
    if |bytes| <= frameSize then [Frame(bytes, true)]
    else [Frame(bytes[..frameSize], false)] + Pieces(bytes[frameSize..], frameSize)
  }

  /** What one queued item puts on the port when it leaves; `whole` never frames. */
  function Leaving(o: Options, c: Codec, s: Side, i: Item, whole: bool): seq<Envelope>
    requires OptionsOk(o)
  {
    match i
    case EndItem => [End]
    case Send(p, n) =>
      if !whole && o.frameSize.Some? && s.deal.enforced && s.deal.exact && n > o.frameSize.value
      then Pieces(c.encode(p), o.frameSize.value)
      else [Message(p)]
  }

  predicate Blocked(s: Side, i: Item) {
    ItemSize(i) > 0 && s.deal.enforced && s.outstanding > 0 && s.outstanding + ItemSize(i) > s.window
  }

  predicate CanFlush(s: Side) {
    s.status == Live && s.queue != [] && !Blocked(s, s.queue[0])
  }

  /** One turn of `flush`: the head of the queue leaves. */
  function FlushOne(o: Options, c: Codec, s: Side): Effect
    requires OptionsOk(o) && CanFlush(s)
  {
    var i := s.queue[0];
    var t := s.(queue := s.queue[1..],
                queued := if ItemSize(i) <= s.queued then s.queued - ItemSize(i) else 0,
                outstanding := s.outstanding + ItemSize(i));
    SendAllOnPort(o, t, Leaving(o, c, t, i, false))
  }

  /** The consumer posts a payload (the queue is then flushed). */
  function PostPayload(c: Codec, s: Side, p: Payload): Effect {
    if s.status != Live || s.half.ending then Effect(s, [])
    else
      var t := s.(hist := s.hist.(posted := s.hist.posted + [p]));
      if s.window == 0 then Effect(t, [Message(p)])
      else
        var n := Size(c, s.deal.exact, p);
        Effect(t.(queue := s.queue + [Send(p, n)], queued := s.queued + n), [])
  }

  /** The consumer ends its direction (the queue is then flushed). */
  function EndDirection(s: Side): Side {
    if s.status != Live || s.window == 0 || HalfClose !in s.deal.caps || s.half.ending then s
    else s.(half := s.half.(ending := true), queue := s.queue + [EndItem])
  }

  /** `pump`, for this port's turn. */
  function PumpOne(s: Side): Effect
    requires s.outgoing != []
  {
    Emit(s.(outgoing := s.outgoing[1..]), s.outgoing[0])
  }

  /** Everything queued, whole, in the order it was posted. */
  function WholeItems(q: seq<Item>): seq<Envelope> {
    if q == [] then []
    else (match q[0] case EndItem => [End] case Send(p, _) => [Message(p)]) + WholeItems(q[1..])
  }

  /** A closing end leaves the table; what it still had queued goes out regardless of the window. */
  function Spill(s: Side): Side {
    Die(s).(hist := s.hist.(spilled := s.hist.spilled || s.queue != []))
  }

  /** The consumer closes the port: what is queued leaves past the window, then the close. */
  function CloseSide(o: Options, s: Side): Effect {
    if s.status != Live then Effect(s, [])
    else SendAllOnPort(o, Spill(s), WholeItems(s.queue) + [Close])
  }

  /** `onPort` refused the port: its close overtakes what the ring still holds. */
  function RejectSide(s: Side): Effect {
    if s.status != Live then Effect(s, []) else Effect(Lost(Die(s)), [Close])
  }

  /** The whole multiplexer closes. */
  function ShutdownSide(s: Side): Effect {
    if s.status == Live || s.outgoing != []
    then Effect(Lost(Die(s)).(outgoing := []), [Close])
    else Effect(s, [])
  }

  // ----- the receiving half -----

  function SendGrant(s: Side): Effect {
    var t := s.(clock := s.clock.(grantScheduled := false));
    if s.toGrant == 0 || s.status != Live then Effect(t, [])
    else Effect(t.(toGrant := 0), [Credit(s.toGrant, false, None)])
  }

  /** Consumed bytes go back: at once from a quarter of the window, else on a timer. */
  function Grant(s: Side, n: nat): Effect {
    var t := s.(unconsumed := if n <= s.unconsumed then s.unconsumed - n else 0, toGrant := s.toGrant + n);
    if 4 * t.toGrant >= t.window then SendGrant(t)
    else if t.clock.grantScheduled then Effect(t, [])
    else Effect(t.(clock := Clock(true, t.clock.timers + 1)), [])
  }

  /** The listeners of the i-th unsettled message settle. */
  function SettleOne(s: Side, i: nat): Effect
    requires i < |s.unsettled|
  {
    Grant(s.(unsettled := s.unsettled[..i] + s.unsettled[i + 1..]), s.unsettled[i].size)
  }

  function FireTimer(s: Side): Effect
    requires s.clock.timers > 0
  {
    SendGrant(s.(clock := s.clock.(timers := s.clock.timers - 1)))
  }

  /** A payload goes to the listeners; `partial` is what is left of a framed message. */
  function Deliver(s: Side, partial: Option<Partial>, p: Payload, n: nat): Side {
    s.(partial := partial, hist := s.hist.(delivered := s.hist.delivered + [p]),
       unsettled := if s.window == 0 then s.unsettled else s.unsettled + [Held(p, n)],
       unconsumed := if s.window == 0 then s.unconsumed else s.unconsumed + n)
  }

  /** The peer's `open`, for an id that is not in the table. `full`: the table is at `maxPorts`. */
  function Attach(o: Options, s: Side, e: Envelope, full: bool): Effect
    requires e.Open?
  {
    if full then Effect(s.(status := Dead), [Close])
    else
      var exact := e.exact && o.exactCodec;
      var listed := e.window > 0 && e.caps.Some?;
      var caps := if listed then o.caps * e.caps.value else {};
      var t := Fresh(Live, e.window, false, exact, caps)
               .(outgoing := s.outgoing, hist := s.hist);
      if e.window == 0 then Effect(t, [])
      else Effect(t, [Credit(0, exact, if listed then Some(caps) else None)])
  }

  function TakeCredit(o: Options, s: Side, e: Envelope): Effect
    requires e.Credit?
  {
    var ack := !s.deal.enforced && s.deal.opener;
    var downgrade := ack && s.deal.exact && !e.exact;
    var before := if downgrade then 0 else s.outstanding;
    var caps := if !ack then s.deal.caps else if e.caps.Some? then o.caps * e.caps.value else {};
    Effect(s.(deal := Deal(s.deal.opener, true, s.deal.exact && !downgrade, caps),
              outstanding := if e.bytes <= before then before - e.bytes else 0),
           if ack then [Credit(0, false, None)] else [])
  }

  /** What a frame finds: the message begun, or a new one with the room the window left. */
  function PartialOf(s: Side): Partial {
    if s.partial.Some? then s.partial.value
    else
      var owed := s.unconsumed + s.toGrant;
      Partial([], 0, if owed > 0 then Some(s.window - owed) else None, 0)
  }

  function Charge(s: Side, pt: Partial, n: nat): nat {
    if pt.room.Some? then 0 else Max(0, pt.bytes + n - s.window)
  }

  predicate PastRoom(pt: Partial, n: nat) {
    pt.room.Some? && pt.bytes + n > pt.room.value
  }

  /** `others`: the excess held by every other port's partial message. */
  function TakeFrame(o: Options, c: Codec, s: Side, e: Envelope, others: nat): Effect
    requires e.Frame?
  {
    var pt := PartialOf(s);
    var n := |e.data|;
    var charged := Charge(s, pt, n);
    if PastRoom(pt, n) || others + charged > o.maxReassembled then Fail(s)
    else
      var more := Partial(pt.chunks + [e.data], pt.bytes + n, pt.room, charged);
      if !e.last then Effect(s.(partial := Some(more)), [])
      else
        var whole := Flatten(more.chunks);
        match c.decode(whole)
        case None => Effect(s.(partial := None), [])
        case Some(p) => Effect(Deliver(s, None, p, |whole|), [])
  }

  /** One envelope of the peer. */
  function Handle(o: Options, c: Codec, s: Side, e: Envelope, full: bool, others: nat): Effect {
    match e
    case Open(_, _, _) => if s.status == Live then Effect(s, []) else Attach(o, s, e, full)
    case Credit(_, _, _) => if s.status == Live && s.window > 0 then TakeCredit(o, s, e) else Effect(s, [])
    case Message(p) =>
      if s.status != Live then Effect(s, [])
      else if s.half.peerEnded then Fail(s)
      else Effect(Deliver(s, s.partial, p, Size(c, s.deal.exact, p)), [])
    case Frame(_, _) =>
      if s.status != Live then Effect(s, [])
      else if s.half.peerEnded then Fail(s)
      else if s.window == 0 || !s.deal.exact || !o.exactCodec then Effect(s, [])
      else TakeFrame(o, c, s, e, others)
    case End =>
      if s.status != Live then Effect(s, [])
      else if s.window == 0 || HalfClose !in s.deal.caps then Fail(s)
      else Effect(FreeIfEnded(s.(half := s.half.(peerEnded := true))), [])
    case Close =>
      var t := s.(outgoing := []);
      Effect(if s.status == Live then Lost(Die(t)) else if s.outgoing != [] then Lost(t) else t, [])
  }
}
