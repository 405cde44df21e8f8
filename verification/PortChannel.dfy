/**
 One channel of a stream over a windowed port: what `sendChunks` posts, what
 `receiveChunks` makes of it, and why an honest sender is never called a violator.
 */
module PortChannel {
  import opened Basics
  import opened PortSide
  import opened PortWire
  import opened PortWorld
  import opened PortSendSteps
  import opened PortCloseSteps
  import opened PortReceiveSteps
  import opened PortRuns
  import opened PortTheorems
  import opened PortStreams

  /** What a payload is to one channel: an acknowledged chunk, a pipelined one, a confirmation, or nothing of it. */
  datatype Kind = Request | Chunk | Reply | Other

  /**
   `fromA`: the opener sends on the channel. `last`: a final chunk without an
   error. `bytes`: a chunk's value is bytes, or there is none.
   */
  datatype Channel = Channel(
    fromA: bool, kind: Payload -> Kind, last: Payload -> bool, bytes: Payload -> bool, cost: Payload -> nat)

  /** A chunk of another channel costs this one nothing; chunks of bytes are what the window must hold. */
  ghost predicate ChannelOk(k: Terms, ch: Channel) {
    && CostsCovered(k, ch.cost)
    && forall p :: if ch.kind(p).Chunk? && ch.bytes(p) then k.chunk(p) else ch.cost(p) == 0
  }

  /** `receiveChunks`: an unconfirmed chunk, bytes held, failed, the last chunk seen. */
  datatype Inbound = Inbound(listening: bool, outstanding: bool, held: nat, poison: bool, last: bool)

  function HearRequest(x: Inbound): Inbound {
    if !x.listening || x.poison then x
    else if x.held > 0 || x.outstanding then x.(poison := true)
    else x.(outstanding := true)
  }

  function HearChunk(x: Inbound, agreed: bool, bytes: bool, window: nat, size: nat): Inbound {
    if !x.listening || x.poison then x
    else if !agreed || x.outstanding || !bytes || x.held > window then x.(poison := true)
    else x.(held := x.held + size)
  }

  function HearPayload(ch: Channel, r: Side, x: Inbound, p: Payload): Inbound {
    var y := x.(last := x.last || ch.last(p));
    match ch.kind(p)
    case Request => HearRequest(y)
    case Chunk => HearChunk(y, Pipeline in r.deal.caps, ch.bytes(p), r.window, ch.cost(p))
    case _ => y
  }

  function HearEnd(x: Inbound): Inbound {
    if x.last then x else x.(poison := true)
  }

  /** The listeners of `receiveChunks`, updating its flags and counter in place. */
  class ChunkReceiver {
    var listening: bool
    var outstanding: bool
    var held: nat
    var poison: bool
    var lastChunkArrived: bool

    function State(): Inbound
      reads this
    {
      Inbound(listening, outstanding, held, poison, lastChunkArrived)
    }

    constructor ()
      ensures State() == Inbound(true, false, 0, false, false)
    {
      listening, outstanding, held, poison, lastChunkArrived := true, false, 0, false, false;
    }

    method Watch(channel: Channel, p: Payload)
      modifies this
      ensures State() == old(State()).(last := old(lastChunkArrived) || channel.last(p))
    {
      if channel.last(p) { lastChunkArrived := true; }
    }

    method OnRequest()
      modifies this
      ensures State() == HearRequest(old(State()))
    {
      if !listening || poison { return; }
      if held > 0 { poison := true; return; }
      if outstanding { poison := true; return; }
      outstanding := true;
    }

    method OnChunk(agreed: bool, bytes: bool, window: nat, size: nat)
      modifies this
      ensures State() == HearChunk(old(State()), agreed, bytes, window, size)
    {
      if !listening || poison { return; }
      if !agreed { poison := true; return; }
      if outstanding { poison := true; return; }
      if !bytes { poison := true; return; }
      if held > window { poison := true; return; }
      held := held + size;
    }

    method OnMessage(channel: Channel, r: Side, p: Payload)
      modifies this
      ensures State() == HearPayload(channel, r, old(State()), p)
    {
      Watch(channel, p);
      match channel.kind(p) {
        case Request => OnRequest();
        case Chunk => OnChunk(Pipeline in r.deal.caps, channel.bytes(p), r.window, channel.cost(p));
        case _ =>
      }
    }

    method OnPeerEnd()
      modifies this
      ensures State() == HearEnd(old(State()))
    {
      if !lastChunkArrived { poison := true; }
    }
  }

  // ----- the two ends of a channel, over the port -----

  datatype Stream = Stream(w: World, x: Inbound)

  /** The port's steps, and those of the stream's consumer. */
  datatype Move = Port(byA: bool, act: Act) | Pull(size: nat) | Confirm | Detach

  function Count(ch: Channel, kind: Kind, ps: seq<Payload>): nat {
    if ps == [] then 0 else (if ch.kind(ps[|ps| - 1]) == kind then 1 else 0) + Count(ch, kind, ps[..|ps| - 1])
  }

  /** `mayPipeline` at the sender. */
  predicate Pipelines(s: Side) { s.deal.enforced && Pipeline in s.deal.caps }

  /** Every acknowledged chunk this end posted was confirmed to it. */
  predicate AllConfirmed(ch: Channel, s: Side) {
    Count(ch, Request, s.hist.posted) <= Count(ch, Reply, s.hist.delivered)
  }

  /** `whenPortReady`: the sender waits behind each chunk until the queue it joined has left. */
  predicate NoneQueued(ch: Channel, s: Side) {
    forall i :: 0 <= i < |s.queue| && s.queue[i].Send? ==> !ch.kind(s.queue[i].payload).Chunk?
  }

  /** What `sendChunks` posts at one end, and `listenPort` at the other. */
  predicate MayPost(ch: Channel, st: Stream, byA: bool, p: Payload) {
    var me := EndOf(st.w, byA);
    match ch.kind(p)
    case Request => byA == ch.fromA && !Pipelines(me) && AllConfirmed(ch, me)
    case Chunk => byA == ch.fromA && Pipelines(me) && AllConfirmed(ch, me) && ch.bytes(p) && NoneQueued(ch, me)
    case Reply =>
      && byA != ch.fromA && (st.x.outstanding ==> st.x.poison)
      && Count(ch, Reply, me.hist.posted) < Count(ch, Request, me.hist.delivered)
    case Other => true
  }

  ghost predicate SawLast(ch: Channel, ps: seq<Payload>) {
    exists p :: p in ps && ch.last(p)
  }

  /** A chunk's listener settles, giving its credit back, after `held` gave its bytes back. */
  predicate MaySettle(k: Terms, ch: Channel, st: Stream, i: nat) {
    var me := EndOf(st.w, !ch.fromA);
    i < |me.unsettled| && k.chunk(me.unsettled[i].payload) ==>
      st.x.held + ch.cost(me.unsettled[i].payload) <= HeldChunks(k, ch.cost, me.unsettled)
  }

  ghost predicate MayMove(k: Terms, ch: Channel, st: Stream, mv: Move) {
    match mv
    case Port(byA, act) =>
      && Can(k, st.w, byA, act)
      && (act.Post? ==> MayPost(ch, st, byA, act.payload))
      && (act.Settle? && byA != ch.fromA ==> MaySettle(k, ch, st, act.i))
      && (act.EndDir? && byA == ch.fromA ==> SawLast(ch, EndOf(st.w, byA).hist.posted))
    case Pull(n) => n <= st.x.held
    case _ => true
  }

  function Heard(ch: Channel, r: Side, r': Side, x: Inbound): Inbound {
    if |r'.hist.delivered| > |r.hist.delivered| then HearPayload(ch, r, x, r'.hist.delivered[|r'.hist.delivered| - 1])
    else if r'.half.peerEnded && !r.half.peerEnded then HearEnd(x)
    else x
  }

  function Moved(k: Terms, ch: Channel, st: Stream, mv: Move): Stream
    requires OptionsOk(k.oa) && OptionsOk(k.ob) && (mv.Port? ==> Can(k, st.w, mv.byA, mv.act))
  {
    match mv
    case Port(byA, act) =>
      var w' := Step(k, st.w, byA, act);
      Stream(w', if byA == ch.fromA then st.x else Heard(ch, EndOf(st.w, byA), EndOf(w', byA), st.x))
    case Pull(n) => Stream(st.w, st.x.(held := if n <= st.x.held then st.x.held - n else 0))
    case Confirm => Stream(st.w, st.x.(outstanding := false))
    case Detach => Stream(st.w, st.x.(listening := false))
  }

  // ----- what the moves keep -----

  /** Both ends' history says the same of the channel. */
  ghost predicate Paced(k: Terms, ch: Channel, s: Side, r: Side) {
    && Count(ch, Reply, r.hist.posted) <= Count(ch, Request, r.hist.delivered)
    && (forall i :: 0 <= i < |s.hist.posted| && !Plain(ch, s.hist.posted[i]) ==>
          Count(ch, Request, s.hist.posted[..i]) <= Count(ch, Reply, s.hist.delivered))
    && (forall i :: 0 <= i < |s.hist.posted| && ch.kind(s.hist.posted[i]).Chunk? ==>
          s.deal.enforced && Pipeline in Shared(k) && ch.bytes(s.hist.posted[i]))
    && (forall i, j :: 0 <= i < j < |s.hist.posted| && ch.kind(s.hist.posted[i]).Chunk? ==> !ch.kind(s.hist.posted[j]).Request?)
    && (s.half.ending ==> SawLast(ch, s.hist.posted))
  }

  predicate Plain(ch: Channel, p: Payload) { !ch.kind(p).Request? && !ch.kind(p).Chunk? }

  /** The receiver's flags agree with what it was delivered. */
  ghost predicate Tracked(k: Terms, ch: Channel, s: Side, r: Side, x: Inbound) {
    && (x.outstanding && !x.poison ==> Count(ch, Reply, r.hist.posted) < Count(ch, Request, r.hist.delivered))
    && x.held <= HeldChunks(k, ch.cost, r.unsettled)
    && (x.held > 0 ==> exists i :: 0 <= i < |r.hist.delivered| && ch.kind(r.hist.delivered[i]).Chunk?)
    && (SawLast(ch, r.hist.delivered) ==> x.last)
    && (x.poison ==> s.hist.spilled)
  }

  ghost predicate Disciplined(k: Terms, ch: Channel, st: Stream) {
    && Paced(k, ch, EndOf(st.w, ch.fromA), EndOf(st.w, !ch.fromA))
    && Tracked(k, ch, EndOf(st.w, ch.fromA), EndOf(st.w, !ch.fromA), st.x)
  }

  lemma {:induction false} CountPrefix(ch: Channel, kind: Kind, a: seq<Payload>, b: seq<Payload>)
    requires a <= b
    ensures Count(ch, kind, a) <= Count(ch, kind, b)
    decreases |b|
  {
    if a != b {
      CountPrefix(ch, kind, a, b[..|b| - 1]);
    }
  }

  lemma CountSnoc(ch: Channel, kind: Kind, a: seq<Payload>, p: Payload)
    ensures Count(ch, kind, a + [p]) == Count(ch, kind, a) + (if ch.kind(p) == kind then 1 else 0)
  {
    assert (a + [p])[..|a|] == a;
  }

  // ----- what one step of the port does to the histories -----

  predicate SameBooks(s: Side, t: Side) {
    && t.hist.posted == s.hist.posted && t.hist.delivered == s.hist.delivered
    && t.unsettled == s.unsettled && t.deal == s.deal && t.half.ending == s.half.ending
    && (s.hist.spilled ==> t.hist.spilled)
  }

  lemma {:induction false} SendAllBooks(o: Options, s: Side, es: seq<Envelope>)
    ensures SameBooks(s, SendAllOnPort(o, s, es).side)
    decreases |es|
  {
    if es != [] {
      SendAllBooks(o, SendOnPort(o, s, es[0]).side, es[1..]);
    }
  }

  lemma FlushBooks(o: Options, c: Codec, s: Side)
    requires OptionsOk(o) && CanFlush(s)
    ensures SameBooks(s, FlushOne(o, c, s).side)
  {
    var i := s.queue[0];
    var t := s.(queue := s.queue[1..], queued := if ItemSize(i) <= s.queued then s.queued - ItemSize(i) else 0,
                outstanding := s.outstanding + ItemSize(i));
    hide Leaving, SendAllOnPort;
    SendAllBooks(o, t, Leaving(o, c, t, i, false));
  }

  /** Every step but posting, ending, settling and hearing the peer leaves the books alone. */
  lemma QuietBooks(k: Terms, o: Options, s: Side, inbox: seq<Envelope>, act: Act)
    requires OptionsOk(o) && Enabled(k, o, s, inbox, act)
    requires !act.Post? && !act.Settle? && !act.Recv? && !act.EndDir?
    ensures SameBooks(s, Perform(k, o, s, inbox, act).side)
  {
    match act
    case Flush => FlushBooks(o, k.codec, s);
    case CloseIt => if s.status == Live { SendAllBooks(o, Spill(s), WholeItems(s.queue) + [Close]); }
    case _ =>
  }

  lemma SettleBooks(s: Side, i: nat)
    requires i < |s.unsettled|
    ensures SameBooks(s.(unsettled := s.unsettled[..i] + s.unsettled[i + 1..]), SettleOne(s, i).side)
  {
  }

  /** What hearing an envelope adds to the receiver's books. */
  predicate HeardBooks(k: Terms, s: Side, e: Envelope, t: Side) {
    && t.hist.posted == s.hist.posted && t.half.ending == s.half.ending
    && (s.deal.enforced ==> t.deal.enforced)
    && (s.hist.spilled ==> t.hist.spilled)
    && match Arriving(k, s, e)
       case Some(p) =>
         || (t.hist.delivered == s.hist.delivered && t.unsettled == s.unsettled)
         || (s.status == Live && t.hist.delivered == s.hist.delivered + [p]
             && |t.unsettled| == |s.unsettled| + 1 && t.unsettled[..|s.unsettled|] == s.unsettled && t.unsettled[|s.unsettled|].payload == p)
       case None => t.hist.delivered == s.hist.delivered && t.unsettled == s.unsettled
  }

  lemma RecvBooks(k: Terms, o: Options, s: Side, e: Envelope, full: bool, others: nat)
    requires s.status == Live ==> s.window > 0
    requires s.status == NotYet ==> s == Fresh(NotYet, 0, false, false, {})
    requires e.Open? ==> s.status == NotYet
    ensures HeardBooks(k, s, e, Handle(o, k.codec, s, e, full, others).side)
    ensures Handle(o, k.codec, s, e, full, others).side.hist.delivered != s.hist.delivered ==>
              Handle(o, k.codec, s, e, full, others).side.half == s.half
  {
    if e.Frame? {
      FlattenSnoc(PartialOf(s).chunks, e.data);
      assert Flatten(PartialOf(s).chunks) == BufOf(s);
    }
    hide Charge, PastRoom, Flatten, Size;
  }

  // ----- an honest sender is never called a violator -----

  /** Order alone: what arrives next finds no chunk unconfirmed, and never mixes the two ways of sending. */
  lemma NextInOrder(k: Terms, ch: Channel, s: Side, r: Side, x: Inbound, p: Payload)
    requires Paced(k, ch, s, r) && Tracked(k, ch, s, r, x) && !x.poison
    requires r.hist.delivered + [p] <= s.hist.posted && s.hist.delivered <= r.hist.posted
    ensures ch.kind(p).Request? ==> !x.outstanding && x.held == 0
    ensures ch.kind(p).Chunk? ==> !x.outstanding && Pipeline in Shared(k) && ch.bytes(p)
  {
    var i := |r.hist.delivered|;
    assert s.hist.posted[..i] == r.hist.delivered;
    assert s.hist.posted[i] == p;
    CountPrefix(ch, Reply, s.hist.delivered, r.hist.posted);
    if ch.kind(p).Request? {
      forall j | 0 <= j < i ensures !ch.kind(r.hist.delivered[j]).Chunk? {
        assert s.hist.posted[j] == r.hist.delivered[j];
      }
    }
  }

  /** The agreement an end goes by when the peer's traffic reaches it. */
  lemma AgreedOnArrival(k: Terms, w: World, isA: bool)
    requires TermsOk(k) && Inv(k, w) && EndOf(w, isA).status == Live
    requires InboxOf(w, isA) != [] && Traffic(InboxOf(w, isA)[0])
    ensures EndOf(w, isA).deal.caps == Shared(k) && EndOf(w, isA).window == k.window
  {
    ViewOf(k, w, isA);
    hide Dir, View, CodecOk, Handshake, Hears;
    if isA {
      HearsReady(k, true, w.a, w.ba);
    } else {
      HearsReady(k, false, w.b, w.ab);
    }
  }

  /** Unless the sender's close sent its queue past the window, nothing it sent is taken for a violation. */
  lemma NothingViolates(k: Terms, ch: Channel, st: Stream, p: Payload)
    requires TermsOk(k) && ChannelOk(k, ch) && Agreed(k) && Inv(k, st.w) && Holding(k, ch.cost, st.w) && Disciplined(k, ch, st)
    requires var s, r := EndOf(st.w, ch.fromA), EndOf(st.w, !ch.fromA);
             && !s.hist.spilled && r.status == Live && InboxOf(st.w, !ch.fromA) != []
             && Arriving(k, r, InboxOf(st.w, !ch.fromA)[0]) == Some(p)
             && r.hist.delivered + [p] <= s.hist.posted && s.hist.delivered <= r.hist.posted
    ensures !HearPayload(ch, EndOf(st.w, !ch.fromA), st.x, p).poison
  {
    var s, r := EndOf(st.w, ch.fromA), EndOf(st.w, !ch.fromA);
    NextInOrder(k, ch, s, r, st.x, p);
    AgreedOnArrival(k, st.w, !ch.fromA);
    if ch.kind(p).Chunk? {
      hide Inv, Holding, CodecOk, CostsCovered, HeldChunks, Paced;
      ChunkHasRoom(k, ch.cost, st.w, !ch.fromA);
    }
  }

  // ----- every move keeps the discipline -----

  lemma SawLastGrows(ch: Channel, a: seq<Payload>, b: seq<Payload>)
    requires a <= b && SawLast(ch, a)
    ensures SawLast(ch, b)
  {
    var p :| p in a && ch.last(p);
    assert p in b;
  }

  lemma SenderPosts(k: Terms, ch: Channel, s: Side, r: Side, p: Payload)
    requires Paced(k, ch, s, r)
    requires ch.kind(p).Request? ==> !Pipelines(s) && AllConfirmed(ch, s)
    requires ch.kind(p).Chunk? ==> Pipelines(s) && AllConfirmed(ch, s) && ch.bytes(p)
    requires s.deal.enforced ==> s.deal.caps == Shared(k)
    ensures Paced(k, ch, s.(hist := s.hist.(posted := s.hist.posted + [p])), r)
  {
    var t := s.(hist := s.hist.(posted := s.hist.posted + [p]));
    var n := |s.hist.posted|;
    assert t.hist.posted[..n] == s.hist.posted;
    forall i | 0 <= i < |t.hist.posted| && !Plain(ch, t.hist.posted[i])
      ensures Count(ch, Request, t.hist.posted[..i]) <= Count(ch, Reply, t.hist.delivered)
    {
      if i < n { assert t.hist.posted[..i] == s.hist.posted[..i]; }
    }
    if s.half.ending { SawLastGrows(ch, s.hist.posted, t.hist.posted); }
  }

  lemma SenderHears(k: Terms, ch: Channel, s: Side, t: Side, r: Side)
    requires Paced(k, ch, s, r) && s.hist.delivered <= t.hist.delivered && t.hist.posted == s.hist.posted
    requires (s.deal.enforced ==> t.deal.enforced) && t.half.ending == s.half.ending
    ensures Paced(k, ch, t, r)
  {
    CountPrefix(ch, Reply, s.hist.delivered, t.hist.delivered);
  }

  /** What an end's step does to its books: `t` is what it leaves. */
  predicate BooksAfter(k: Terms, s: Side, inbox: seq<Envelope>, act: Act, t: Side) {
    match act
    case Recv(_, _) => inbox != [] && HeardBooks(k, s, inbox[0], t) && (t.hist.delivered != s.hist.delivered ==> t.half == s.half)
    case Settle(i) => i < |s.unsettled| && SameBooks(s.(unsettled := s.unsettled[..i] + s.unsettled[i + 1..]), t)
    case Post(p) =>
      SameBooks(if s.status == Live && !s.half.ending then s.(hist := s.hist.(posted := s.hist.posted + [p])) else s, t)
    case EndDir => SameBooks(s.(half := s.half.(ending := t.half.ending)), t)
    case _ => SameBooks(s, t)
  }

  lemma StepBooks(k: Terms, o: Options, s: Side, inbox: seq<Envelope>, act: Act)
    requires TermsOk(k) && OptionsOk(o) && Enabled(k, o, s, inbox, act)
    requires s.status == Live ==> s.window > 0
    requires s.status == NotYet ==> s == Fresh(NotYet, 0, false, false, {})
    requires act.Recv? && inbox[0].Open? ==> s.status == NotYet
    ensures BooksAfter(k, s, inbox, act, Perform(k, o, s, inbox, act).side)
  {
    hide CodecOk, HeardBooks;
    match act
    case Recv(full, others) => RecvBooks(k, o, s, inbox[0], full, others);
    case Post(_) =>
    case EndDir =>
    case Settle(i) => SettleBooks(s, i);
    case _ => QuietBooks(k, o, s, inbox, act);
  }

  /** What the invariant says of an end before its step. */
  lemma EndBefore(k: Terms, w: World, isA: bool)
    requires TermsOk(k) && Inv(k, w)
    ensures var s, inbox := EndOf(w, isA), InboxOf(w, isA);
            && (s.status == Live ==> s.window == k.window && k.window > 0 && (s.deal.enforced ==> s.deal.caps == Shared(k)))
            && (s.status == NotYet ==> s == Fresh(NotYet, 0, false, false, {}))
            && (s.status == Dead ==> s.queue == [])
            && (inbox != [] && inbox[0].Open? ==> s.status == NotYet)
  {
    hide Dir, QueueOk, CodecOk;
  }

  lemma SenderStep(k: Terms, ch: Channel, st: Stream, act: Act)
    requires TermsOk(k) && Inv(k, st.w) && Disciplined(k, ch, st) && MayMove(k, ch, st, Port(ch.fromA, act))
    ensures Disciplined(k, ch, Moved(k, ch, st, Port(ch.fromA, act)))
  {
    var o, s, inbox := OptionsOf(k, ch.fromA), EndOf(st.w, ch.fromA), InboxOf(st.w, ch.fromA);
    var r := EndOf(st.w, !ch.fromA);
    EndBefore(k, st.w, ch.fromA);
    StepBooks(k, o, s, inbox, act);
    var t := Perform(k, o, s, inbox, act).side;
    SenderKeeps(k, ch, st, s, r, inbox, act, t);
    hide Inv, Perform, CodecOk, Paced, Tracked;
    assert EndOf(Step(k, st.w, ch.fromA, act), ch.fromA) == t;
    assert EndOf(Step(k, st.w, ch.fromA, act), !ch.fromA) == r;
  }

  lemma SenderKeeps(k: Terms, ch: Channel, st: Stream, s: Side, r: Side, inbox: seq<Envelope>, act: Act, t: Side)
    requires s == EndOf(st.w, ch.fromA) && Paced(k, ch, s, r) && Tracked(k, ch, s, r, st.x)
    requires BooksAfter(k, s, inbox, act, t)
    requires act.Post? ==> MayPost(ch, st, ch.fromA, act.payload)
    requires act.EndDir? ==> SawLast(ch, s.hist.posted)
    requires s.status == Live && s.deal.enforced ==> s.deal.caps == Shared(k)
    ensures Paced(k, ch, t, r) && Tracked(k, ch, t, r, st.x)
  {
    if act.Post? && s.status == Live && !s.half.ending {
      SenderPosts(k, ch, s, r, act.payload);
    } else if act.Recv? {
      SenderHears(k, ch, s, t, r);
    }
  }

  lemma ReceiverPosts(k: Terms, ch: Channel, st: Stream, s: Side, r: Side, p: Payload)
    requires r == EndOf(st.w, !ch.fromA) && Paced(k, ch, s, r) && Tracked(k, ch, s, r, st.x)
    requires MayPost(ch, st, !ch.fromA, p)
    ensures var t := r.(hist := r.hist.(posted := r.hist.posted + [p])); Paced(k, ch, s, t) && Tracked(k, ch, s, t, st.x)
  {
    CountSnoc(ch, Reply, r.hist.posted, p);
  }

  lemma ReceiverSettles(k: Terms, ch: Channel, st: Stream, s: Side, r: Side, i: nat)
    requires r == EndOf(st.w, !ch.fromA) && Paced(k, ch, s, r) && Tracked(k, ch, s, r, st.x)
    requires i < |r.unsettled| && MaySettle(k, ch, st, i)
    ensures var t := r.(unsettled := r.unsettled[..i] + r.unsettled[i + 1..]); Paced(k, ch, s, t) && Tracked(k, ch, s, t, st.x)
  {
    HeldChunksRemove(k, ch.cost, r.unsettled, i);
  }

  lemma {:induction false} HeldChunksRemove(k: Terms, cost: Payload -> nat, h: seq<Held>, i: nat)
    requires i < |h|
    ensures HeldChunks(k, cost, h) == HeldChunks(k, cost, h[..i] + h[i + 1..]) + (if k.chunk(h[i].payload) then cost(h[i].payload) else 0)
  {
    var rest := h[..i] + h[i + 1..];
    if i == 0 {
      assert rest == h[1..];
    } else {
      assert rest[1..] == h[1..][..i - 1] + h[1..][i..];
      HeldChunksRemove(k, cost, h[1..], i - 1);
    }
  }

  lemma HeldChunksSnoc(k: Terms, cost: Payload -> nat, h: seq<Held>, h': seq<Held>)
    requires |h'| == |h| + 1 && h'[..|h|] == h
    ensures HeldChunks(k, cost, h') == HeldChunks(k, cost, h) + (if k.chunk(h'[|h|].payload) then cost(h'[|h|].payload) else 0)
  {
    HeldChunksRemove(k, cost, h', |h|);
    assert h'[..|h|] + h'[|h| + 1..] == h;
  }

  /** A payload arrives that is not taken for a violation (or its sender's close spilled its queue). */
  lemma ReceiverHears(k: Terms, ch: Channel, s: Side, r: Side, t: Side, x: Inbound, p: Payload)
    requires ChannelOk(k, ch) && Paced(k, ch, s, r) && Tracked(k, ch, s, r, x)
    requires t.hist.posted == r.hist.posted && t.hist.delivered == r.hist.delivered + [p]
    requires |t.unsettled| == |r.unsettled| + 1 && t.unsettled[..|r.unsettled|] == r.unsettled && t.unsettled[|r.unsettled|].payload == p
    requires HearPayload(ch, r, x, p).poison ==> s.hist.spilled
    ensures Paced(k, ch, s, t) && Tracked(k, ch, s, t, HearPayload(ch, r, x, p))
  {
    CountSnoc(ch, Request, r.hist.delivered, p);
    HeldChunksSnoc(k, ch.cost, r.unsettled, t.unsettled);
    var y := HearPayload(ch, r, x, p);
    if SawLast(ch, t.hist.delivered) && !ch.last(p) {
      var q :| q in t.hist.delivered && ch.last(q);
      assert q in r.hist.delivered;
    }
    if y.held > 0 {
      if x.held > 0 {
        var i :| 0 <= i < |r.hist.delivered| && ch.kind(r.hist.delivered[i]).Chunk?;
        assert t.hist.delivered[i] == r.hist.delivered[i];
      } else {
        assert ch.kind(t.hist.delivered[|r.hist.delivered|]).Chunk?;
      }
    }
    hide CostsCovered, HeldChunks, Count;
  }

  lemma ReceiverKeeps(k: Terms, ch: Channel, st: Stream, s: Side, r: Side, inbox: seq<Envelope>, act: Act, t: Side)
    requires ChannelOk(k, ch)
    requires r == EndOf(st.w, !ch.fromA) && Paced(k, ch, s, r) && Tracked(k, ch, s, r, st.x)
    requires BooksAfter(k, r, inbox, act, t)
    requires act.Post? ==> MayPost(ch, st, !ch.fromA, act.payload)
    requires act.Settle? ==> MaySettle(k, ch, st, act.i)
    requires !act.Recv? ==> t.half.peerEnded == r.half.peerEnded
    requires forall p :: t.hist.delivered == r.hist.delivered + [p] ==> HearPayload(ch, r, st.x, p).poison ==> s.hist.spilled
    requires t.half.peerEnded && !r.half.peerEnded ==> t.hist.delivered == s.hist.posted && s.half.ending
    ensures Paced(k, ch, s, t) && Tracked(k, ch, s, t, Heard(ch, r, t, st.x))
  {
    match act {
      case Post(p) => if r.status == Live && !r.half.ending { ReceiverPosts(k, ch, st, s, r, p); }
      case Settle(i) => ReceiverSettles(k, ch, st, s, r, i);
      case Recv(_, _) =>
        match Arriving(k, r, inbox[0]) {
          case Some(p) => if t.hist.delivered != r.hist.delivered { ReceiverHears(k, ch, s, r, t, st.x, p); }
          case None =>
        }
      case _ =>
    }
  }

  lemma PeerEndHeard(k: Terms, o: Options, s: Side, inbox: seq<Envelope>, act: Act)
    requires OptionsOk(o) && Enabled(k, o, s, inbox, act) && !act.Recv?
    ensures Perform(k, o, s, inbox, act).side.half.peerEnded == s.half.peerEnded
  {
    match act
    case Flush => FlushSendsOnly(o, k.codec, s);
    case CloseIt => if s.status == Live { SendAllSendsOnly(o, Spill(s), WholeItems(s.queue) + [Close]); }
    case _ =>
  }

  /** The invariant about one direction, as the channel's two ends see it. */
  lemma ChannelFacts(k: Terms, w: World, fromA: bool)
    requires TermsOk(k) && Inv(k, w)
    ensures var s, r := EndOf(w, fromA), EndOf(w, !fromA);
            && r.hist.delivered <= s.hist.posted && s.hist.delivered <= r.hist.posted
            && (r.half.peerEnded ==> r.hist.delivered == s.hist.posted && s.half.ending)
            && (s.status == NotYet ==> s.hist.posted == [])
  {
    hide Feed, Data, Ledger, Room, Life, CodecOk, Ordered, Quiet, QueueOk;
  }

  lemma ReceiverStep(k: Terms, ch: Channel, st: Stream, act: Act)
    requires TermsOk(k) && ChannelOk(k, ch) && Agreed(k) && Inv(k, st.w) && Holding(k, ch.cost, st.w)
    requires Disciplined(k, ch, st) && MayMove(k, ch, st, Port(!ch.fromA, act))
    ensures Disciplined(k, ch, Moved(k, ch, st, Port(!ch.fromA, act)))
  {
    var byA := !ch.fromA;
    var o, r, inbox, s := OptionsOf(k, byA), EndOf(st.w, byA), InboxOf(st.w, byA), EndOf(st.w, ch.fromA);
    var w' := Step(k, st.w, byA, act);
    var t := Perform(k, o, r, inbox, act).side;
    assert EndOf(w', byA) == t && EndOf(w', ch.fromA) == s;
    EndBefore(k, st.w, byA);
    StepBooks(k, o, r, inbox, act);
    if !act.Recv? { PeerEndHeard(k, o, r, inbox, act); }
    StepKeeps(k, st.w, byA, act);
    ChannelFacts(k, st.w, ch.fromA);
    ChannelFacts(k, w', ch.fromA);
    hide Inv, Perform, CodecOk, Paced, Tracked, Step, Holding, ChannelOk;
    forall p | t.hist.delivered == r.hist.delivered + [p]
      ensures HearPayload(ch, r, st.x, p).poison ==> s.hist.spilled
    {
      ArrivalFine(k, ch, st, act, t, p);
    }
    ReceiverKeeps(k, ch, st, s, r, inbox, act, t);
  }

  lemma ArrivalFine(k: Terms, ch: Channel, st: Stream, act: Act, t: Side, p: Payload)
    requires var s, r := EndOf(st.w, ch.fromA), EndOf(st.w, !ch.fromA);
             && BooksAfter(k, r, InboxOf(st.w, !ch.fromA), act, t)
             && t.hist.delivered == r.hist.delivered + [p] && t.hist.delivered <= s.hist.posted && s.hist.delivered <= r.hist.posted
    requires TermsOk(k) && ChannelOk(k, ch) && Agreed(k) && Inv(k, st.w) && Holding(k, ch.cost, st.w) && Disciplined(k, ch, st)
    ensures HearPayload(ch, EndOf(st.w, !ch.fromA), st.x, p).poison ==> EndOf(st.w, ch.fromA).hist.spilled
  {
    hide Inv, Holding, CodecOk, ChannelOk, HearPayload;
    var r := EndOf(st.w, !ch.fromA);
    assert t.hist.delivered[|r.hist.delivered|] == p;
    if !EndOf(st.w, ch.fromA).hist.spilled {
      assert !st.x.poison;
      hide Disciplined, Arriving;
      NothingViolates(k, ch, st, p);
    }
  }

  // ----- over every run -----

  ghost predicate StreamInv(k: Terms, ch: Channel, st: Stream) {
    Inv(k, st.w) && Holding(k, ch.cost, st.w) && Disciplined(k, ch, st) && SpillOk(st.w.a) && SpillOk(st.w.b)
  }

  lemma MoveKeeps(k: Terms, ch: Channel, st: Stream, mv: Move)
    requires TermsOk(k) && ChannelOk(k, ch) && Agreed(k) && StreamInv(k, ch, st) && MayMove(k, ch, st, mv)
    ensures StreamInv(k, ch, Moved(k, ch, st, mv))
  {
    if mv.Port? {
      StepKeeps(k, st.w, mv.byA, mv.act);
      StepKeepsHolding(k, ch.cost, st.w, mv.byA, mv.act);
      SpillKept(k, st.w, mv.byA, mv.act);
      hide SpillOk, Inv, Holding, Disciplined, CodecOk, Step;
      if mv.byA == ch.fromA { SenderStep(k, ch, st, mv.act); } else { ReceiverStep(k, ch, st, mv.act); }
    } else {
      hide Inv, Holding, Paced, CodecOk;
    }
  }

  ghost predicate IsStreamRun(k: Terms, ch: Channel, st: Stream, moves: seq<Move>, st': Stream)
    requires TermsOk(k)
    decreases |moves|
  {
    if moves == [] then st == st'
    else MayMove(k, ch, st, moves[0]) && IsStreamRun(k, ch, Moved(k, ch, st, moves[0]), moves[1..], st')
  }

  lemma {:induction false} StreamRunKeeps(k: Terms, ch: Channel, st: Stream, moves: seq<Move>, st': Stream)
    requires TermsOk(k) && ChannelOk(k, ch) && Agreed(k) && StreamInv(k, ch, st) && IsStreamRun(k, ch, st, moves, st')
    ensures StreamInv(k, ch, st')
    decreases |moves|
  {
    if moves != [] {
      MoveKeeps(k, ch, st, moves[0]);
      StreamRunKeeps(k, ch, Moved(k, ch, st, moves[0]), moves[1..], st');
    }
  }

  function StreamInit(k: Terms): Stream {
    Stream(Init(k), Inbound(true, false, 0, false, false))
  }

  /**
   Over every run of a stream whose sender follows `sendChunks`, the receiver
   calls it a violator (mixed, unconfirmed, unagreed, past the window or ended
   unfinished) only if the sender's close sent a queue past the window. A sender
   that ended its direction never did, however much of it is still in flight.
   */
  lemma HonestSenderNeverViolates(k: Terms, ch: Channel, moves: seq<Move>, st: Stream)
    requires TermsOk(k) && ChannelOk(k, ch) && Agreed(k) && IsStreamRun(k, ch, StreamInit(k), moves, st)
    ensures st.x.poison ==> EndOf(st.w, ch.fromA).hist.spilled && EndOf(st.w, ch.fromA).status == Dead
    ensures EndOf(st.w, ch.fromA).half.endSent ==> !st.x.poison
    ensures st.x.held <= HeldChunks(k, ch.cost, EndOf(st.w, !ch.fromA).unsettled)
  {
    InitInv(k);
    assert StreamInv(k, ch, StreamInit(k));
    StreamRunKeeps(k, ch, StreamInit(k), moves, st);
    hide Inv, Holding, CodecOk, CostsCovered, Paced, HeldChunks, IsStreamRun;
  }
}
