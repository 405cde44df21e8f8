/**
 When a sender of chunks that follows the rules is refused all the same: only
 behind a close, and only where a chunk costs more than the whole window.
 */
module PortRefused {
  import opened Basics
  import opened PortSide
  import opened PortWire
  import opened PortWorld
  import opened PortSendSteps
  import opened PortCloseSteps
  import opened PortReceiveSteps
  import opened PortRuns
  import opened PortTheorems
  import opened PortStreams
  import opened PortChannel

  /** A chunk of the channel that the receiver counts. */
  predicate IsChunk(ch: Channel, p: Payload) { ch.kind(p).Chunk? && ch.bytes(p) }

  /** A message its sender cuts into frames. */
  predicate Cut(k: Terms, fromA: bool, p: Payload) {
    var o := OptionsOf(k, fromA);
    o.frameSize.Some? && Mode(k) && |k.codec.encode(p)| > o.frameSize.value
  }

  /** The receiver's cap on reassembled bytes lets it through. */
  predicate Crosses(k: Terms, fromA: bool, p: Payload) {
    Cut(k, fromA, p) ==> |k.codec.encode(p)| <= k.window + OptionsOf(k, !fromA).maxReassembled
  }

  /** A chunk that costs more than the window. */
  predicate Wide(k: Terms, ch: Channel, p: Payload) {
    k.codec.carries(p) && IsChunk(ch, p) && ch.cost(p) > k.window && Crosses(k, ch.fromA, p)
  }

  // ----- what narrow chunks cost together -----

  /** The cost of the payloads that cost no more than the window. */
  function Narrow(k: Terms, ch: Channel, ps: seq<Payload>): nat {
    if ps == [] then 0 else (if ch.cost(ps[0]) <= k.window then ch.cost(ps[0]) else 0) + Narrow(k, ch, ps[1..])
  }

  lemma {:induction false} NarrowAppend(k: Terms, ch: Channel, x: seq<Payload>, y: seq<Payload>)
    ensures Narrow(k, ch, x + y) == Narrow(k, ch, x) + Narrow(k, ch, y)
  {
    if x == [] {
      assert x + y == y;
    } else {
      assert (x + y)[1..] == x[1..] + y;
      NarrowAppend(k, ch, x[1..], y);
    }
  }

  lemma NarrowPrefix(k: Terms, ch: Channel, ps: seq<Payload>, i: nat)
    requires i <= |ps|
    ensures Narrow(k, ch, ps[..i]) <= Narrow(k, ch, ps)
  {
    assert ps == ps[..i] + ps[i..];
    NarrowAppend(k, ch, ps[..i], ps[i..]);
  }

  /** Without one, nothing is left to cost. */
  lemma {:induction false} NoChunksCostNothing(k: Terms, ch: Channel, ps: seq<Payload>)
    requires ChannelOk(k, ch) && forall i :: 0 <= i < |ps| ==> !IsChunk(ch, ps[i])
    ensures Narrow(k, ch, ps) == 0
  {
    if ps != [] {
      assert forall i :: 0 <= i < |ps[1..]| ==> ps[1..][i] == ps[i + 1];
      NoChunksCostNothing(k, ch, ps[1..]);
    }
  }

  function Names(h: seq<Held>): seq<Payload> {
    seq(|h|, i requires 0 <= i < |h| => h[i].payload)
  }

  /** What is held costs more than the window only if one chunk of it does alone. */
  lemma {:induction false} HeldIsNarrow(k: Terms, ch: Channel, h: seq<Held>)
    requires ChannelOk(k, ch) && forall i :: 0 <= i < |h| ==> ch.cost(h[i].payload) <= k.window
    ensures HeldChunks(k, ch.cost, h) == Narrow(k, ch, Names(h))
  {
    if h != [] {
      assert Names(h)[1..] == Names(h[1..]);
      assert forall i :: 0 <= i < |h[1..]| ==> h[1..][i] == h[i + 1];
      HeldIsNarrow(k, ch, h[1..]);
      assert Names(h)[0] == h[0].payload;
    }
  }

  // ----- what the sender let go of -----

  /** In order: what the receiver holds, and what is on its way to it. */
  function LetGo(s: Side, r: Side): seq<Payload> {
    var n := |s.hist.posted| - |Payloads(s.queue)|;
    Names(r.unsettled) + (if |r.hist.delivered| <= n then s.hist.posted[|r.hist.delivered|..n] else [])
  }

  /**
   What an open sender let go of is within the window, but for chunks wider than
   it; behind a close, so is all that comes before a chunk.
   */
  predicate Spread(k: Terms, ch: Channel, s: Side, ps: seq<Payload>) {
    if s.status != Dead then Narrow(k, ch, ps) <= k.window
    else forall i :: 0 <= i < |ps| && IsChunk(ch, ps[i]) ==> Narrow(k, ch, ps[..i]) <= k.window
  }

  predicate OneQueued(ch: Channel, ps: seq<Payload>) {
    forall i, j :: 0 <= i < j < |ps| ==> !IsChunk(ch, ps[i]) || !IsChunk(ch, ps[j])
  }

  /** An end that leaves the table lets go of its queue, in which there is one chunk at most. */
  lemma SpreadLeaves(k: Terms, ch: Channel, s: Side, t: Side, ps: seq<Payload>, q: seq<Payload>)
    requires ChannelOk(k, ch) && Narrow(k, ch, ps) <= k.window && OneQueued(ch, q) && t.status == Dead
    ensures Spread(k, ch, t, ps + q)
  {
    var all := ps + q;
    forall i | 0 <= i < |all| && IsChunk(ch, all[i]) ensures Narrow(k, ch, all[..i]) <= k.window {
      if i <= |ps| {
        assert all[..i] == ps[..i];
        NarrowPrefix(k, ch, ps, i);
      } else {
        var m := i - |ps|;
        assert all[..i] == ps + q[..m];
        forall j | 0 <= j < m ensures !IsChunk(ch, q[..m][j]) { assert q[j] == q[..m][j] && all[i] == q[m]; }
        NoChunksCostNothing(k, ch, q[..m]);
        NarrowAppend(k, ch, ps, q[..m]);
      }
    }
  }

  /** A held payload that settles is let go of no more. */
  lemma SpreadShrinks(k: Terms, ch: Channel, s: Side, ps: seq<Payload>, j: nat)
    requires Spread(k, ch, s, ps) && j < |ps|
    ensures Spread(k, ch, s, ps[..j] + ps[j + 1..])
  {
    var rest := ps[..j] + ps[j + 1..];
    NarrowWithout(k, ch, ps, j);
    if s.status == Dead {
      forall i | 0 <= i < |rest| && IsChunk(ch, rest[i]) ensures Narrow(k, ch, rest[..i]) <= k.window {
        if i < j {
          assert rest[..i] == ps[..i] && rest[i] == ps[i];
        } else {
          assert rest[i] == ps[i + 1] && rest[..i] == ps[..i + 1][..j] + ps[..i + 1][j + 1..];
          NarrowWithout(k, ch, ps[..i + 1], j);
        }
      }
    }
  }

  lemma NarrowWithout(k: Terms, ch: Channel, ps: seq<Payload>, j: nat)
    requires j < |ps|
    ensures Narrow(k, ch, ps[..j] + ps[j + 1..]) <= Narrow(k, ch, ps)
  {
    assert ps == ps[..j] + ([ps[j]] + ps[j + 1..]);
    NarrowAppend(k, ch, ps[..j], [ps[j]] + ps[j + 1..]);
    NarrowAppend(k, ch, [ps[j]], ps[j + 1..]);
    NarrowAppend(k, ch, ps[..j], ps[j + 1..]);
  }

  // ----- what is let go of is counted -----

  lemma {:induction false} HeldCovers(k: Terms, ch: Channel, h: seq<Held>)
    requires ChannelOk(k, ch) && Covered(k, ch.cost, h)
    ensures Narrow(k, ch, Names(h)) <= HeldSum(h)
  {
    if h != [] {
      assert Names(h)[1..] == Names(h[1..]);
      assert forall i :: 0 <= i < |h[1..]| ==> h[1..][i] == h[i + 1];
      HeldCovers(k, ch, h[1..]);
      assert Names(h)[0] == h[0].payload;
    }
  }

  lemma {:induction false} ComingCovers(k: Terms, ch: Channel, buf: Bytes, d: seq<Envelope>)
    requires ChannelOk(k, ch) && Feed(k.codec, buf, d).ok
    ensures Narrow(k, ch, Feed(k.codec, buf, d).msgs) <= |buf| + Cost(k.codec, Mode(k), d)
    decreases |d|
  {
    if d != [] {
      match d[0]
      case Close =>
      case Message(p) =>
        ComingCovers(k, ch, buf, d[1..]);
        NarrowFirst(k, ch, p, Feed(k.codec, buf, d[1..]).msgs);
      case Frame(x, last) =>
        ComingCovers(k, ch, if last then [] else buf + x, d[1..]);
        if last { NarrowFirst(k, ch, k.codec.decode(buf + x).value, Feed(k.codec, [], d[1..]).msgs); }
      case _ => ComingCovers(k, ch, buf, d[1..]);
    }
  }

  lemma NarrowFirst(k: Terms, ch: Channel, p: Payload, ps: seq<Payload>)
    ensures Narrow(k, ch, [p] + ps) <= ch.cost(p) + Narrow(k, ch, ps)
  {
    assert ([p] + ps)[1..] == ps;
  }

  /** What an open sender let go of costs no more than it counts as outstanding. */
  lemma LetGoIsCounted(k: Terms, ch: Channel, f: Flow)
    requires TermsOk(k) && ChannelOk(k, ch) && Transfer(k, f) && Ledger(k, f) && f.tight && Life(f) && PartialOk(f.r)
    requires f.s.status == Live && f.r.status != Dead && f.r.unconsumed == HeldSum(f.r.unsettled) && Covered(k, ch.cost, f.r.unsettled)
    ensures f.s.hist.posted == f.r.hist.delivered + Feed(k.codec, BufOf(f.r), Coming(f)).msgs + Payloads(f.s.queue)
    ensures Narrow(k, ch, LetGo(f.s, f.r)) <= f.s.outstanding
  {
    var g := Feed(k.codec, BufOf(f.r), Coming(f));
    hide Data, Payloads, CodecOk;
    HeldCovers(k, ch, f.r.unsettled);
    ComingCovers(k, ch, BufOf(f.r), Coming(f));
    hide Feed, Cost, CostsCovered, Covered, HeldSum;
    MiddleIs(f.s.hist.posted, f.r.hist.delivered, g.msgs, Payloads(f.s.queue));
    NarrowAppend(k, ch, Names(f.r.unsettled), g.msgs);
  }

  lemma MiddleIs(all: seq<Payload>, x: seq<Payload>, y: seq<Payload>, z: seq<Payload>)
    requires all == x + y + z
    ensures |all| - |z| >= |x| && all[|x|..|all| - |z|] == y && all[|all| - |z|..] == z
  {
  }

  // ----- the sender's steps -----

  function FlowOf(k: Terms, w: World, fromA: bool): Flow {
    if fromA then FlowAB(k, w) else FlowBA(w)
  }

  lemma FlowFacts(k: Terms, w: World, fromA: bool)
    requires TermsOk(k) && Inv(k, w) && Agreed(k)
    ensures var f := FlowOf(k, w, fromA);
            && Transfer(k, f) && Ledger(k, f) && Life(f) && f.tight
            && f.s == EndOf(w, fromA) && f.r == EndOf(w, !fromA) && f.sr == InboxOf(w, !fromA)
            && Local(k, OptionsOf(k, fromA), fromA, f.s) && Local(k, OptionsOf(k, !fromA), !fromA, f.r)
            && PartialOk(f.r) && f.r.unconsumed == HeldSum(f.r.unsettled)
  {
    LocalWire(k, k.oa, true, w.a);
    LocalWire(k, k.ob, false, w.b);
    LocalSums(k, k.oa, true, w.a);
    LocalSums(k, k.ob, false, w.b);
    hide Local, Transfer, Half, Life, Ledger, Room, Handshake, CodecOk;
  }

  /** What a step leaves of the queue. */
  predicate QueueAfter(s: Side, act: Act, t: Side) {
    match act
    case Post(p) =>
      if s.status == Live && !s.half.ending
      then t.status == Live && Payloads(t.queue) == Payloads(s.queue) + [p]
      else t.status == s.status && Payloads(t.queue) == Payloads(s.queue)
    case Flush =>
      && s.status == Live && s.queue != []
      && if s.queue[0].Send? then t.status == Live && Payloads(s.queue) == [s.queue[0].payload] + Payloads(t.queue)
         else Payloads(t.queue) == Payloads(s.queue)
    case _ =>
      || (Payloads(t.queue) == Payloads(s.queue) && (s.status == Dead ==> t.status == Dead))
      || (s.status != Dead && t.status == Dead && t.queue == [])
  }

  lemma {:induction false} SendAllQueue(o: Options, s: Side, es: seq<Envelope>)
    ensures var t := SendAllOnPort(o, s, es).side;
            (t.status == s.status && t.queue == s.queue) || (End in es && t.status == Dead && t.queue == [])
    decreases |es|
  {
    if es != [] {
      assert es == [es[0]] + es[1..];
      SendAllQueue(o, SendOnPort(o, s, es[0]).side, es[1..]);
    }
  }

  lemma FlushLeaves(o: Options, c: Codec, s: Side)
    requires OptionsOk(o) && CanFlush(s)
    ensures var t, es := FlushOne(o, c, s).side, Leaving(o, c, s, s.queue[0], false);
            (t.status == Live && t.queue == s.queue[1..]) || (End in es && t.status == Dead && t.queue == [])
  {
    var i := s.queue[0];
    var t := s.(queue := s.queue[1..], queued := if ItemSize(i) <= s.queued then s.queued - ItemSize(i) else 0,
                outstanding := s.outstanding + ItemSize(i));
    assert Leaving(o, c, t, i, false) == Leaving(o, c, s, i, false);
    hide Leaving, SendAllOnPort;
    SendAllQueue(o, t, Leaving(o, c, t, i, false));
  }

  lemma FlushQueue(k: Terms, o: Options, isA: bool, s: Side)
    requires TermsOk(k) && OptionsOk(o) && Local(k, o, isA, s) && CanFlush(s)
    ensures QueueAfter(s, Flush, FlushOne(o, k.codec, s).side)
  {
    var i := s.queue[0];
    LeavingFacts(k, o, isA, s);
    FlushLeaves(o, k.codec, s);
    if i.EndItem? { assert s.queue[1..] == []; }
    hide Leaving, FlushOne, CodecOk, Feed, Cost;
  }

  lemma HeardQueue(o: Options, c: Codec, s: Side, e: Envelope, full: bool, others: nat)
    requires e.Open? ==> s.status == NotYet && s.queue == []
    ensures var t := Handle(o, c, s, e, full, others).side;
            || (t.queue == s.queue && (s.status == Dead ==> t.status == Dead))
            || (s.status != Dead && t.status == Dead && t.queue == [])
  {
    hide PartialOf, PastRoom, Charge, Size;
  }

  lemma PostQueue(c: Codec, s: Side, p: Payload)
    requires s.status == Live ==> s.window > 0
    ensures QueueAfter(s, Post(p), PostPayload(c, s, p).side)
  {
    var n := Size(c, s.deal.exact, p);
    PayloadsAppend(s.queue, [Send(p, n)]);
    assert Payloads([Send(p, n)]) == [p];
    hide Size;
  }

  lemma EndQueue(s: Side)
    ensures Payloads(EndDirection(s).queue) == Payloads(s.queue) && EndDirection(s).status == s.status
  {
    PayloadsAppend(s.queue, [EndItem]);
    assert Payloads([EndItem]) == [];
  }

  lemma QueueStep(k: Terms, o: Options, isA: bool, s: Side, inbox: seq<Envelope>, act: Act)
    requires TermsOk(k) && OptionsOk(o) && Local(k, o, isA, s) && Enabled(k, o, s, inbox, act)
    requires act.Recv? && inbox[0].Open? ==> s.status == NotYet
    ensures QueueAfter(s, act, Perform(k, o, s, inbox, act).side)
  {
    assert s.status == NotYet ==> s.queue == [];
    assert s.status == Live ==> s.window > 0;
    hide QueueOk, CodecOk, Handle, PostPayload, EndDirection, FlushOne, Payloads;
    match act
    case Flush => FlushQueue(k, o, isA, s);
    case Post(p) => PostQueue(k.codec, s, p);
    case EndDir => EndQueue(s);
    case CloseIt => if s.status == Live { SendAllQueue(o, Spill(s), WholeItems(s.queue) + [Close]); }
    case Recv(full, others) => HeardQueue(o, k.codec, s, inbox[0], full, others);
    case _ =>
  }

  lemma SpreadStays(k: Terms, ch: Channel, s: Side, t: Side, ps: seq<Payload>)
    requires Spread(k, ch, s, ps) && (s.status == Dead ==> t.status == Dead)
    ensures Spread(k, ch, t, ps)
  {
    if s.status != Dead {
      forall i | 0 <= i < |ps| ensures Narrow(k, ch, ps[..i]) <= Narrow(k, ch, ps) { NarrowPrefix(k, ch, ps, i); }
    }
  }

  /** The head of the queue leaves: within the window, or with nothing else on its way. */
  lemma SpreadFlushes(k: Terms, ch: Channel, s: Side, t: Side, ps: seq<Payload>, p: Payload)
    requires TermsOk(k) && ChannelOk(k, ch) && s.status == t.status == Live && CanFlush(s) && s.queue[0].Send? && p == s.queue[0].payload
    requires s.queue[0].bytes == Size(k.codec, s.deal.exact, p) && (k.chunk(p) ==> s.deal.enforced) && s.window == k.window
    requires Narrow(k, ch, ps) <= k.window && Narrow(k, ch, ps) <= s.outstanding
    ensures Spread(k, ch, t, ps + [p])
  {
    NarrowAppend(k, ch, ps, [p]);
    assert [p][1..] == [];
    assert Narrow(k, ch, [p]) == if ch.cost(p) <= k.window then ch.cost(p) else 0;
    hide Narrow;
  }

  /** What is let go of, as the queue and what was posted change. */
  lemma LetGoAfter(s: Side, t: Side, r: Side, x: seq<Payload>, q: seq<Payload>)
    requires s.hist.posted == r.hist.delivered + x + Payloads(s.queue)
    ensures LetGo(s, r) == Names(r.unsettled) + x
    ensures t.hist.posted == s.hist.posted && Payloads(s.queue) == q + Payloads(t.queue) ==> LetGo(t, r) == LetGo(s, r) + q
    ensures t.hist.posted == s.hist.posted + q && Payloads(t.queue) == Payloads(s.queue) + q ==> LetGo(t, r) == LetGo(s, r)
  {
    MiddleIs(s.hist.posted, r.hist.delivered, x, Payloads(s.queue));
    if t.hist.posted == s.hist.posted && Payloads(s.queue) == q + Payloads(t.queue) {
      assert t.hist.posted == r.hist.delivered + (x + q) + Payloads(t.queue);
      MiddleIs(t.hist.posted, r.hist.delivered, x + q, Payloads(t.queue));
    }
    if t.hist.posted == s.hist.posted + q && Payloads(t.queue) == Payloads(s.queue) + q {
      assert t.hist.posted == r.hist.delivered + x + Payloads(t.queue);
      MiddleIs(t.hist.posted, r.hist.delivered, x, Payloads(t.queue));
    }
  }

  lemma LetGoSame(s: Side, t: Side, r: Side)
    requires t.hist.posted == s.hist.posted && Payloads(t.queue) == Payloads(s.queue)
    ensures LetGo(t, r) == LetGo(s, r)
  {
  }

  predicate PostedAfter(s: Side, act: Act, t: Side) {
    t.hist.posted == if act.Post? && s.status == Live && !s.half.ending then s.hist.posted + [act.payload] else s.hist.posted
  }

  lemma PostedStep(k: Terms, w: World, isA: bool, act: Act)
    requires TermsOk(k) && Inv(k, w) && Can(k, w, isA, act)
    ensures var s, t := EndOf(w, isA), EndOf(Step(k, w, isA, act), isA);
            && PostedAfter(s, act, t) && QueueAfter(s, act, t) && BooksAfter(k, s, InboxOf(w, isA), act, t)
            && EndOf(Step(k, w, isA, act), !isA) == EndOf(w, !isA)
  {
    var o, s, inbox := OptionsOf(k, isA), EndOf(w, isA), InboxOf(w, isA);
    EndBefore(k, w, isA);
    assert Local(k, o, isA, s) by { hide Local, Dir; }
    hide Inv, Local, CodecOk, Perform;
    StepBooks(k, o, s, inbox, act);
    QueueStep(k, o, isA, s, inbox, act);
  }

  lemma SenderSpread(k: Terms, ch: Channel, w: World, act: Act)
    requires TermsOk(k) && ChannelOk(k, ch) && Agreed(k) && Inv(k, w) && Holding(k, ch.cost, w) && Can(k, w, ch.fromA, act)
    requires var s, r := EndOf(w, ch.fromA), EndOf(w, !ch.fromA);
             r.status != Dead && OneQueued(ch, Payloads(s.queue)) && Spread(k, ch, s, LetGo(s, r))
    ensures var t, r := EndOf(Step(k, w, ch.fromA, act), ch.fromA), EndOf(w, !ch.fromA); Spread(k, ch, t, LetGo(t, r))
  {
    var f, t := FlowOf(k, w, ch.fromA), EndOf(Step(k, w, ch.fromA, act), ch.fromA);
    FlowFacts(k, w, ch.fromA);
    PostedStep(k, w, ch.fromA, act);
    QueuedFacts(k, w, ch.fromA);
    assert Covered(k, ch.cost, f.r.unsettled);
    assert act.Flush? ==> CanFlush(f.s);
    hide Inv, Step, Can, Holding, Transfer, Ledger, Life, Local, CodecOk, ChannelOk, BooksAfter, CanFlush;
    SenderSpreads(k, ch, f, act, t);
  }

  lemma QueuedFacts(k: Terms, w: World, isA: bool)
    requires TermsOk(k) && Inv(k, w)
    ensures var s := EndOf(w, isA);
            && (s.status == NotYet ==> s.hist.posted == [] && s.queue == [])
            && (s.status == Dead ==> s.queue == [])
            && (s.status == Live ==> s.window == k.window)
            && (forall i :: 0 <= i < |s.queue| && s.queue[i].Send? ==>
                  && s.queue[i].bytes == Size(k.codec, s.deal.exact, s.queue[i].payload)
                  && (k.chunk(s.queue[i].payload) ==> s.deal.enforced))
  {
    hide Dir, CodecOk, Handshake;
  }

  lemma SenderSpreads(k: Terms, ch: Channel, f: Flow, act: Act, t: Side)
    requires TermsOk(k) && ChannelOk(k, ch) && Transfer(k, f) && Ledger(k, f) && f.tight && Life(f) && PartialOk(f.r)
    requires f.r.status != Dead && f.r.unconsumed == HeldSum(f.r.unsettled) && Covered(k, ch.cost, f.r.unsettled)
    requires (f.s.status == NotYet ==> f.s.hist.posted == [] && f.s.queue == []) && (f.s.status == Dead ==> f.s.queue == [])
    requires f.s.status == Live ==> f.s.window == k.window
    requires forall i :: 0 <= i < |f.s.queue| && f.s.queue[i].Send? ==>
               && f.s.queue[i].bytes == Size(k.codec, f.s.deal.exact, f.s.queue[i].payload)
               && (k.chunk(f.s.queue[i].payload) ==> f.s.deal.enforced)
    requires OneQueued(ch, Payloads(f.s.queue)) && Spread(k, ch, f.s, LetGo(f.s, f.r))
    requires PostedAfter(f.s, act, t) && QueueAfter(f.s, act, t) && (act.Flush? ==> CanFlush(f.s))
    ensures Spread(k, ch, t, LetGo(t, f.r))
  {
    var s, r := f.s, f.r;
    var ps := LetGo(s, r);
    if s.status == Live {
      LetGoIsCounted(k, ch, f);
      var x := Feed(k.codec, BufOf(r), Coming(f)).msgs;
      hide Transfer, Ledger, Life, LetGo, Payloads, Feed, Coming, CodecOk, ChannelOk, Covered, HeldSum;
      if act.Post? && !s.half.ending {
        LetGoAfter(s, t, r, x, [act.payload]);
        SpreadStays(k, ch, s, t, ps);
      } else if act.Flush? && s.queue[0].Send? {
        var p := s.queue[0].payload;
        LetGoAfter(s, t, r, x, [p]);
        SpreadFlushes(k, ch, s, t, ps, p);
      } else if Payloads(t.queue) == Payloads(s.queue) {
        LetGoSame(s, t, r);
        SpreadStays(k, ch, s, t, ps);
      } else {
        NothingQueued(t);
        assert Payloads(s.queue) + [] == Payloads(s.queue);
        LetGoAfter(s, t, r, x, Payloads(s.queue));
        SpreadLeaves(k, ch, s, t, ps, Payloads(s.queue));
      }
    } else {
      NothingQueued(s);
      assert Payloads(t.queue) == [];
      LetGoSame(s, t, r);
      SpreadStays(k, ch, s, t, ps);
    }
  }

  lemma NothingQueued(s: Side)
    ensures s.queue == [] ==> Payloads(s.queue) == []
  {
  }

  /** The sender never has two chunks of its own queued. */
  lemma OneQueuedKept(ch: Channel, s: Side, act: Act, t: Side)
    requires OneQueued(ch, Payloads(s.queue)) && QueueAfter(s, act, t)
    requires act.Post? && ch.kind(act.payload).Chunk? ==> NoneQueued(ch, s)
    ensures OneQueued(ch, Payloads(t.queue))
  {
    var q, q' := Payloads(s.queue), Payloads(t.queue);
    NothingQueued(t);
    if act.Post? && ch.kind(act.payload).Chunk? { NoneIsNone(ch, s.queue); }
    if act.Flush? && s.queue[0].Send? {
      forall i, j | 0 <= i < j < |q'| ensures !IsChunk(ch, q'[i]) || !IsChunk(ch, q'[j]) { assert q'[i] == q[i + 1] && q'[j] == q[j + 1]; }
    }
    hide Payloads;
  }

  lemma {:induction false} NoneIsNone(ch: Channel, q: seq<Item>)
    requires forall i :: 0 <= i < |q| && q[i].Send? ==> !ch.kind(q[i].payload).Chunk?
    ensures forall i :: 0 <= i < |Payloads(q)| ==> !IsChunk(ch, Payloads(q)[i])
  {
    if q != [] {
      assert forall i :: 0 <= i < |q[1..]| ==> q[1..][i] == q[i + 1];
      NoneIsNone(ch, q[1..]);
    }
  }

  // ----- which chunks the receiver's cap lets through -----

  /** Chunks sent whole, and frames. */
  function Heavy(ch: Channel, es: seq<Envelope>): seq<Envelope> {
    if es == [] then []
    else (if es[0].Frame? || (es[0].Message? && IsChunk(ch, es[0].payload)) then [es[0]] else []) + Heavy(ch, es[1..])
  }

  lemma {:induction false} HeavyAppend(ch: Channel, x: seq<Envelope>, y: seq<Envelope>)
    ensures Heavy(ch, x + y) == Heavy(ch, x) + Heavy(ch, y)
  {
    if x == [] {
      assert x + y == y;
    } else {
      assert (x + y)[1..] == x[1..] + y;
      HeavyAppend(ch, x[1..], y);
    }
  }

  lemma {:induction false} HeavyOnly(ch: Channel, es: seq<Envelope>)
    ensures forall e :: e in Heavy(ch, es) ==> e in es && (e.Frame? || (e.Message? && IsChunk(ch, e.payload)))
  {
    if es != [] {
      assert es == [es[0]] + es[1..];
      HeavyOnly(ch, es[1..]);
    }
  }

  lemma HeavyOne(ch: Channel, e: Envelope)
    ensures Heavy(ch, [e]) == if e.Frame? || (e.Message? && IsChunk(ch, e.payload)) then [e] else []
  {
    assert [e][1..] == [];
  }

  /** A chunk sent whole that the cap would have stopped as frames: only a close sends one so. */
  predicate Odd(k: Terms, ch: Channel, e: Envelope) {
    e.Message? && IsChunk(ch, e.payload) && !Crosses(k, ch.fromA, e.payload)
  }

  predicate OddHeard(k: Terms, ch: Channel, ps: seq<Payload>) {
    exists q :: q in ps && IsChunk(ch, q) && !Crosses(k, ch.fromA, q)
  }

  /** Such a chunk comes from a closed sender, and is the last. */
  predicate Trail(k: Terms, ch: Channel, s: Side, r: Side, d: seq<Envelope>) {
    && (forall i :: 0 <= i < |d| && Odd(k, ch, d[i]) ==> s.status == Dead && i == |d| - 1)
    && (OddHeard(k, ch, r.hist.delivered) ==> s.status == Dead && d == [])
  }

  function TrailOf(ch: Channel, f: Flow): seq<Envelope> { Heavy(ch, f.sr) + Heavy(ch, f.s.outgoing) }

  lemma SendOneHeavy(ch: Channel, o: Options, s: Side, x: Envelope)
    requires o.frameSize.None? ==> s.outgoing == []
    ensures var e := SendOnPort(o, s, x);
            && Heavy(ch, e.out) + Heavy(ch, e.side.outgoing) == Heavy(ch, s.outgoing) + Heavy(ch, [x])
            && (o.frameSize.None? ==> e.side.outgoing == [])
  {
    HeavyAppend(ch, s.outgoing, [x]);
    HeavyOne(ch, x);
    NoHeavy(ch);
    hide Heavy, IsChunk;
    assert [] + Heavy(ch, [x]) == Heavy(ch, [x]) + [];
  }

  lemma {:induction false} SendAllHeavy(ch: Channel, o: Options, s: Side, es: seq<Envelope>)
    requires o.frameSize.None? ==> s.outgoing == []
    ensures var e := SendAllOnPort(o, s, es);
            && Heavy(ch, e.out) + Heavy(ch, e.side.outgoing) == Heavy(ch, s.outgoing) + Heavy(ch, es)
            && (o.frameSize.None? ==> e.side.outgoing == [])
    decreases |es|
  {
    if es == [] {
      assert [] + Heavy(ch, s.outgoing) == Heavy(ch, s.outgoing) + [];
    } else {
      var first := SendOnPort(o, s, es[0]);
      var rest := SendAllOnPort(o, first.side, es[1..]);
      SendOneHeavy(ch, o, s, es[0]);
      hide Heavy, SendOnPort;
      SendAllHeavy(ch, o, first.side, es[1..]);
      HeavyAppend(ch, first.out, rest.out);
      assert es == [es[0]] + es[1..];
      HeavyAppend(ch, [es[0]], es[1..]);
      Regroup(Heavy(ch, first.out), Heavy(ch, rest.out), Heavy(ch, rest.side.outgoing), Heavy(ch, first.side.outgoing),
              Heavy(ch, s.outgoing), Heavy(ch, [es[0]]), Heavy(ch, es[1..]));
    }
  }

  lemma Regroup(a: seq<Envelope>, b: seq<Envelope>, c: seq<Envelope>, m: seq<Envelope>, x: seq<Envelope>, y: seq<Envelope>, z: seq<Envelope>)
    requires a + m == x + y && b + c == m + z
    ensures (a + b) + c == x + (y + z)
  {
    assert (a + b) + c == a + (b + c) == (a + m) + z;
  }

  lemma NoHeavy(ch: Channel)
    ensures Heavy(ch, []) == []
  {
  }

  /** What a step adds to what is on its way. */
  function Added(k: Terms, o: Options, s: Side, act: Act): seq<Envelope>
    requires OptionsOk(o) && (act.Flush? ==> CanFlush(s))
  {
    if act.Flush? then Leaving(o, k.codec, s, s.queue[0], false)
    else if act.CloseIt? && s.status == Live then WholeItems(s.queue) + [Close]
    else []
  }

  predicate HeavyAfter(k: Terms, ch: Channel, o: Options, s: Side, act: Act, e: Effect)
    requires OptionsOk(o) && (act.Flush? ==> CanFlush(s))
  {
    || Heavy(ch, e.out) + Heavy(ch, e.side.outgoing) == Heavy(ch, s.outgoing) + Heavy(ch, Added(k, o, s, act))
    || (!act.Flush? && !act.CloseIt? && Heavy(ch, e.out) + Heavy(ch, e.side.outgoing) == [])
  }

  lemma FlushHeavy(k: Terms, ch: Channel, o: Options, s: Side)
    requires OptionsOk(o) && CanFlush(s) && (o.frameSize.None? ==> s.outgoing == [])
    ensures HeavyAfter(k, ch, o, s, Flush, FlushOne(o, k.codec, s))
  {
    var i := s.queue[0];
    var t := s.(queue := s.queue[1..], queued := if ItemSize(i) <= s.queued then s.queued - ItemSize(i) else 0,
                outstanding := s.outstanding + ItemSize(i));
    assert Leaving(o, k.codec, t, i, false) == Leaving(o, k.codec, s, i, false);
    hide Leaving, SendAllOnPort, Heavy;
    SendAllHeavy(ch, o, t, Leaving(o, k.codec, t, i, false));
  }

  lemma PumpHeavy(ch: Channel, s: Side)
    requires s.outgoing != []
    ensures var e := PumpOne(s); Heavy(ch, e.out) + Heavy(ch, e.side.outgoing) == Heavy(ch, s.outgoing)
  {
    var x := s.outgoing[0];
    HeavyOne(ch, x);
    assert s.outgoing == [x] + s.outgoing[1..];
    HeavyAppend(ch, [x], s.outgoing[1..]);
    NoHeavy(ch);
    hide Heavy;
  }

  lemma HeardHeavy(ch: Channel, o: Options, c: Codec, s: Side, e: Envelope, full: bool, others: nat)
    ensures var h := Handle(o, c, s, e, full, others); Heavy(ch, h.out) == [] && (h.side.outgoing == s.outgoing || h.side.outgoing == [])
  {
    var h := Handle(o, c, s, e, full, others);
    hide PartialOf, PastRoom, Charge, Size;
    if h.out != [] { HeavyOne(ch, h.out[0]); assert h.out == [h.out[0]]; }
    hide IsChunk;
  }

  lemma HeavyStep(k: Terms, ch: Channel, o: Options, s: Side, inbox: seq<Envelope>, act: Act)
    requires OptionsOk(o) && Enabled(k, o, s, inbox, act) && (o.frameSize.None? ==> s.outgoing == []) && (s.status == Live ==> s.window > 0)
    ensures HeavyAfter(k, ch, o, s, act, Perform(k, o, s, inbox, act))
  {
    var e := Perform(k, o, s, inbox, act);
    NoHeavy(ch);
    HeavyOne(ch, Close);
    hide Handle, FlushOne, PumpOne, SendAllOnPort;
    match act
    case Flush => FlushHeavy(k, ch, o, s);
    case Pump => PumpHeavy(ch, s);
    case CloseIt => if s.status == Live { SendAllHeavy(ch, o, Spill(s), WholeItems(s.queue) + [Close]); }
    case Recv(full, others) => HeardHeavy(ch, o, k.codec, s, inbox[0], full, others);
    case Settle(i) => GrantHeavy(ch, s.(unsettled := s.unsettled[..i] + s.unsettled[i + 1..]), s.unsettled[i].size);
    case Timer => SentGrantHeavy(ch, s.(clock := s.clock.(timers := s.clock.timers - 1)));
    case _ =>
  }

  lemma SentGrantHeavy(ch: Channel, s: Side)
    ensures Heavy(ch, SendGrant(s).out) == [] && SendGrant(s).side.outgoing == s.outgoing
  {
    HeavyOne(ch, Credit(s.toGrant, false, None));
    NoHeavy(ch);
  }

  lemma GrantHeavy(ch: Channel, s: Side, n: nat)
    ensures Heavy(ch, Grant(s, n).out) == [] && Grant(s, n).side.outgoing == s.outgoing
  {
    SentGrantHeavy(ch, s.(unconsumed := if n <= s.unconsumed then s.unconsumed - n else 0, toGrant := s.toGrant + n));
    NoHeavy(ch);
    hide Heavy;
  }

  /** What leaves within the window goes in frames if it must. */
  lemma LeavingCrosses(k: Terms, ch: Channel, isA: bool, s: Side)
    requires OptionsOk(OptionsOf(k, isA)) && ch.fromA == isA && CanFlush(s) && ChannelOk(k, ch)
    requires s.deal.enforced ==> s.deal.exact == Mode(k)
    requires s.queue[0].Send? ==> s.queue[0].bytes == Size(k.codec, s.deal.exact, s.queue[0].payload)
    requires s.queue[0].Send? && k.chunk(s.queue[0].payload) ==> s.deal.enforced
    ensures forall e :: e in Heavy(ch, Leaving(OptionsOf(k, isA), k.codec, s, s.queue[0], false)) ==> !Odd(k, ch, e)
  {
    var o, i := OptionsOf(k, isA), s.queue[0];
    var es := Leaving(o, k.codec, s, i, false);
    HeavyOnly(ch, es);
    if i.Send? && es != [Message(i.payload)] { PiecesAreFrames(k.codec.encode(i.payload), o.frameSize.value); }
    hide Heavy, Pieces;
  }

  /** A close sends one chunk whole at most. */
  lemma {:induction false} WholeHeavy(ch: Channel, q: seq<Item>)
    requires OneQueued(ch, Payloads(q))
    ensures |Heavy(ch, WholeItems(q) + [Close])| <= 1
    ensures (forall i :: 0 <= i < |Payloads(q)| ==> !IsChunk(ch, Payloads(q)[i])) ==> Heavy(ch, WholeItems(q) + [Close]) == []
    decreases |q|
  {
    var es := WholeItems(q) + [Close];
    if q == [] {
      HeavyOne(ch, Close);
      assert es == [Close];
    } else {
      var ps, rest := Payloads(q), Payloads(q[1..]);
      assert q[0].Send? ==> ps == [q[0].payload] + rest;
      assert q[0].EndItem? ==> ps == rest;
      forall i | 0 <= i < |rest| ensures q[0].Send? ==> rest[i] == ps[i + 1] {}
      forall i, j | 0 <= i < j < |rest| ensures !IsChunk(ch, rest[i]) || !IsChunk(ch, rest[j]) {
        if q[0].Send? { assert rest[i] == ps[i + 1] && rest[j] == ps[j + 1]; }
      }
      WholeHeavy(ch, q[1..]);
      assert es[1..] == WholeItems(q[1..]) + [Close];
      if q[0].Send? && IsChunk(ch, q[0].payload) {
        forall i | 0 <= i < |rest| ensures !IsChunk(ch, rest[i]) { assert ps[0] == q[0].payload && rest[i] == ps[i + 1]; }
      }
    }
  }

  lemma SenderTrail(k: Terms, ch: Channel, f: Flow, o: Options, act: Act, e: Effect)
    requires o == OptionsOf(k, ch.fromA) && OptionsOk(o) && (act.Flush? ==> CanFlush(f.s)) && HeavyAfter(k, ch, o, f.s, act, e)
    requires act.Flush? ==> forall x :: x in Heavy(ch, Added(k, o, f.s, act)) ==> !Odd(k, ch, x)
    requires act.CloseIt? && f.s.status == Live ==> |Heavy(ch, Added(k, o, f.s, act))| <= 1 && e.side.status == Dead
    requires (f.s.status == Dead ==> e.side.status == Dead) && Trail(k, ch, f.s, f.r, TrailOf(ch, f))
    ensures Trail(k, ch, e.side, f.r, TrailOf(ch, f.(s := e.side, sr := f.sr + e.out)))
  {
    var d, d' := TrailOf(ch, f), TrailOf(ch, f.(s := e.side, sr := f.sr + e.out));
    HeavyAppend(ch, f.sr, e.out);
    var x := Heavy(ch, Added(k, o, f.s, act));
    NoHeavy(ch);
    hide Heavy, Added, Odd, OddHeard;
    assert d' == Heavy(ch, f.sr) + (Heavy(ch, e.out) + Heavy(ch, e.side.outgoing));
    if Heavy(ch, e.out) + Heavy(ch, e.side.outgoing) == Heavy(ch, f.s.outgoing) + x {
      assert d' == d + x;
      if !act.Flush? && !(act.CloseIt? && f.s.status == Live) {
        assert x == [] by { NothingAdded(k, ch, o, f.s, act); }
      }
      TrailGrows(k, ch, f.s, e.side, f.r, d, x);
    } else {
      assert d' == Heavy(ch, f.sr) && d == d' + Heavy(ch, f.s.outgoing);
      forall i | 0 <= i < |d'| ensures d'[i] == d[i] {}
    }
  }

  lemma NothingAdded(k: Terms, ch: Channel, o: Options, s: Side, act: Act)
    requires OptionsOk(o) && !act.Flush? && !(act.CloseIt? && s.status == Live)
    ensures Heavy(ch, Added(k, o, s, act)) == []
  {
  }

  lemma TrailGrows(k: Terms, ch: Channel, s: Side, t: Side, r: Side, d: seq<Envelope>, x: seq<Envelope>)
    requires Trail(k, ch, s, r, d) && (s.status == Dead ==> t.status == Dead)
    requires x == [] || (s.status != Dead && ((|x| <= 1 && t.status == Dead) || forall e :: e in x ==> !Odd(k, ch, e)))
    ensures Trail(k, ch, t, r, d + x)
  {
    hide Odd, OddHeard;
    var all := d + x;
    forall i | 0 <= i < |all| && Odd(k, ch, all[i]) ensures t.status == Dead && i == |all| - 1 {
      if i < |d| { assert all[i] == d[i]; } else { assert all[i] == x[i - |d|] && x[i - |d|] in x; }
    }
  }

  /** A message reassembled from frames passed the cap. */
  lemma FrameCrosses(k: Terms, cost: Payload -> nat, o: Options, s: Side, e: Envelope, full: bool, others: nat)
    requires e.Frame? && s.status == Live && s.window == k.window && PartialOk(s) && HolderOk(k, cost, s) && WholeFrame(k, s, e)
    requires Handle(o, k.codec, s, e, full, others).side.hist.delivered != s.hist.delivered
    ensures e.last && k.codec.decode(BufOf(s) + e.data).Some?
    ensures |k.codec.encode(k.codec.decode(BufOf(s) + e.data).value)| <= k.window + o.maxReassembled
  {
    var pt := PartialOf(s);
    FlattenSnoc(pt.chunks, e.data);
    assert Flatten(pt.chunks) == BufOf(s);
    assert pt.room.Some? ==> pt.room.value <= s.window;
    hide Flatten, Covered;
  }

  /** What is heard is the head of what is on its way. */
  lemma TrailHead(ch: Channel, sr: seq<Envelope>, rest: seq<Envelope>)
    requires sr != []
    ensures Heavy(ch, sr) + rest == Heavy(ch, [sr[0]]) + (Heavy(ch, sr[1..]) + rest)
  {
    assert sr == [sr[0]] + sr[1..];
    HeavyAppend(ch, [sr[0]], sr[1..]);
    assert (Heavy(ch, [sr[0]]) + Heavy(ch, sr[1..])) + rest == Heavy(ch, [sr[0]]) + (Heavy(ch, sr[1..]) + rest);
  }

  lemma TrailShortens(k: Terms, ch: Channel, s: Side, r: Side, t: Side, x: seq<Envelope>, d: seq<Envelope>)
    requires Trail(k, ch, s, r, x + d) && (OddHeard(k, ch, t.hist.delivered) ==> s.status == Dead && d == [])
    ensures Trail(k, ch, s, t, d)
  {
    hide Odd, OddHeard;
    forall i | 0 <= i < |d| ensures d[i] == (x + d)[i + |x|] {}
  }

  /** A payload that crossed, or the last chunk of a close. */
  lemma HeardTrail(k: Terms, ch: Channel, s: Side, r: Side, t: Side, sr: seq<Envelope>, p: Payload)
    requires sr != [] && Trail(k, ch, s, r, Heavy(ch, sr) + Heavy(ch, s.outgoing))
    requires t.hist.delivered == r.hist.delivered + [p]
    requires (sr[0].Message? && sr[0].payload == p) || (sr[0].Frame? && (IsChunk(ch, p) ==> Crosses(k, ch.fromA, p)))
    ensures Trail(k, ch, s, t, Heavy(ch, sr[1..]) + Heavy(ch, s.outgoing))
  {
    var e, d := sr[0], Heavy(ch, sr[1..]) + Heavy(ch, s.outgoing);
    var x := Heavy(ch, [e]);
    TrailHead(ch, sr, Heavy(ch, s.outgoing));
    HeavyOne(ch, e);
    hide Heavy, Crosses, IsChunk;
    if OddHeard(k, ch, t.hist.delivered) {
      var q :| q in t.hist.delivered && IsChunk(ch, q) && !Crosses(k, ch.fromA, q);
      if q in r.hist.delivered {
        assert OddHeard(k, ch, r.hist.delivered);
        assert x + d == [];
      } else {
        assert q == p;
        assert (x + d)[0] == e && Odd(k, ch, (x + d)[0]);
      }
    }
    TrailShortens(k, ch, s, r, t, x, d);
  }

  // ----- all of it, over every move -----

  predicate Carried(k: Terms, ps: seq<Payload>) {
    forall p :: p in ps ==> k.codec.carries(p)
  }

  /** What refusing takes: a wide chunk was delivered. */
  predicate Seen(k: Terms, ch: Channel, ps: seq<Payload>) {
    exists p :: p in ps && Wide(k, ch, p)
  }

  /** What holds of the way to a receiver that is still in its table. */
  ghost predicate Afloat(k: Terms, ch: Channel, f: Flow) {
    f.r.status != Dead ==> Spread(k, ch, f.s, LetGo(f.s, f.r)) && Trail(k, ch, f.s, f.r, TrailOf(ch, f))
  }

  ghost predicate Reasons(k: Terms, ch: Channel, st: Stream) {
    var s, r := EndOf(st.w, ch.fromA), EndOf(st.w, !ch.fromA);
    && StreamInv(k, ch, st)
    && OneQueued(ch, Payloads(s.queue)) && Carried(k, s.hist.posted)
    && (forall h :: h in r.unsettled ==> h.payload in r.hist.delivered)
    && Afloat(k, ch, FlowOf(k, st.w, ch.fromA))
    && (st.x.poison ==> Seen(k, ch, r.hist.delivered))
  }

  lemma SenderAfloat(k: Terms, ch: Channel, st: Stream, act: Act)
    requires TermsOk(k) && ChannelOk(k, ch) && Agreed(k) && Reasons(k, ch, st) && MayMove(k, ch, st, Port(ch.fromA, act))
    ensures Afloat(k, ch, FlowOf(k, Step(k, st.w, ch.fromA, act), ch.fromA))
  {
    var f := FlowOf(k, st.w, ch.fromA);
    var o, inbox := OptionsOf(k, ch.fromA), InboxOf(st.w, ch.fromA);
    var e := Perform(k, o, f.s, inbox, act);
    assert FlowOf(k, Step(k, st.w, ch.fromA, act), ch.fromA) == f.(s := e.side, sr := f.sr + e.out, rs := Remaining(inbox, act));
    assert f.s == EndOf(st.w, ch.fromA) && f.r == EndOf(st.w, !ch.fromA);
    assert EndOf(Step(k, st.w, ch.fromA, act), ch.fromA) == e.side;
    if f.r.status != Dead {
      hide StreamInv, Perform, Spread, Trail, CodecOk, ChannelOk;
      assert Inv(k, st.w) && Holding(k, ch.cost, st.w) by { StreamParts(k, ch, st); }
      SenderSpread(k, ch, st.w, act);
      SenderTrails(k, ch, st.w, act);
      hide Inv, Holding, MayMove, Step;
    }
  }

  lemma StreamParts(k: Terms, ch: Channel, st: Stream)
    requires StreamInv(k, ch, st)
    ensures Inv(k, st.w) && Holding(k, ch.cost, st.w) && Disciplined(k, ch, st)
  {
  }

  lemma SenderTrails(k: Terms, ch: Channel, w: World, act: Act)
    requires TermsOk(k) && ChannelOk(k, ch) && Agreed(k) && Inv(k, w) && Can(k, w, ch.fromA, act)
    requires var f := FlowOf(k, w, ch.fromA); OneQueued(ch, Payloads(f.s.queue)) && Trail(k, ch, f.s, f.r, TrailOf(ch, f))
    ensures var f, e := FlowOf(k, w, ch.fromA), Perform(k, OptionsOf(k, ch.fromA), EndOf(w, ch.fromA), InboxOf(w, ch.fromA), act);
            Trail(k, ch, e.side, f.r, TrailOf(ch, f.(s := e.side, sr := f.sr + e.out)))
  {
    var f, o, inbox := FlowOf(k, w, ch.fromA), OptionsOf(k, ch.fromA), InboxOf(w, ch.fromA);
    var e := Perform(k, o, f.s, inbox, act);
    FlowFacts(k, w, ch.fromA);
    QueuedFacts(k, w, ch.fromA);
    PostedStep(k, w, ch.fromA, act);
    SizingFacts(k, w, ch.fromA);
    assert EndOf(Step(k, w, ch.fromA, act), ch.fromA) == e.side;
    hide Inv, Transfer, Ledger, Life, CodecOk, Trail, Step;
    HeavyStep(k, ch, o, f.s, inbox, act);
    if act.Flush? { LeavingCrosses(k, ch, ch.fromA, f.s); }
    if act.CloseIt? && f.s.status == Live {
      WholeHeavy(ch, f.s.queue);
      assert e.side.status == Dead by { SendAllSpills(o, Spill(f.s), WholeItems(f.s.queue) + [Close]); }
    }
    assert f.s.status == Dead ==> e.side.status == Dead;
    hide Perform, Local, HeavyAfter, QueueAfter;
    SenderTrail(k, ch, f, o, act, e);
  }

  lemma SizingFacts(k: Terms, w: World, isA: bool)
    requires TermsOk(k) && Inv(k, w)
    ensures var s := EndOf(w, isA);
            && (s.status == Live && s.deal.enforced ==> s.deal.exact == Mode(k))
            && (OptionsOf(k, isA).frameSize.None? ==> s.outgoing == [])
  {
    hide Dir, CodecOk, Handshake, QueueOk;
  }

  // ----- the receiver's steps -----

  lemma NamesWithout(h: seq<Held>, i: nat)
    requires i < |h|
    ensures Names(h[..i] + h[i + 1..]) == Names(h)[..i] + Names(h)[i + 1..]
  {
  }

  lemma NamesSnoc(h: seq<Held>, h': seq<Held>, p: Payload)
    requires |h'| == |h| + 1 && h'[..|h|] == h && h'[|h|].payload == p
    ensures Names(h') == Names(h) + [p]
  {
    forall i | 0 <= i < |h| ensures h'[i] == h[i] { assert h'[..|h|][i] == h[i]; }
  }

  /** Delivering moves a payload from what is on its way to what is held. */
  lemma LetGoDelivered(s: Side, r: Side, t: Side, p: Payload)
    requires t.hist.delivered == r.hist.delivered + [p] && Names(t.unsettled) == Names(r.unsettled) + [p]
    requires t.hist.delivered <= s.hist.posted && |t.hist.delivered| <= |s.hist.posted| - |Payloads(s.queue)|
    ensures LetGo(s, t) == LetGo(s, r)
    ensures |Names(r.unsettled)| < |LetGo(s, r)| && LetGo(s, r)[|r.unsettled|] == p && LetGo(s, r)[..|r.unsettled|] == Names(r.unsettled)
  {
    var m, n := |r.hist.delivered|, |s.hist.posted| - |Payloads(s.queue)|;
    assert s.hist.posted[m] == t.hist.delivered[m] == p;
    assert s.hist.posted[m..n] == [p] + s.hist.posted[m + 1..n];
    assert Names(r.unsettled) + ([p] + s.hist.posted[m + 1..n]) == (Names(r.unsettled) + [p]) + s.hist.posted[m + 1..n];
  }

  lemma LetGoSettled(s: Side, r: Side, t: Side, i: nat)
    requires i < |r.unsettled| && t.unsettled == r.unsettled[..i] + r.unsettled[i + 1..] && t.hist.delivered == r.hist.delivered
    ensures i < |LetGo(s, r)| && LetGo(s, t) == LetGo(s, r)[..i] + LetGo(s, r)[i + 1..]
  {
    NamesWithout(r.unsettled, i);
    hide Payloads;
  }

  lemma ReceiverSpread(k: Terms, ch: Channel, s: Side, r: Side, t: Side, inbox: seq<Envelope>, act: Act)
    requires Spread(k, ch, s, LetGo(s, r)) && BooksAfter(k, r, inbox, act, t)
    requires t.hist.delivered <= s.hist.posted && |t.hist.delivered| <= |s.hist.posted| - |Payloads(s.queue)|
    ensures Spread(k, ch, s, LetGo(s, t))
  {
    match act
    case Settle(i) =>
      hide Spread, LetGo;
      LetGoSettled(s, r, t, i);
      SpreadShrinks(k, ch, s, LetGo(s, r), i);
    case Recv(_, _) =>
      hide Arriving, Spread, Payloads;
      if t.hist.delivered != r.hist.delivered {
        var p := Arriving(k, r, inbox[0]).value;
        NamesSnoc(r.unsettled, t.unsettled, p);
        LetGoDelivered(s, r, t, p);
        hide LetGo;
      } else {
        assert t.unsettled == r.unsettled;
      }
    case _ =>
  }

  /** What an envelope that delivers something is, and the room there was for it. */
  lemma ArrivalFacts(k: Terms, ch: Channel, w: World, act: Act, p: Payload)
    requires TermsOk(k) && act.Recv? && Can(k, w, !ch.fromA, act)
    requires EndOf(Step(k, w, !ch.fromA, act), !ch.fromA).hist.delivered == EndOf(w, !ch.fromA).hist.delivered + [p]
    requires Inv(k, w) && Holding(k, ch.cost, w)
    ensures var r, inbox := EndOf(w, !ch.fromA), InboxOf(w, !ch.fromA);
            && r.status == Live && inbox != [] && Arriving(k, r, inbox[0]) == Some(p)
            && ((inbox[0].Message? && inbox[0].payload == p) || (inbox[0].Frame? && (IsChunk(ch, p) ==> Crosses(k, ch.fromA, p))))
  {
    var isA := !ch.fromA;
    var r, inbox, t := EndOf(w, isA), InboxOf(w, isA), EndOf(Step(k, w, isA, act), isA);
    StepHears(k, w, isA, act);
    assert HolderOk(k, ch.cost, r) by { hide Inv, HolderOk, Step, Can; }
    hide Inv, Holding, HolderOk, CodecOk, Handle, Step, WholeFrame, Can;
    PostedStep(k, w, isA, act);
    hide QueueAfter, PostedAfter;
    assert t.hist.delivered[|r.hist.delivered|] == p;
    LiveDelivers(k, OptionsOf(k, isA), r, inbox[0], act.full, act.others);
    hide BooksAfter;
    if inbox[0].Frame? { FrameArrives(k, ch.cost, w, isA, act.full, act.others); }
  }

  lemma StepHears(k: Terms, w: World, isA: bool, act: Act)
    requires TermsOk(k) && act.Recv? && Can(k, w, isA, act)
    ensures InboxOf(w, isA) != []
    ensures EndOf(Step(k, w, isA, act), isA) == Handle(OptionsOf(k, isA), k.codec, EndOf(w, isA), InboxOf(w, isA)[0], act.full, act.others).side
  {
    hide Handle, CodecOk;
  }

  lemma FrameArrives(k: Terms, cost: Payload -> nat, w: World, isA: bool, full: bool, others: nat)
    requires TermsOk(k) && Inv(k, w) && HolderOk(k, cost, EndOf(w, isA)) && EndOf(w, isA).status == Live
    requires InboxOf(w, isA) != [] && InboxOf(w, isA)[0].Frame?
    requires Handle(OptionsOf(k, isA), k.codec, EndOf(w, isA), InboxOf(w, isA)[0], full, others).side.hist.delivered != EndOf(w, isA).hist.delivered
    ensures var r, e := EndOf(w, isA), InboxOf(w, isA)[0];
            && e.last && k.codec.decode(BufOf(r) + e.data).Some?
            && |k.codec.encode(k.codec.decode(BufOf(r) + e.data).value)| <= k.window + OptionsOf(k, isA).maxReassembled
  {
    QueuedFacts(k, w, isA);
    HonestFrameWhole(k, w, isA);
    PartialFacts(k, w, isA);
    hide Inv, HolderOk, CodecOk, Handle, WholeFrame;
    FrameCrosses(k, cost, OptionsOf(k, isA), EndOf(w, isA), InboxOf(w, isA)[0], full, others);
  }

  lemma PartialFacts(k: Terms, w: World, isA: bool)
    requires Inv(k, w)
    ensures PartialOk(EndOf(w, isA))
  {
    LocalWire(k, k.oa, true, w.a);
    LocalWire(k, k.ob, false, w.b);
    hide Local, Dir, Handshake;
  }

  lemma LiveDelivers(k: Terms, o: Options, s: Side, e: Envelope, full: bool, others: nat)
    requires Handle(o, k.codec, s, e, full, others).side.hist.delivered != s.hist.delivered
    ensures s.status == Live && (e.Message? || e.Frame?)
  {
    hide PartialOf, PastRoom, Charge, Size;
  }

  lemma ReceiverAfloat(k: Terms, ch: Channel, st: Stream, act: Act)
    requires TermsOk(k) && ChannelOk(k, ch) && Agreed(k) && Reasons(k, ch, st) && MayMove(k, ch, st, Port(!ch.fromA, act))
    requires Inv(k, Step(k, st.w, !ch.fromA, act))
    ensures Afloat(k, ch, FlowOf(k, Step(k, st.w, !ch.fromA, act), ch.fromA))
  {
    var isA := !ch.fromA;
    var f, w' := FlowOf(k, st.w, ch.fromA), Step(k, st.w, isA, act);
    var f' := FlowOf(k, w', ch.fromA);
    assert f'.r == EndOf(w', isA) && f'.s == f.s && f.r == EndOf(st.w, isA) && f.s == EndOf(st.w, ch.fromA);
    assert f.sr == InboxOf(st.w, isA) && f'.sr == Remaining(f.sr, act);
    assert Inv(k, st.w) && Holding(k, ch.cost, st.w) && Afloat(k, ch, f) && Can(k, st.w, isA, act);
    hide Reasons, StreamInv, MayMove, Inv, Holding, CodecOk, ChannelOk, Step;
    PostedStep(k, st.w, isA, act);
    if f'.r.status != Dead {
      assert f.r.status != Dead;
      DeliveredBound(k, w', ch.fromA);
      hide Spread, Trail, LetGo, QueueAfter, PostedAfter;
      ReceiverSpread(k, ch, f.s, f.r, f'.r, f.sr, act);
      DeliveredGrows(k, f.r, f.sr, act, f'.r);
      if f'.r.hist.delivered != f.r.hist.delivered {
        ArrivalFacts(k, ch, st.w, act, f'.r.hist.delivered[|f.r.hist.delivered|]);
      }
      hide BooksAfter, Can, Arriving;
      ReceiverTrail(k, ch, f, f'.r, act);
    }
  }

  lemma ReceiverTrail(k: Terms, ch: Channel, f: Flow, t: Side, act: Act)
    requires Trail(k, ch, f.s, f.r, TrailOf(ch, f)) && (act.Recv? ==> f.sr != [])
    requires t.hist.delivered != f.r.hist.delivered ==>
               && act.Recv? && |t.hist.delivered| == |f.r.hist.delivered| + 1
               && var p := t.hist.delivered[|f.r.hist.delivered|];
                  && t.hist.delivered == f.r.hist.delivered + [p]
                  && ((f.sr[0].Message? && f.sr[0].payload == p) || (f.sr[0].Frame? && (IsChunk(ch, p) ==> Crosses(k, ch.fromA, p))))
    ensures Trail(k, ch, f.s, t, Heavy(ch, Remaining(f.sr, act)) + Heavy(ch, f.s.outgoing))
  {
    hide Trail, Crosses, IsChunk;
    if t.hist.delivered != f.r.hist.delivered {
      HeardTrail(k, ch, f.s, f.r, t, f.sr, t.hist.delivered[|f.r.hist.delivered|]);
    } else if act.Recv? {
      TrailHead(ch, f.sr, Heavy(ch, f.s.outgoing));
      SameHeard(k, ch, f.s, f.r, t, Heavy(ch, [f.sr[0]]), Heavy(ch, f.sr[1..]) + Heavy(ch, f.s.outgoing));
    } else {
      SameHeard(k, ch, f.s, f.r, t, [], TrailOf(ch, f));
    }
  }

  lemma SameHeard(k: Terms, ch: Channel, s: Side, r: Side, t: Side, x: seq<Envelope>, d: seq<Envelope>)
    requires Trail(k, ch, s, r, x + d) || (x == [] && Trail(k, ch, s, r, d))
    requires t.hist.delivered == r.hist.delivered
    ensures Trail(k, ch, s, t, d)
  {
    assert [] + d == d;
    TrailShortens(k, ch, s, r, t, x, d);
  }

  lemma DeliveredBound(k: Terms, w: World, fromA: bool)
    requires TermsOk(k) && Inv(k, w) && EndOf(w, !fromA).status != Dead
    ensures var s, r := EndOf(w, fromA), EndOf(w, !fromA);
            r.hist.delivered <= s.hist.posted && |r.hist.delivered| + |Payloads(s.queue)| <= |s.hist.posted|
  {
    hide Local, Half, Life, Ledger, Room, Handshake, CodecOk, Feed, Data, Payloads;
  }

  /** Past the window for good: what is held holds a wide chunk. */
  lemma HeldIsWide(k: Terms, ch: Channel, f: Flow, p: Payload)
    requires ChannelOk(k, ch) && Afloat(k, ch, f) && f.r.status != Dead && IsChunk(ch, p)
    requires |f.r.unsettled| < |LetGo(f.s, f.r)| && LetGo(f.s, f.r)[|f.r.unsettled|] == p && LetGo(f.s, f.r)[..|f.r.unsettled|] == Names(f.r.unsettled)
    requires HeldChunks(k, ch.cost, f.r.unsettled) > k.window
    ensures exists h :: h in f.r.unsettled && ch.cost(h.payload) > k.window
  {
    var u := f.r.unsettled;
    if forall i :: 0 <= i < |u| ==> ch.cost(u[i].payload) <= k.window {
      HeldIsNarrow(k, ch, u);
      NarrowPrefix(k, ch, LetGo(f.s, f.r), |u|);
      hide HeldChunks, Narrow, LetGo, Trail, ChannelOk;
    } else {
      var i :| 0 <= i < |u| && ch.cost(u[i].payload) > k.window;
      assert u[i] in u;
    }
  }

  /** The one test an honest sender's payload can fail is the window's, and what fails it is wide. */
  lemma RefusedIsWide(k: Terms, ch: Channel, st: Stream, act: Act, p: Payload)
    requires TermsOk(k) && ChannelOk(k, ch) && Agreed(k) && Reasons(k, ch, st) && MayMove(k, ch, st, Port(!ch.fromA, act))
    requires Inv(k, Step(k, st.w, !ch.fromA, act)) && act.Recv? && !st.x.poison
    requires var r, t := EndOf(st.w, !ch.fromA), EndOf(Step(k, st.w, !ch.fromA, act), !ch.fromA);
             && t.hist.delivered == r.hist.delivered + [p]
             && HearPayload(ch, r, st.x, p).poison
    ensures Seen(k, ch, EndOf(st.w, !ch.fromA).hist.delivered)
  {
    var isA, f, w' := !ch.fromA, FlowOf(k, st.w, ch.fromA), Step(k, st.w, !ch.fromA, act);
    var t := EndOf(w', isA);
    assert f.s == EndOf(st.w, ch.fromA) && f.r == EndOf(st.w, isA) && f.sr == InboxOf(st.w, isA);
    assert Afloat(k, ch, f) && Carried(k, f.s.hist.posted) && forall h :: h in f.r.unsettled ==> h.payload in f.r.hist.delivered;
    StreamParts(k, ch, st);
    hide Reasons, StreamInv, Inv, Holding, CodecOk, Step, Afloat, HeldChunks;
    ArrivalFacts(k, ch, st.w, act, p);
    HeldTooMuch(k, ch, st, p);
    PostedStep(k, st.w, isA, act);
    LiveStays(k, st.w, isA, act, f.r, t);
    DeliveredBound(k, w', ch.fromA);
    ChannelFacts(k, st.w, ch.fromA);
    hide MayMove, HearPayload, Arriving, ChannelOk, CostsCovered;
    NamesSnoc(f.r.unsettled, t.unsettled, p);
    LetGoDelivered(f.s, f.r, t, p);
    hide LetGo, Disciplined, BooksAfter, QueueAfter;
    WideIsHeld(k, ch, f, p);
  }

  lemma HeldTooMuch(k: Terms, ch: Channel, st: Stream, p: Payload)
    requires TermsOk(k) && ChannelOk(k, ch) && Inv(k, st.w) && Disciplined(k, ch, st) && !st.x.poison
    requires var s, r, inbox := EndOf(st.w, ch.fromA), EndOf(st.w, !ch.fromA), InboxOf(st.w, !ch.fromA);
             && r.status == Live && inbox != [] && (inbox[0].Message? || inbox[0].Frame?)
             && r.hist.delivered + [p] <= s.hist.posted
             && HearPayload(ch, r, st.x, p).poison
    ensures IsChunk(ch, p) && HeldChunks(k, ch.cost, EndOf(st.w, !ch.fromA).unsettled) > k.window
  {
    ChannelFacts(k, st.w, ch.fromA);
    NextInOrder(k, ch, EndOf(st.w, ch.fromA), EndOf(st.w, !ch.fromA), st.x, p);
    AgreedOnArrival(k, st.w, !ch.fromA);
    hide Inv, CodecOk, Paced, HeldChunks;
  }

  lemma WideIsHeld(k: Terms, ch: Channel, f: Flow, p: Payload)
    requires ChannelOk(k, ch) && Afloat(k, ch, f) && f.r.status != Dead && IsChunk(ch, p) && Carried(k, f.s.hist.posted)
    requires |f.r.unsettled| < |LetGo(f.s, f.r)| && LetGo(f.s, f.r)[|f.r.unsettled|] == p && LetGo(f.s, f.r)[..|f.r.unsettled|] == Names(f.r.unsettled)
    requires HeldChunks(k, ch.cost, f.r.unsettled) > k.window
    requires f.sr != [] && ((f.sr[0].Message? && f.sr[0].payload == p) || f.sr[0].Frame?)
    requires f.r.hist.delivered <= f.s.hist.posted && forall h :: h in f.r.unsettled ==> h.payload in f.r.hist.delivered
    ensures Seen(k, ch, f.r.hist.delivered)
  {
    hide Afloat, LetGo, HeldChunks, CostsCovered;
    HeldIsWide(k, ch, f, p);
    var h :| h in f.r.unsettled && ch.cost(h.payload) > k.window;
    assert h.payload in f.s.hist.posted;
    WideCrossed(k, ch, f, h.payload, p);
    assert Wide(k, ch, h.payload);
  }

  lemma LiveStays(k: Terms, w: World, isA: bool, act: Act, s: Side, t: Side)
    requires TermsOk(k) && Inv(k, w) && Can(k, w, isA, act) && s == EndOf(w, isA) && t == EndOf(Step(k, w, isA, act), isA)
    requires act.Recv? && t.hist.delivered != s.hist.delivered
    ensures t.status == Live
  {
    LiveHears(k, OptionsOf(k, isA), s, InboxOf(w, isA)[0], act.full, act.others);
    hide Inv, Handle;
  }

  lemma LiveHears(k: Terms, o: Options, s: Side, e: Envelope, full: bool, others: nat)
    requires Handle(o, k.codec, s, e, full, others).side.hist.delivered != s.hist.delivered
    ensures Handle(o, k.codec, s, e, full, others).side.status == Live
  {
    hide PartialOf, PastRoom, Charge, Size;
  }

  /** A chunk delivered before another one crossed the cap. */
  lemma WideCrossed(k: Terms, ch: Channel, f: Flow, q: Payload, p: Payload)
    requires Afloat(k, ch, f) && f.r.status != Dead && f.sr != [] && IsChunk(ch, p) && IsChunk(ch, q) && q in f.r.hist.delivered
    requires (f.sr[0].Message? && f.sr[0].payload == p) || f.sr[0].Frame?
    ensures Crosses(k, ch.fromA, q)
  {
    TrailHead(ch, f.sr, Heavy(ch, f.s.outgoing));
    HeavyOne(ch, f.sr[0]);
    assert TrailOf(ch, f) != [];
    assert !OddHeard(k, ch, f.r.hist.delivered);
    hide Heavy, Spread, Crosses, Trail;
  }

  /** An end heard behind an honest sender's last chunk refuses nothing. */
  lemma EndRefusesNothing(k: Terms, ch: Channel, st': Stream)
    requires StreamInv(k, ch, st') && EndOf(st'.w, !ch.fromA).half.peerEnded
    ensures !st'.x.poison
  {
    var f := FlowOf(k, st'.w, ch.fromA);
    assert Half(k, f);
    hide Local, Transfer, Life, Ledger, Room, Holding, Paced, Ordered, Quiet, Data;
  }

  lemma PoisonHasReason(k: Terms, ch: Channel, st: Stream, act: Act)
    requires TermsOk(k) && ChannelOk(k, ch) && Agreed(k) && Reasons(k, ch, st) && MayMove(k, ch, st, Port(!ch.fromA, act))
    requires StreamInv(k, ch, Moved(k, ch, st, Port(!ch.fromA, act)))
    ensures var st' := Moved(k, ch, st, Port(!ch.fromA, act)); st'.x.poison ==> Seen(k, ch, EndOf(st'.w, !ch.fromA).hist.delivered)
  {
    var st', r := Moved(k, ch, st, Port(!ch.fromA, act)), EndOf(st.w, !ch.fromA);
    var t := EndOf(st'.w, !ch.fromA);
    StreamParts(k, ch, st);
    StreamParts(k, ch, st');
    PostedStep(k, st.w, !ch.fromA, act);
    DeliveredGrows(k, r, InboxOf(st.w, !ch.fromA), act, t);
    if st.x.poison {
      SeenGrows(k, ch, r.hist.delivered, t.hist.delivered);
    } else if t.hist.delivered != r.hist.delivered {
      var p := t.hist.delivered[|r.hist.delivered|];
      hide StreamInv, Inv, Holding, CodecOk, Step, HearPayload, Seen;
      if st'.x.poison {
        RefusedIsWide(k, ch, st, act, p);
        SeenGrows(k, ch, r.hist.delivered, t.hist.delivered);
      }
    } else {
      if t.half.peerEnded { EndRefusesNothing(k, ch, st'); }
      hide StreamInv, Inv, Holding, CodecOk, Step;
    }
  }

  lemma DeliveredGrows(k: Terms, s: Side, inbox: seq<Envelope>, act: Act, t: Side)
    requires BooksAfter(k, s, inbox, act, t)
    ensures t.hist.delivered == s.hist.delivered
            || (act.Recv? && |t.hist.delivered| == |s.hist.delivered| + 1 && t.hist.delivered == s.hist.delivered + [t.hist.delivered[|s.hist.delivered|]])
  {
  }

  lemma SeenGrows(k: Terms, ch: Channel, x: seq<Payload>, y: seq<Payload>)
    requires Seen(k, ch, x) && x <= y
    ensures Seen(k, ch, y)
  {
    var p :| p in x && Wide(k, ch, p);
    assert p in y;
  }

  // ----- over every run -----

  lemma HeldDelivered(k: Terms, s: Side, inbox: seq<Envelope>, act: Act, t: Side)
    requires BooksAfter(k, s, inbox, act, t) && forall h :: h in s.unsettled ==> h.payload in s.hist.delivered
    ensures forall h :: h in t.unsettled ==> h.payload in t.hist.delivered
  {
    forall h | h in t.unsettled ensures h.payload in t.hist.delivered {
      if h !in s.unsettled {
        assert t.unsettled[..|s.unsettled|] == s.unsettled;
        assert h == t.unsettled[|s.unsettled|];
        assert t.hist.delivered[|s.hist.delivered|] == h.payload;
      }
    }
  }

  lemma SenderBooks(k: Terms, ch: Channel, st: Stream, act: Act)
    requires TermsOk(k) && Inv(k, st.w) && MayMove(k, ch, st, Port(ch.fromA, act))
    requires var s := EndOf(st.w, ch.fromA); OneQueued(ch, Payloads(s.queue)) && Carried(k, s.hist.posted)
    ensures var t := EndOf(Step(k, st.w, ch.fromA, act), ch.fromA); OneQueued(ch, Payloads(t.queue)) && Carried(k, t.hist.posted)
    ensures EndOf(Step(k, st.w, ch.fromA, act), !ch.fromA) == EndOf(st.w, !ch.fromA)
  {
    var s, t := EndOf(st.w, ch.fromA), EndOf(Step(k, st.w, ch.fromA, act), ch.fromA);
    assert act.Post? ==> k.codec.carries(act.payload);
    PostedStep(k, st.w, ch.fromA, act);
    hide Inv, CodecOk, Step, Can, BooksAfter, Payloads;
    OneQueuedKept(ch, s, act, t);
    hide OneQueued;
  }

  lemma SenderReasons(k: Terms, ch: Channel, st: Stream, act: Act)
    requires TermsOk(k) && ChannelOk(k, ch) && Agreed(k) && Reasons(k, ch, st) && MayMove(k, ch, st, Port(ch.fromA, act))
    requires StreamInv(k, ch, Moved(k, ch, st, Port(ch.fromA, act)))
    ensures Reasons(k, ch, Moved(k, ch, st, Port(ch.fromA, act)))
  {
    StreamParts(k, ch, st);
    SenderAfloat(k, ch, st, act);
    SenderBooks(k, ch, st, act);
    hide StreamInv, Inv, Holding, CodecOk, ChannelOk, Step, MayMove, Afloat, Seen, OneQueued, Payloads, Carried, Disciplined;
  }

  lemma ReceiverReasons(k: Terms, ch: Channel, st: Stream, act: Act)
    requires TermsOk(k) && ChannelOk(k, ch) && Agreed(k) && Reasons(k, ch, st) && MayMove(k, ch, st, Port(!ch.fromA, act))
    requires StreamInv(k, ch, Moved(k, ch, st, Port(!ch.fromA, act)))
    ensures Reasons(k, ch, Moved(k, ch, st, Port(!ch.fromA, act)))
  {
    var st', r := Moved(k, ch, st, Port(!ch.fromA, act)), EndOf(st.w, !ch.fromA);
    var t := EndOf(st'.w, !ch.fromA);
    StreamParts(k, ch, st);
    StreamParts(k, ch, st');
    PostedStep(k, st.w, !ch.fromA, act);
    hide StreamInv, Inv, Holding, CodecOk, Step, Can, Afloat, BooksAfter, Seen;
    HeldDelivered(k, r, InboxOf(st.w, !ch.fromA), act, t);
    ReceiverAfloat(k, ch, st, act);
    PoisonHasReason(k, ch, st, act);
  }

  lemma ReasonsKept(k: Terms, ch: Channel, st: Stream, mv: Move)
    requires TermsOk(k) && ChannelOk(k, ch) && Agreed(k) && Reasons(k, ch, st) && MayMove(k, ch, st, mv)
    ensures Reasons(k, ch, Moved(k, ch, st, mv))
  {
    MoveKeeps(k, ch, st, mv);
    hide StreamInv, Afloat, Seen, CodecOk, ChannelOk, Step, MayMove;
    if mv.Port? {
      if mv.byA == ch.fromA { SenderReasons(k, ch, st, mv.act); } else { ReceiverReasons(k, ch, st, mv.act); }
    }
  }

  lemma {:induction false} RunHasReasons(k: Terms, ch: Channel, st: Stream, moves: seq<Move>, st': Stream)
    requires TermsOk(k) && ChannelOk(k, ch) && Agreed(k) && Reasons(k, ch, st) && IsStreamRun(k, ch, st, moves, st')
    ensures Reasons(k, ch, st')
    decreases |moves|
  {
    if moves != [] {
      ReasonsKept(k, ch, st, moves[0]);
      hide Reasons, MayMove, Moved;
      RunHasReasons(k, ch, Moved(k, ch, st, moves[0]), moves[1..], st');
    }
  }

  lemma FirstReasons(k: Terms, ch: Channel)
    requires TermsOk(k) && ChannelOk(k, ch)
    ensures Reasons(k, ch, StreamInit(k))
  {
    FirstHeld(k, ch);
    FirstAfloat(k, ch);
    hide StreamInv, Afloat, CodecOk, ChannelOk;
  }

  lemma FirstHeld(k: Terms, ch: Channel)
    requires TermsOk(k) && ChannelOk(k, ch)
    ensures StreamInv(k, ch, StreamInit(k))
  {
    InitInv(k);
    hide Inv, CodecOk, CostsCovered, HeldChunks;
  }

  lemma FirstAfloat(k: Terms, ch: Channel)
    ensures Afloat(k, ch, FlowOf(k, Init(k), ch.fromA))
  {
    var f := FlowOf(k, Init(k), ch.fromA);
    assert Heavy(ch, Init(k).ab) == [] by { HeavyOne(ch, Init(k).ab[0]); }
    assert LetGo(f.s, f.r) == [];
    assert TrailOf(ch, f) == [];
    hide Heavy, LetGo;
  }

  /**
   An honest sender is refused only behind a close that sent a queue past the
   window, and only once a chunk that costs more than the whole window was
   delivered; a sender that ended its direction never is.
   */
  lemma RefusedTakesWide(k: Terms, ch: Channel, moves: seq<Move>, st: Stream)
    requires TermsOk(k) && ChannelOk(k, ch) && Agreed(k) && IsStreamRun(k, ch, StreamInit(k), moves, st)
    ensures st.x.poison ==> EndOf(st.w, ch.fromA).hist.spilled && Pipeline in Shared(k)
                            && exists p :: p in EndOf(st.w, !ch.fromA).hist.delivered && Wide(k, ch, p)
  {
    FirstReasons(k, ch);
    hide Reasons;
    RunHasReasons(k, ch, StreamInit(k), moves, st);
    HonestSenderNeverViolates(k, ch, moves, st);
    if st.x.poison { WideIsAgreed(k, ch, st); }
  }

  lemma WideIsAgreed(k: Terms, ch: Channel, st: Stream)
    requires TermsOk(k) && Reasons(k, ch, st) && st.x.poison
    ensures Pipeline in Shared(k) && exists p :: p in EndOf(st.w, !ch.fromA).hist.delivered && Wide(k, ch, p)
  {
    StreamParts(k, ch, st);
    assert Seen(k, ch, EndOf(st.w, !ch.fromA).hist.delivered);
    hide Reasons, StreamInv, Inv, Holding, CodecOk, Crosses;
    ChannelFacts(k, st.w, ch.fromA);
    hide Wide, Tracked, Paced;
    var p :| p in EndOf(st.w, !ch.fromA).hist.delivered && Wide(k, ch, p);
    assert p in EndOf(st.w, ch.fromA).hist.posted;
    ChunkIsAgreed(k, ch, EndOf(st.w, ch.fromA), EndOf(st.w, !ch.fromA), p);
  }

  lemma ChunkIsAgreed(k: Terms, ch: Channel, s: Side, r: Side, p: Payload)
    requires Paced(k, ch, s, r) && p in s.hist.posted && Wide(k, ch, p)
    ensures Pipeline in Shared(k)
  {
    var i :| 0 <= i < |s.hist.posted| && s.hist.posted[i] == p;
    hide Count, SawLast, Crosses;
  }
}
