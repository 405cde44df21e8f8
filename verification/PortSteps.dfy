/** Every step of one end keeps both directions of the port: the sending half. */
module PortSendSteps {
  import opened Basics
  import opened PortSide
  import opened PortWire
  import opened PortWorld

  lemma {:induction false} WithoutEndIn(es: seq<Envelope>, e: Envelope)
    ensures e in WithoutEnd(es) <==> e in es && !e.End?
  {
    if es != [] {
      assert es == [es[0]] + es[1..];
      WithoutEndIn(es[1..], e);
    }
  }

  /** What sending a list of envelopes on a port does: to the pipe at once, or behind the ring. */
  lemma {:induction false} SendAllShape(o: Options, s: Side, es: seq<Envelope>)
    requires Plain(es) && (o.frameSize.None? ==> s.outgoing == [])
    requires o.frameSize.None? && End in es ==> s.status != Live
    ensures var e := SendAllOnPort(o, s, es);
            && e.side == s.(outgoing := if o.frameSize.None? then [] else s.outgoing + es)
            && e.out == (if o.frameSize.None? then WithoutEnd(es) else [])
            && Plain(e.out)
    decreases |es|
  {
    if es != [] {
      assert es == [es[0]] + es[1..];
      assert es[0] in es;
      var first := SendOnPort(o, s, es[0]);
      SendAllShape(o, first.side, es[1..]);
      if o.frameSize.Some? {
        assert s.outgoing + es == (s.outgoing + [es[0]]) + es[1..];
      }
    } else {
      assert s.outgoing + es == s.outgoing;
    }
  }

  /** Without framing an item is a ring item whose turn comes at once. */
  lemma SendOneIsPump(o: Options, s: Side, x: Envelope)
    requires o.frameSize.None? && s.outgoing == []
    ensures SendAllOnPort(o, s, [x]) == PumpOne(s.(outgoing := [x]))
  {
    assert [x][1..] == [];
    var e := Emit(s, x);
    assert s.(outgoing := [x]).(outgoing := []) == s;
    assert e.out + [] == e.out;
  }

  /** What an end says to its own receiving direction when it only sends. */
  lemma InKept(k: Terms, f: Flow, me: Side, out: seq<Envelope>)
    requires Dir(k, f)
    requires me.hist.delivered == f.r.hist.delivered && me.half.peerEnded == f.r.half.peerEnded
    requires me.unconsumed == f.r.unconsumed && me.toGrant == f.r.toGrant
    requires ((me.status == f.r.status || f.r.status == NotYet) && me.partial == f.r.partial) || me.status == Dead
    requires Credits(out) == 0
    requires f.s.status == Dead && me.status != Dead ==> Close in Coming(f) || (f.s.half.endSent && f.s.half.peerEnded)
    ensures Dir(k, f.(r := me, rs := f.rs + out))
  {
    CreditsAppend(f.rs, out);
  }

  lemma QueueSumAppend(q: seq<Item>, i: Item)
    ensures ItemSum(q + [i]) == ItemSum(q) + ItemSize(i)
  {
    if q == [] {
      assert q + [i] == [i];
    } else {
      assert (q + [i])[1..] == q[1..] + [i];
      QueueSumAppend(q[1..], i);
    }
  }

  lemma PostKeeps(k: Terms, o: Options, isA: bool, f: Flow, p: Payload)
    requires TermsOk(k) && Local(k, o, isA, f.s) && Dir(k, f)
    requires k.codec.carries(p) && (k.chunk(p) ==> f.s.deal.enforced)
    ensures var e := PostPayload(k.codec, f.s, p);
            Local(k, o, isA, e.side) && e.out == [] && Dir(k, f.(s := e.side))
  {
    if f.s.status == Live && !f.s.half.ending {
      var e := PostPayload(k.codec, f.s, p);
      PostLocal(k, o, isA, f.s, p);
      hide Local, CodecOk;
      PostDir(k, f, p);
    }
  }

  lemma PostLocal(k: Terms, o: Options, isA: bool, s: Side, p: Payload)
    requires TermsOk(k) && Local(k, o, isA, s) && s.status == Live && !s.half.ending
    requires k.codec.carries(p) && (k.chunk(p) ==> s.deal.enforced)
    ensures var e := PostPayload(k.codec, s, p); Local(k, o, isA, e.side) && e.out == []
  {
    QueueSumAppend(s.queue, Send(p, Size(k.codec, s.deal.exact, p)));
    hide Flatten, HeldSum, CodecOk;
  }

  lemma PostDir(k: Terms, f: Flow, p: Payload)
    requires Dir(k, f) && f.s.status == Live && !f.s.half.ending && f.s.window != 0
    ensures Dir(k, f.(s := PostPayload(k.codec, f.s, p).side))
  {
    var n := Size(k.codec, f.s.deal.exact, p);
    var f' := f.(s := PostPayload(k.codec, f.s, p).side);
    PayloadsAppend(f.s.queue, [Send(p, n)]);
    assert Payloads([Send(p, n)]) == [p];
    assert Coming(f') == Coming(f);
    hide Data, Feed, Fits, Ordered, Quiet, Cost, Credits, Coming, Payloads;
    PostTransfer(k, f, f', p);
    hide Transfer;
    assert Half(k, f') && Life(f');
    hide Half, Life;
    assert Ledger(k, f') && Room(k, f');
  }

  lemma PostTransfer(k: Terms, f: Flow, f': Flow, p: Payload)
    requires Transfer(k, f) && Life(f) && f.s.status == Live && !f.s.half.ending && Half(k, f)
    requires f' == f.(s := f'.s) && Coming(f') == Coming(f) && f'.s.hist == f.s.hist.(posted := f.s.hist.posted + [p])
    requires Payloads(f'.s.queue) == Payloads(f.s.queue) + [p] && f'.s.half == f.s.half
    ensures Transfer(k, f')
  {
    hide Data, Feed, Coming, Payloads, Ordered, Quiet;
    if f.r.status != Dead {
      var g := Feed(k.codec, BufOf(f.r), Coming(f));
      assert f.r.hist.delivered + g.msgs + (Payloads(f.s.queue) + [p]) == f.r.hist.delivered + g.msgs + Payloads(f.s.queue) + [p];
    }
  }

  lemma EndDirKeeps(k: Terms, o: Options, isA: bool, f: Flow)
    requires TermsOk(k) && Local(k, o, isA, f.s) && Dir(k, f)
    ensures var s := EndDirection(f.s); Local(k, o, isA, s) && Dir(k, f.(s := s))
  {
    var s := EndDirection(f.s);
    if s != f.s {
      QueueSumAppend(f.s.queue, EndItem);
      PayloadsAppend(f.s.queue, [EndItem]);
      assert Coming(f.(s := s)) == Coming(f);
      assert s.queue[|f.s.queue|] == EndItem;
      assert Payloads([EndItem]) == [];
    }
  }

  lemma ComingPump(f: Flow)
    requires f.s.outgoing != [] && Plain(f.s.outgoing)
    ensures var e := f.s.outgoing[0];
            && Coming(f.(s := f.s.(outgoing := f.s.outgoing[1..]), sr := f.sr + [e])) == Coming(f)
            && Coming(f) == Data(f.sr) + [e] + f.s.outgoing[1..]
            && Data(f.sr + [e]) == Data(f.sr) + [e]
  {
    var e := f.s.outgoing[0];
    assert e in f.s.outgoing;
    DataAppend(f.sr, [e]);
    DataPlain([e]);
    assert f.s.outgoing == [e] + f.s.outgoing[1..];
  }

  /** One turn of the ring. */
  lemma PumpKeeps(k: Terms, f: Flow)
    requires TermsOk(k) && Dir(k, f)
    requires f.s.outgoing != [] && Plain(f.s.outgoing) && (f.s.status == Dead ==> f.s.queue == [])
    ensures var e := PumpOne(f.s);
            Dir(k, f.(s := e.side, sr := f.sr + e.out)) && Plain(e.out) && Plain(e.side.outgoing)
  {
    var x := f.s.outgoing[0];
    var e := PumpOne(f.s);
    assert x in f.s.outgoing;
    assert Plain(f.s.outgoing[1..]) by { forall y | y in f.s.outgoing[1..] ensures y in f.s.outgoing {} }
    if x.End? && f.s.status != Live {
      assert f.sr + e.out == f.sr;
      SkipEnd(k, f);
    } else {
      PumpSends(k, f);
    }
  }

  lemma PumpSends(k: Terms, f: Flow)
    requires Dir(k, f) && f.s.outgoing != [] && Plain(f.s.outgoing) && (f.s.status == Dead ==> f.s.queue == [])
    requires f.s.outgoing[0].End? ==> f.s.status == Live
    ensures var e := PumpOne(f.s); Dir(k, f.(s := e.side, sr := f.sr + e.out))
  {
    var e := PumpOne(f.s);
    var f' := f.(s := e.side, sr := f.sr + e.out);
    ComingPump(f);
    hide Data, Ordered, Feed, Fits, Quiet, Plain, Cost, Credits;
    assert Coming(f') == Coming(f);
    assert Room(k, f') by { RoomLoosens(k, f, f'); }
    assert Half(k, f') by { PumpHalf(k, f); }
    hide Room, Half;
    assert Transfer(k, f') by { if f.s.outgoing[0].End? { EndSentQueue(k, f); } }
    hide Transfer;
    assert Ledger(k, f');
    hide Ledger;
    assert Life(f');
  }

  lemma EndSentQueue(k: Terms, f: Flow)
    requires Half(k, f) && f.s.outgoing != [] && f.s.outgoing[0].End?
    ensures f.s.queue == []
  {
    assert f.s.outgoing[0] in f.s.outgoing;
    assert End in Coming(f);
  }

  lemma PumpHalf(k: Terms, f: Flow)
    requires Half(k, f) && f.s.outgoing != [] && Plain(f.s.outgoing)
    requires f.s.outgoing[0].End? ==> f.s.status == Live
    ensures var e := PumpOne(f.s); Half(k, f.(s := e.side, sr := f.sr + e.out))
  {
    var s := f.s;
    var x := s.outgoing[0];
    var e := PumpOne(s);
    var f' := f.(s := e.side, sr := f.sr + e.out);
    ComingPump(f);
    assert s.outgoing == [x] + s.outgoing[1..];
    assert Quiet(s.outgoing) ==> Quiet(s.outgoing[1..]);
    assert x in Coming(f);
    if x.End? {
      AfterEnd(Data(f.sr), s.outgoing[1..]);
      assert End in Data(f'.sr);
    } else {
      assert End in Data(f'.sr) ==> End in Data(f.sr);
    }
    hide Data, Ordered, Quiet;
  }

  lemma AfterEnd(x: seq<Envelope>, y: seq<Envelope>)
    requires Ordered(x + [End] + y)
    ensures Quiet(y)
  {
    var z := x + [End] + y;
    forall e | e in y ensures !Traffic(e) {
      var j :| 0 <= j < |y| && y[j] == e;
      assert z[|x|].End? && z[|x| + 1 + j] == e;
    }
  }

  /** A sender that leaves, and a receiver that owes less, keep the room. */
  lemma RoomLoosens(k: Terms, f: Flow, f': Flow)
    requires Room(k, f) && Coming(f') == Coming(f) && f'.tight == f.tight
    requires f'.r.status != Dead ==>
               && f.r.status != Dead && f'.r.partial == f.r.partial
               && f'.r.unconsumed + f'.r.toGrant <= f.r.unconsumed + f.r.toGrant
    requires f.s.hist.spilled ==> f'.s.hist.spilled
    ensures Room(k, f')
  {
    if f.tight && f'.r.status != Dead {
      FitsMono(GaugeOf(k), !f.s.hist.spilled, !f'.s.hist.spilled, RunOf(f.r), RunOf(f'.r),
               f.r.unconsumed + f.r.toGrant + PartialBytes(f.r),
               f'.r.unconsumed + f'.r.toGrant + PartialBytes(f'.r), Coming(f));
    }
  }

  lemma OrderedSkip(x: seq<Envelope>, y: seq<Envelope>)
    requires Ordered(x + [End] + y)
    ensures Ordered(x + y) && End !in x + y
  {
    var z := x + [End] + y;
    AfterEnd(x, y);
    forall i | 0 <= i < |x| ensures !x[i].End? {
      assert z[i] == x[i] && z[|x|].End?;
    }
  }

  /** The `end` of a port closed meanwhile is not sent. */
  lemma SkipEnd(k: Terms, f: Flow)
    requires Dir(k, f) && f.s.status != Live && f.s.queue == []
    requires f.s.outgoing != [] && f.s.outgoing[0].End?
    ensures Dir(k, f.(s := f.s.(outgoing := f.s.outgoing[1..])))
  {
    var rest := f.s.outgoing[1..];
    var f' := f.(s := f.s.(outgoing := rest));
    assert Coming(f) == Data(f.sr) + [End] + rest by { assert f.s.outgoing == [End] + rest; }
    assert f.s.outgoing[0] in f.s.outgoing;
    OrderedSkip(Data(f.sr), rest);
    assert Half(k, f') by { assert Quiet(Coming(f)) ==> Quiet(Coming(f')); }
    assert Close in Coming(f) ==> Close in Coming(f');
    SkipEndTransfer(k, f, rest);
    SkipEndRoom(k, f, rest);
  }

  lemma SkipEndTransfer(k: Terms, f: Flow, rest: seq<Envelope>)
    requires Transfer(k, f) && f.s.outgoing == [End] + rest
    ensures Transfer(k, f.(s := f.s.(outgoing := rest)))
  {
    assert Coming(f) == Data(f.sr) + [End] + rest == Data(f.sr) + ([End] + rest);
    if f.r.status != Dead {
      FeedPrefixOk(k.codec, BufOf(f.r), Data(f.sr), [End] + rest);
      FeedSkipsEnd(k.codec, BufOf(f.r), Data(f.sr), rest);
    }
  }

  lemma SkipEndRoom(k: Terms, f: Flow, rest: seq<Envelope>)
    requires Room(k, f) && f.s.status != Live && f.s.outgoing == [End] + rest
    ensures Room(k, f.(s := f.s.(outgoing := rest)))
  {
    var f' := f.(s := f.s.(outgoing := rest));
    assert Coming(f) == Data(f.sr) + [End] + rest;
    forall e | e in Coming(f') ensures e in Coming(f) {}
    if f.r.status != Dead && f.tight {
      FitsSkipsEnd(GaugeOf(k), !f.s.hist.spilled, RunOf(f.r),
                   f.r.unconsumed + f.r.toGrant + PartialBytes(f.r), Data(f.sr), rest);
    }
  }

  lemma {:induction false} ClosedHasClose(c: Codec, buf: Bytes, d: seq<Envelope>)
    ensures Feed(c, buf, d).closed ==> Close in d
    decreases |d|
  {
    if d != [] {
      assert d == [d[0]] + d[1..];
      match d[0]
      case Close =>
      case Message(_) => ClosedHasClose(c, buf, d[1..]);
      case Frame(x, last) => ClosedHasClose(c, if last then [] else buf + x, d[1..]);
      case _ => ClosedHasClose(c, buf, d[1..]);
    }
  }

  /** The queue's head behind everything the port has already let go of. */
  function Queued(o: Options, c: Codec, s: Side): Side
    requires OptionsOk(o) && CanFlush(s)
  {
    var i := s.queue[0];
    var t := s.(queue := s.queue[1..], queued := if ItemSize(i) <= s.queued then s.queued - ItemSize(i) else 0,
                outstanding := s.outstanding + ItemSize(i));
    t.(outgoing := s.outgoing + Leaving(o, c, s, i, false))
  }

  predicate PartialOk(s: Side) {
    s.partial.Some? ==>
      && s.partial.value.bytes == |Flatten(s.partial.value.chunks)|
      && s.partial.value.bytes > 0
  }

  /** What one queued item puts on the port: its payload, its cost, and it fits. */
  lemma LeavingFacts(k: Terms, o: Options, isA: bool, s: Side)
    requires TermsOk(k) && OptionsOk(o) && Local(k, o, isA, s) && CanFlush(s)
    ensures var i := s.queue[0];
            var es := Leaving(o, k.codec, s, i, false);
            && Plain(es) && Close !in es && (End in es <==> i.EndItem?)
            && (i.EndItem? ==> es == [End])
            && Feed(k.codec, [], es) == Fed(if i.Send? then [i.payload] else [], [], false, true)
            && (s.deal.exact == Mode(k) ==> Cost(k.codec, Mode(k), es) == ItemSize(i))
            && (!Mode(k) ==> forall e :: e in es ==> !e.Frame?)
  {
    var i := s.queue[0];
    var es := Leaving(o, k.codec, s, i, false);
    match i
    case EndItem => assert es[1..] == [];
    case Send(p, n) =>
      if es == [Message(p)] {
        assert es[1..] == [];
      } else {
        var bytes := k.codec.encode(p);
        assert [] + bytes == bytes;
        PiecesAreFrames(bytes, o.frameSize.value);
        FeedPieces(k.codec, [], bytes, o.frameSize.value, p);
        CostPieces(k.codec, Mode(k), bytes, o.frameSize.value);
      }
  }

  lemma LeavingFits(k: Terms, o: Options, isA: bool, s: Side, owed: nat, kept: bool)
    requires TermsOk(k) && OptionsOk(o) && Local(k, o, isA, s) && CanFlush(s)
    requires owed <= s.outstanding && s.deal.exact == Mode(k)
    ensures Fits(GaugeOf(k), kept, Idle, owed, Leaving(o, k.codec, s, s.queue[0], false))
  {
    var i := s.queue[0];
    if i.Send? {
      var n := i.bytes;
      assert s.queue[0].bytes == Size(k.codec, s.deal.exact, i.payload) >= 1;
      if Leaving(o, k.codec, s, i, false) != [Message(i.payload)] {
        FitsPieces(GaugeOf(k), kept, Idle, owed, k.codec.encode(i.payload), o.frameSize.value);
      }
    }
  }

  lemma SizingOf(k: Terms, o: Options, isA: bool, f: Flow)
    requires Local(k, o, isA, f.s) && f.s.status == Live && f.tight == (!isA || Agreed(k))
    ensures f.tight || f.s.deal.enforced ==> f.s.deal.exact == Mode(k)
  {
  }

  lemma AppendTransfer(k: Terms, f: Flow, s': Side, es: seq<Envelope>, m: seq<Payload>)
    requires Transfer(k, f) && Life(f) && f.s.status == Live && s'.hist == f.s.hist
    requires Coming(f.(s := s')) == Coming(f) + es
    requires Feed(k.codec, [], es) == Fed(m, [], false, true)
    requires m + Payloads(s'.queue) == Payloads(f.s.queue)
    ensures Transfer(k, f.(s := s'))
  {
    if f.r.status != Dead {
      ClosedHasClose(k.codec, BufOf(f.r), Coming(f));
      FeedAppend(k.codec, BufOf(f.r), Coming(f), es);
      var g := Feed(k.codec, BufOf(f.r), Coming(f));
      hide Data, Payloads, Feed;
      assert f.r.hist.delivered + (g.msgs + m) + Payloads(s'.queue)
          == f.r.hist.delivered + g.msgs + (m + Payloads(s'.queue));
    }
  }

  lemma QueuedShape(o: Options, c: Codec, f: Flow)
    requires OptionsOk(o) && CanFlush(f.s)
    ensures var q := Queued(o, c, f.s);
            var m := if f.s.queue[0].Send? then [f.s.queue[0].payload] else [];
            && q.hist == f.s.hist && q.half == f.s.half && q.status == Live && f.s.status == Live
            && Coming(f.(s := q)) == Coming(f) + Leaving(o, c, f.s, f.s.queue[0], false)
            && m + Payloads(q.queue) == Payloads(f.s.queue)
  {
    hide Data, Leaving;
    var es := Leaving(o, c, f.s, f.s.queue[0], false);
    assert Coming(f.(s := Queued(o, c, f.s))) == Data(f.sr) + (f.s.outgoing + es);
  }

  lemma QueuedHalf(k: Terms, o: Options, isA: bool, f: Flow)
    requires TermsOk(k) && OptionsOk(o) && Local(k, o, isA, f.s) && CanFlush(f.s) && Half(k, f)
    ensures Half(k, f.(s := Queued(o, k.codec, f.s)))
  {
    var i := f.s.queue[0];
    var es := Leaving(o, k.codec, f.s, i, false);
    LeavingFacts(k, o, isA, f.s);
    QueuedShape(o, k.codec, f);
    assert i.EndItem? ==> f.s.half.ending && f.s.queue[1..] == [] by { assert f.s.queue[0].EndItem? <==> i.EndItem?; }
    assert EndItem in f.s.queue ==> i.EndItem? || EndItem in f.s.queue[1..];
    hide CodecOk, Local, Feed, Cost, Leaving, Data, Coming;
    HalfAppend(k, f, Queued(o, k.codec, f.s), es);
  }

  lemma HalfAppend(k: Terms, f: Flow, q: Side, es: seq<Envelope>)
    requires Half(k, f) && Coming(f.(s := q)) == Coming(f) + es && f.s.queue != [] && f.s.status == q.status == Live
    requires q.half == f.s.half && q.queue == f.s.queue[1..]
    requires End !in es || (es == [End] && q.queue == [] && f.s.half.ending)
    requires EndItem in f.s.queue ==> End in es || EndItem in q.queue
    ensures Half(k, f.(s := q))
  {
    var f' := f.(s := q);
    hide Data, Coming;
    forall a | 0 <= a < |Coming(f)| ensures !Coming(f')[a].End? {
      assert Coming(f')[a] in Coming(f);
    }
    if End in es {
      assert Coming(f')[|Coming(f)|] == End;
    } else {
      assert End !in Coming(f');
    }
  }

  lemma QueuedLedger(k: Terms, o: Options, isA: bool, f: Flow)
    requires TermsOk(k) && OptionsOk(o) && Local(k, o, isA, f.s) && CanFlush(f.s) && Ledger(k, f)
    requires f.tight == (!isA || Agreed(k))
    ensures Ledger(k, f.(s := Queued(o, k.codec, f.s)))
  {
    var es := Leaving(o, k.codec, f.s, f.s.queue[0], false);
    LeavingFacts(k, o, isA, f.s);
    assert Coming(f.(s := Queued(o, k.codec, f.s))) == Coming(f) + es;
    CostAppend(k.codec, Mode(k), Coming(f), es);
    SizingOf(k, o, isA, f);
  }

  lemma QueuedRoom(k: Terms, f: Flow, s': Side, es: seq<Envelope>)
    requires Room(k, f) && Coming(f.(s := s')) == Coming(f) + es && f.s.hist == s'.hist && f.s.status == s'.status == Live
    requires !Mode(k) ==> forall e :: e in es ==> !e.Frame?
    requires f.tight && f.r.status != Dead ==>
               Fits(GaugeOf(k), !f.s.hist.spilled, RunOf(f.r),
                    f.r.unconsumed + f.r.toGrant + PartialBytes(f.r), Coming(f) + es)
    ensures Room(k, f.(s := s'))
  {
    forall e | e in Coming(f) + es ensures e in Coming(f) || e in es {}
  }

  lemma QueuedFits(k: Terms, o: Options, isA: bool, f: Flow)
    requires TermsOk(k) && OptionsOk(o) && Local(k, o, isA, f.s) && CanFlush(f.s)
    requires Transfer(k, f) && Life(f) && Ledger(k, f) && Room(k, f) && f.r.status != Dead
    requires f.tight && f.tight == (!isA || Agreed(k)) && PartialOk(f.r)
    ensures Fits(GaugeOf(k), !f.s.hist.spilled, RunOf(f.r), f.r.unconsumed + f.r.toGrant + PartialBytes(f.r),
                 Coming(f) + Leaving(o, k.codec, f.s, f.s.queue[0], false))
  {
    var es := Leaving(o, k.codec, f.s, f.s.queue[0], false);
    var owed := f.r.unconsumed + f.r.toGrant + PartialBytes(f.r);
    ClosedHasClose(k.codec, BufOf(f.r), Coming(f));
    IdleAfter(GaugeOf(k), RunOf(f.r), owed, BufOf(f.r), Coming(f));
    SizingOf(k, o, isA, f);
    LeavingFits(k, o, isA, f.s, owed + Cost(k.codec, Mode(k), Coming(f)), !f.s.hist.spilled);
    FitsAppend(GaugeOf(k), !f.s.hist.spilled, RunOf(f.r), owed, Coming(f), es);
  }

  lemma QueuedLocal(k: Terms, o: Options, isA: bool, s: Side)
    requires TermsOk(k) && OptionsOk(o) && Local(k, o, isA, s) && CanFlush(s)
    ensures Local(k, o.(frameSize := Some(1)), isA, Queued(o, k.codec, s))
  {
    LeavingFacts(k, o, isA, s);
    var s' := Queued(o, k.codec, s);
    forall i | 0 <= i < |s'.queue| ensures s'.queue[i] == s.queue[i + 1] {}
  }

  lemma QueuedKeeps(k: Terms, o: Options, isA: bool, f: Flow)
    requires TermsOk(k) && OptionsOk(o) && Local(k, o, isA, f.s) && CanFlush(f.s) && Dir(k, f)
    requires f.tight == (!isA || Agreed(k)) && PartialOk(f.r)
    ensures Dir(k, f.(s := Queued(o, k.codec, f.s)))
  {
    var q := Queued(o, k.codec, f.s);
    var i := f.s.queue[0];
    var es := Leaving(o, k.codec, f.s, i, false);
    LeavingFacts(k, o, isA, f.s);
    QueuedShape(o, k.codec, f);
    hide CodecOk, Transfer, Half, Ledger, Room, Life, Feed, Local, Fits, Queued, Leaving, Coming, Plain, Cost, Payloads;
    AppendTransfer(k, f, q, es, if i.Send? then [i.payload] else []);
    QueuedHalf(k, o, isA, f);
    QueuedLedger(k, o, isA, f);
    if f.tight && f.r.status != Dead {
      QueuedFits(k, o, isA, f);
    }
    QueuedRoom(k, f, q, es);
    QueuedLife(f, q, es);
  }

  lemma QueuedLife(f: Flow, q: Side, es: seq<Envelope>)
    requires Life(f) && Coming(f.(s := q)) == Coming(f) + es && Close !in es
    requires f.s.status == q.status == Live && q.hist == f.s.hist
    requires q.half == f.s.half
    ensures Life(f.(s := q))
  {
  }

  /** One turn of `flush`. */
  lemma FlushKeeps(k: Terms, o: Options, isA: bool, f: Flow)
    requires TermsOk(k) && OptionsOk(o) && Local(k, o, isA, f.s) && CanFlush(f.s) && Dir(k, f)
    requires f.tight == (!isA || Agreed(k)) && PartialOk(f.r)
    ensures var e := FlushOne(o, k.codec, f.s);
            && Dir(k, f.(s := e.side, sr := f.sr + e.out)) && Local(k, o, isA, e.side) && Plain(e.out)
  {
    hide Dir, CodecOk, Queued, FlushOne, QueueOk, CanFlush, Plain;
    var q := Queued(o, k.codec, f.s);
    QueuedKeeps(k, o, isA, f);
    QueuedLocal(k, o, isA, f.s);
    LeavingPlain(k, o, isA, f.s);
    FlushIsQueued(o, k.codec, f.s);
    if o.frameSize.Some? {
      assert f.sr + [] == f.sr;
      EmptyPlain();
    } else {
      PumpKeeps(k, f.(s := q));
      PumpLocal(k, o, isA, q);
    }
  }

  lemma PumpTakesHead(s: Side)
    requires s.outgoing != []
    ensures PumpOne(s).side.outgoing == s.outgoing[1..]
  {
  }

  lemma LocalOutgoing(k: Terms, o: Options, o': Options, isA: bool, s: Side, es: seq<Envelope>, sent: bool)
    requires Local(k, o, isA, s) && Plain(es) && (o'.frameSize.None? ==> es == [])
    requires s.status == NotYet ==> es == [] && !sent
    ensures Local(k, o', isA, s.(outgoing := es, half := s.half.(endSent := sent)))
  {
    hide Flatten, HeldSum, ItemSum, Size;
    var s' := s.(outgoing := es, half := s.half.(endSent := sent));
    assert s'.queue == s.queue;
    assert QueueOk(k, s');
  }

  lemma LocalDie(k: Terms, o: Options, isA: bool, s: Side)
    requires Local(k, o, isA, s)
    ensures Local(k, o, isA, Die(s))
  {
    hide Flatten, HeldSum, Size;
    assert QueueOk(k, Die(s));
  }

  lemma LocalSpill(k: Terms, o: Options, isA: bool, s: Side)
    requires Local(k, o, isA, s) && s.status != NotYet
    ensures Local(k, o, isA, Spill(s))
  {
    hide Flatten, HeldSum, Size;
    assert QueueOk(k, Spill(s));
  }

  lemma PumpLocal(k: Terms, o: Options, isA: bool, s: Side)
    requires Local(k, o.(frameSize := Some(1)), isA, s) && s.outgoing != [] && s.status != NotYet
    requires o.frameSize.None? ==> s.outgoing[1..] == []
    ensures Local(k, o, isA, PumpOne(s).side)
  {
    assert Plain(s.outgoing[1..]) by { forall e | e in s.outgoing[1..] ensures e in s.outgoing {} }
    hide Local, Plain;
    LocalOutgoing(k, o.(frameSize := Some(1)), o, isA, s, s.outgoing[1..], s.half.endSent);
    LocalOutgoing(k, o.(frameSize := Some(1)), o, isA, s, s.outgoing[1..], true);
    LocalDie(k, o, isA, s.(outgoing := s.outgoing[1..], half := s.half.(endSent := true)));
  }

  lemma EmptyPlain()
    ensures Plain([])
  {
  }

  lemma LeavingPlain(k: Terms, o: Options, isA: bool, s: Side)
    requires TermsOk(k) && OptionsOk(o) && Local(k, o, isA, s) && CanFlush(s)
    ensures Plain(Leaving(o, k.codec, s, s.queue[0], false)) && s.status == Live
  {
    LeavingFacts(k, o, isA, s);
  }

  lemma FlushIsQueued(o: Options, c: Codec, s: Side)
    requires OptionsOk(o) && CanFlush(s) && (o.frameSize.None? ==> s.outgoing == [])
    requires Plain(Leaving(o, c, s, s.queue[0], false))
    ensures Queued(o, c, s).status == Live
    ensures o.frameSize.Some? ==> FlushOne(o, c, s) == Effect(Queued(o, c, s), [])
    ensures o.frameSize.None? ==> FlushOne(o, c, s) == PumpOne(Queued(o, c, s))
    ensures o.frameSize.None? ==> |Queued(o, c, s).outgoing| == 1 && PumpOne(Queued(o, c, s)).side.outgoing == []
  {
    hide SendAllOnPort, Pieces, PumpOne, Emit;
    var q := Queued(o, c, s);
    var t := q.(outgoing := s.outgoing);
    var es := Leaving(o, c, s, s.queue[0], false);
    assert FlushOne(o, c, s) == SendAllOnPort(o, t, es);
    if o.frameSize.Some? {
      SendAllShape(o, t, es);
    } else {
      assert es == [es[0]];
      SendOneIsPump(o, t, es[0]);
      assert q == t.(outgoing := [es[0]]);
      PumpTakesHead(q);
    }
  }
}
