/** Every way an end leaves the port keeps both directions. */
module PortCloseSteps {
  import opened Basics
  import opened PortSide
  import opened PortWire
  import opened PortWorld
  import opened PortSendSteps

  // ----- abandoning: the close goes straight to the pipe -----

  lemma OrderedAround(x: seq<Envelope>, y: seq<Envelope>)
    requires Ordered(x + y)
    ensures Ordered(x + [Close] + y) && Ordered(x + [Close])
  {
    var z := x + [Close] + y;
    forall i, j | 0 <= i < j < |z| && z[i].End? ensures !Traffic(z[j]) {
      var back := (n: int) => if n <= |x| then n else n - 1;
      if i != |x| && j != |x| {
        assert (x + y)[back(i)] == z[i] && (x + y)[back(j)] == z[j];
      }
    }
    var u := x + [Close];
    forall i, j | 0 <= i < j < |u| && u[i].End? ensures !Traffic(u[j]) {
      assert u[i] == z[i] && u[j] == z[j];
    }
  }

  /** What follows a close is never looked at. */
  lemma {:induction false} FitsCut(g: Gauge, kept: bool, run: Run, owed: nat, x: seq<Envelope>, y: seq<Envelope>, z: seq<Envelope>)
    requires Fits(g, kept, run, owed, x + y)
    ensures Fits(g, kept, run, owed, x + [Close] + z)
    decreases |x|
  {
    if x == [] {
      assert x + [Close] + z == [Close] + z;
    } else {
      assert (x + y)[1..] == x[1..] + y;
      assert (x + [Close] + z)[1..] == x[1..] + [Close] + z;
      if !x[0].Close? {
        FitsCut(g, kept, NextRun(g, run, owed, x[0]), After(g, owed, x[0]), x[1..], y, z);
      }
    }
  }

  lemma FeedCut(c: Codec, buf: Bytes, x: seq<Envelope>, y: seq<Envelope>, z: seq<Envelope>)
    requires Feed(c, buf, x + y).ok
    ensures var g := Feed(c, buf, x + [Close] + z);
            g.ok && g.closed && g.msgs <= Feed(c, buf, x + y).msgs
  {
    FeedPrefixOk(c, buf, x, y);
    FeedAppend(c, buf, x, y);
    FeedAppend(c, buf, x, [Close] + z);
    assert x + [Close] + z == x + ([Close] + z);
  }

  function Abandoned(s: Side, left: seq<Envelope>): Side {
    Lost(Die(s)).(outgoing := left)
  }

  lemma {:induction false} FeedQuiet(c: Codec, buf: Bytes, d: seq<Envelope>)
    requires Quiet(d)
    ensures Feed(c, buf, d).ok && Feed(c, buf, d).msgs == []
    decreases |d|
  {
    if d != [] {
      assert d[0] in d;
      FeedQuiet(c, buf, d[1..]);
    }
  }

  lemma FeedCutQuiet(c: Codec, buf: Bytes, x: seq<Envelope>, y: seq<Envelope>, z: seq<Envelope>)
    requires Feed(c, buf, x + y).ok && Quiet(y)
    ensures Feed(c, buf, x + [Close] + z).msgs == Feed(c, buf, x + y).msgs
  {
    FeedPrefixOk(c, buf, x, y);
    FeedAppend(c, buf, x, y);
    FeedAppend(c, buf, x, [Close] + z);
    FeedQuiet(c, Feed(c, buf, x).buf, y);
    assert x + [Close] + z == x + ([Close] + z);
  }

  lemma AbandonTransfer(k: Terms, f: Flow, left: seq<Envelope>)
    requires Transfer(k, f)
    requires f.s.half.endSent ==> f.s.queue == [] && Quiet(f.s.outgoing)
    ensures Transfer(k, f.(s := Abandoned(f.s, left), sr := f.sr + [Close]))
  {
    var f' := f.(s := Abandoned(f.s, left), sr := f.sr + [Close]);
    DataAppend(f.sr, [Close]);
    assert Data([Close]) == [Close] by { assert [Close][1..] == []; }
    assert Coming(f') == Data(f.sr) + [Close] + left;
    if f.r.status != Dead {
      FeedCut(k.codec, BufOf(f.r), Data(f.sr), f.s.outgoing, left);
      var g, g' := Feed(k.codec, BufOf(f.r), Coming(f)), Feed(k.codec, BufOf(f.r), Coming(f'));
      assert g'.msgs <= g.msgs;
      PrefixChain(f.r.hist.delivered, g'.msgs, g.msgs, Payloads(f.s.queue), f.s.hist.posted);
      if f.s.half.endSent {
        FeedCutQuiet(k.codec, BufOf(f.r), Data(f.sr), f.s.outgoing, left);
      }
    }
  }

  lemma PrefixChain<T>(d: seq<T>, m': seq<T>, m: seq<T>, q: seq<T>, posted: seq<T>)
    requires m' <= m && d + m + q <= posted
    ensures d + m' + [] <= posted
  {
    assert d + m' + [] == d + m';
    assert forall i :: 0 <= i < |d + m'| ==> (d + m')[i] == (d + m + q)[i];
  }

  lemma AbandonHalf(k: Terms, f: Flow, left: seq<Envelope>)
    requires Half(k, f) && (left == [] || left == f.s.outgoing)
    ensures Half(k, f.(s := Abandoned(f.s, left), sr := f.sr + [Close]))
  {
    var f' := f.(s := Abandoned(f.s, left), sr := f.sr + [Close]);
    DataAppend(f.sr, [Close]);
    assert Data([Close]) == [Close] by { assert [Close][1..] == []; }
    assert Coming(f') == Data(f.sr) + [Close] + left;
    OrderedAround(Data(f.sr), f.s.outgoing);
    assert Coming(f') == Data(f.sr) + [Close] || Coming(f') == Data(f.sr) + [Close] + f.s.outgoing;
    forall e | e in Coming(f') ensures e in Coming(f) || e == Close {}
    assert End in Data(f'.sr) ==> End in Data(f.sr);
  }

  lemma AbandonRoom(k: Terms, f: Flow, left: seq<Envelope>)
    requires Room(k, f) && (left == [] || left == f.s.outgoing)
    ensures Room(k, f.(s := Abandoned(f.s, left), sr := f.sr + [Close]))
  {
    var f' := f.(s := Abandoned(f.s, left), sr := f.sr + [Close]);
    DataAppend(f.sr, [Close]);
    assert Data([Close]) == [Close] by { assert [Close][1..] == []; }
    assert Coming(f') == Data(f.sr) + [Close] + left;
    forall e | e in Coming(f') ensures e in Coming(f) || e == Close {}
    if f.tight && f.r.status != Dead {
      var owed := f.r.unconsumed + f.r.toGrant + PartialBytes(f.r);
      FitsCut(GaugeOf(k), !f.s.hist.spilled, RunOf(f.r), owed, Data(f.sr), f.s.outgoing, left);
    }
  }

  /** A refused port, a failed one, and every port of a closing multiplexer. */
  lemma AbandonKeeps(k: Terms, o: Options, isA: bool, f: Flow, left: seq<Envelope>)
    requires Dir(k, f) && Local(k, o, isA, f.s) && f.s.status != NotYet
    requires left == [] || left == f.s.outgoing
    ensures Dir(k, f.(s := Abandoned(f.s, left), sr := f.sr + [Close]))
    ensures Local(k, o, isA, Abandoned(f.s, left))
  {
    EndSentFacts(k, f);
    hide Transfer, Half, Room, Local, Data, Credits;
    AbandonTransfer(k, f, left);
    AbandonHalf(k, f, left);
    AbandonRoom(k, f, left);
    CloseArrives(f.sr, left);
    AbandonLocal(k, o, isA, f.s, left);
  }

  lemma EndSentFacts(k: Terms, f: Flow)
    requires Half(k, f)
    ensures f.s.half.endSent ==> f.s.queue == [] && Quiet(f.s.outgoing)
  {
  }

  lemma CloseArrives(sr: seq<Envelope>, left: seq<Envelope>)
    ensures Close in Data(sr + [Close]) + left
  {
    DataIn(sr + [Close], Close);
    assert (sr + [Close])[|sr|] == Close;
  }

  lemma AbandonLocal(k: Terms, o: Options, isA: bool, s: Side, left: seq<Envelope>)
    requires Local(k, o, isA, s) && s.status != NotYet && (left == [] || left == s.outgoing)
    ensures Local(k, o, isA, Abandoned(s, left))
  {
    hide Flatten, HeldSum, Size;
    assert Plain(left);
    assert QueueOk(k, Abandoned(s, left));
  }

  // ----- closing: what is queued leaves first -----

  lemma {:induction false} WholePlain(q: seq<Item>)
    ensures Plain(WholeItems(q) + [Close])
    ensures forall e :: e in WholeItems(q) + [Close] ==> !e.Frame?
    ensures End in WholeItems(q) + [Close] <==> EndItem in q
  {
    if q != [] {
      WholePlain(q[1..]);
      var head := if q[0].EndItem? then End else Message(q[0].payload);
      assert WholeItems(q) == [head] + WholeItems(q[1..]);
      assert WholeItems(q) + [Close] == [head] + (WholeItems(q[1..]) + [Close]);
      assert q == [q[0]] + q[1..];
    }
  }

  /** A queue ends with its `end`, if it has one. */
  predicate EndsLast(q: seq<Item>) {
    forall i :: 0 <= i < |q| && q[i].EndItem? ==> i == |q| - 1
  }

  lemma {:induction false} WholeOrdered(q: seq<Item>)
    requires EndsLast(q)
    ensures Ordered(WholeItems(q) + [Close]) && |WholeItems(q)| == |q|
    ensures Ordered(WithoutEnd(WholeItems(q) + [Close]))
  {
    var es := WholeItems(q) + [Close];
    assert End !in WithoutEnd(es) by { WithoutEndIn(es, End); }
    forall i | 0 <= i < |WithoutEnd(es)| ensures !WithoutEnd(es)[i].End? {
      assert WithoutEnd(es)[i] in WithoutEnd(es);
    }
    WholeAt(q);
  }

  lemma {:induction false} WholeAt(q: seq<Item>)
    ensures |WholeItems(q)| == |q|
    ensures forall i :: 0 <= i < |q| ==> (WholeItems(q)[i].End? <==> q[i].EndItem?)
  {
    if q != [] {
      WholeAt(q[1..]);
    }
  }

  /** What a closing end lets go of, as its peer will see it. */
  function Farewell(o: Options, s: Side): seq<Envelope> {
    var es := WholeItems(s.queue) + [Close];
    if o.frameSize.None? then WithoutEnd(es) else es
  }

  lemma CloseShape(k: Terms, o: Options, isA: bool, f: Flow)
    requires Local(k, o, isA, f.s) && f.s.status == Live
    ensures var e := CloseSide(o, f.s);
            && e.side == Spill(f.s).(outgoing := e.side.outgoing)
            && Coming(f.(s := e.side, sr := f.sr + e.out)) == Coming(f) + Farewell(o, f.s)
            && Plain(e.out) && Plain(e.side.outgoing) && End !in Data(e.out)
            && (o.frameSize.None? ==> e.side.outgoing == [])
            && (o.frameSize.Some? ==> e.out == [] && e.side.outgoing == f.s.outgoing + Farewell(o, f.s))
  {
    var es := WholeItems(f.s.queue) + [Close];
    WholePlain(f.s.queue);
    LocalWire(k, o, isA, f.s);
    hide Local, WholeItems, WithoutEnd, CloseSide;
    CloseShapeFramed(o, f.s, es);
    var e := CloseSide(o, f.s);
    hide Data, Coming, Spill;
    if o.frameSize.None? {
      WithoutEndIn(es, End);
      DataPlain(e.out);
      ComingSent(f, e.side, e.out);
    } else {
      ComingQueued(f, e.side, es);
    }
  }

  /** What leaves at once, where nothing waits in the ring. */
  lemma ComingSent(f: Flow, s': Side, out: seq<Envelope>)
    requires f.s.outgoing == [] && s'.outgoing == [] && Plain(out)
    ensures Coming(f.(s := s', sr := f.sr + out)) == Coming(f) + out
  {
    DataPlain(out);
    DataAppend(f.sr, out);
    hide Data;
  }

  lemma ComingQueued(f: Flow, s': Side, es: seq<Envelope>)
    requires s'.outgoing == f.s.outgoing + es
    ensures Coming(f.(s := s', sr := f.sr + [])) == Coming(f) + es
  {
    assert f.sr + [] == f.sr;
    hide Data;
  }

  lemma LocalWire(k: Terms, o: Options, isA: bool, s: Side)
    requires Local(k, o, isA, s)
    ensures Plain(s.outgoing) && (o.frameSize.None? ==> s.outgoing == []) && EndsLast(s.queue)
    ensures EndItem in s.queue ==> s.half.ending
    ensures PartialOk(s)
  {
  }

  lemma CloseShapeFramed(o: Options, s: Side, es: seq<Envelope>)
    requires s.status == Live && es == WholeItems(s.queue) + [Close] && Plain(es)
    requires Plain(s.outgoing) && (o.frameSize.None? ==> s.outgoing == [])
    ensures var e := CloseSide(o, s);
            && e.side == Spill(s).(outgoing := if o.frameSize.None? then [] else s.outgoing + es)
            && e.out == (if o.frameSize.None? then WithoutEnd(es) else [])
            && Plain(e.out) && Plain(e.side.outgoing)
  {
    SendAllShape(o, Spill(s), es);
  }

  lemma CloseTransfer(k: Terms, f: Flow, s': Side, sr': seq<Envelope>, es: seq<Envelope>)
    requires Transfer(k, f) && Life(f) && f.s.status == Live
    requires s'.hist.posted == f.s.hist.posted && s'.queue == [] && s'.hist.dropped == f.s.hist.dropped
    requires Coming(f.(s := s', sr := sr')) == Coming(f) + es
    requires Feed(k.codec, [], es) == Fed(Payloads(f.s.queue), [], true, true)
    ensures Transfer(k, f.(s := s', sr := sr'))
  {
    if f.r.status != Dead {
      ClosedHasClose(k.codec, BufOf(f.r), Coming(f));
      FeedAppend(k.codec, BufOf(f.r), Coming(f), es);
      var g := Feed(k.codec, BufOf(f.r), Coming(f));
      assert f.r.hist.delivered + (g.msgs + Payloads(f.s.queue)) + [] == f.r.hist.delivered + g.msgs + Payloads(f.s.queue);
    }
  }

  lemma FarewellOrdered(k: Terms, o: Options, isA: bool, f: Flow)
    requires Half(k, f) && Local(k, o, isA, f.s) && f.s.status == Live
    ensures Ordered(Coming(f) + Farewell(o, f.s))
    ensures f.s.queue == [] ==> Farewell(o, f.s) == [Close]
    ensures End in Coming(f) + Farewell(o, f.s) ==> f.s.half.ending
    ensures Close in Farewell(o, f.s)
  {
    var es := Farewell(o, f.s);
    var all := Coming(f) + es;
    var whole := WholeItems(f.s.queue) + [Close];
    LocalWire(k, o, isA, f.s);
    WholePlain(f.s.queue);
    WholeOrdered(f.s.queue);
    WithoutEndIn(whole, End);
    WithoutEndIn(whole, Close);
    assert whole[|whole| - 1] == Close;
    hide Ordered, Data, Local;
    if f.s.queue == [] {
      assert es == [Close] by { assert [Close][1..] == []; }
      OrderedAround(Coming(f), []);
      assert Coming(f) + [] == Coming(f);
    } else {
      OrderedThen(Coming(f), es);
    }
  }

  lemma OrderedThen(x: seq<Envelope>, y: seq<Envelope>)
    requires End !in x && Ordered(y)
    ensures Ordered(x + y)
  {
    var z := x + y;
    forall a | 0 <= a < |x| ensures z[a] != End { assert z[a] in x; }
    forall i, j | 0 <= i < j < |z| && z[i].End? ensures !Traffic(z[j]) {
      assert z[i] == End;
      assert y[i - |x|] == End && y[j - |x|] == z[j];
    }
  }

  lemma CloseHalf(k: Terms, f: Flow, s': Side, sr': seq<Envelope>, es: seq<Envelope>)
    requires Half(k, f) && f.s.status == Live
    requires s' == Spill(f.s).(outgoing := s'.outgoing)
    requires Coming(f.(s := s', sr := sr')) == Coming(f) + es && Ordered(Coming(f) + es)
    requires f.s.queue == [] ==> es == [Close]
    requires End in Coming(f) + es ==> f.s.half.ending
    requires End in Data(sr') <==> End in Data(f.sr)
    requires s'.outgoing == [] || s'.outgoing == f.s.outgoing + es
    ensures Half(k, f.(s := s', sr := sr'))
  {
    hide Data;
  }

  lemma CloseRoom(k: Terms, o: Options, isA: bool, f: Flow, s': Side, sr': seq<Envelope>)
    requires Room(k, f) && Transfer(k, f) && Life(f) && f.s.status == Live && PartialOk(f.r)
    requires s' == Spill(f.s).(outgoing := s'.outgoing)
    requires Coming(f.(s := s', sr := sr')) == Coming(f) + Farewell(o, f.s)
    ensures Room(k, f.(s := s', sr := sr'))
  {
    var es := Farewell(o, f.s);
    var whole := WholeItems(f.s.queue) + [Close];
    WholePlain(f.s.queue);
    forall e | e in es ensures !e.Frame? { WithoutEndIn(whole, e); }
    forall e | e in Coming(f) + es ensures e in Coming(f) || e in es {}
    hide Fits, Feed, Cost, Coming, RunAfter, WholeItems, WithoutEnd;
    if f.tight && f.r.status != Dead {
      var owed := f.r.unconsumed + f.r.toGrant + PartialBytes(f.r);
      ClosedHasClose(k.codec, BufOf(f.r), Coming(f));
      IdleAfter(GaugeOf(k), RunOf(f.r), owed, BufOf(f.r), Coming(f));
      FitsMono(GaugeOf(k), !f.s.hist.spilled, !s'.hist.spilled, RunOf(f.r), RunOf(f.r), owed, owed, Coming(f));
      FitsWhole(GaugeOf(k), owed + Cost(k.codec, Mode(k), Coming(f)), f.s.queue, !s'.hist.spilled);
      FitsAppend(GaugeOf(k), !s'.hist.spilled, RunOf(f.r), owed, Coming(f), es);
    }
  }

  lemma CloseLocal(k: Terms, o: Options, isA: bool, s: Side, out: seq<Envelope>)
    requires Local(k, o, isA, s) && s.status == Live && Plain(out) && (o.frameSize.None? ==> out == [])
    ensures Local(k, o, isA, Spill(s).(outgoing := out))
  {
    hide Local;
    LocalOutgoing(k, o, o, isA, s, out, s.half.endSent);
    LocalSpill(k, o, isA, s.(outgoing := out));
  }

  lemma CloseDir(k: Terms, o: Options, isA: bool, f: Flow, e: Effect)
    requires Local(k, o, isA, f.s) && Dir(k, f) && PartialOk(f.r) && f.s.status == Live && e == CloseSide(o, f.s)
    ensures Dir(k, f.(s := e.side, sr := f.sr + e.out))
  {
    var es, sr' := Farewell(o, f.s), f.sr + e.out;
    CloseShape(k, o, isA, f);
    FarewellOrdered(k, o, isA, f);
    FeedWhole(k.codec, f.s.queue);
    DataAppend(f.sr, e.out);
    hide CloseSide, Local, Transfer, Room, Ledger, Half, Life, Feed, WithoutEnd, WholeItems, Data, Ordered, Plain, PartialOk;
    CloseTransfer(k, f, e.side, sr', es);
    CloseLife(f, e.side, sr', es);
    CloseHalf(k, f, e.side, sr', es);
    CloseRoom(k, o, isA, f, e.side, sr');
    DeadLedger(k, f.(s := e.side, sr := sr'));
  }

  /** The consumer closes the port. */
  lemma CloseKeeps(k: Terms, o: Options, isA: bool, f: Flow)
    requires Local(k, o, isA, f.s) && Dir(k, f) && PartialOk(f.r)
    ensures var e := CloseSide(o, f.s);
            && Dir(k, f.(s := e.side, sr := f.sr + e.out)) && Local(k, o, isA, e.side) && Plain(e.out)
  {
    hide Dir, Local, SendAllOnPort;
    var e := CloseSide(o, f.s);
    if f.s.status == Live {
      CloseShape(k, o, isA, f);
      CloseDir(k, o, isA, f, e);
      CloseLocal(k, o, isA, f.s, e.side.outgoing);
    } else {
      assert f.sr + e.out == f.sr;
    }
  }

  lemma CloseLife(f: Flow, s': Side, sr': seq<Envelope>, es: seq<Envelope>)
    requires s'.status == Dead && Coming(f.(s := s', sr := sr')) == Coming(f) + es && Close in es
    ensures Life(f.(s := s', sr := sr'))
  {
  }

  lemma DeadLedger(k: Terms, f: Flow)
    requires f.s.status == Dead
    ensures Ledger(k, f)
  {
  }
}
