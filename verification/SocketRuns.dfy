/** Every run of two socket ends keeps their accounts, and delivers what was sent, in order. */
module SocketRuns {
  import opened Basics
  import opened Socket

  lemma {:induction false} Appended(x: seq<Frame>, y: seq<Frame>)
    ensures Size(x + y) == Size(x) + Size(y) && Acks(x + y) == Acks(x) + Acks(y) && Messages(x + y) == Messages(x) + Messages(y)
  {
    if x == [] {
      assert x + y == y;
    } else {
      assert (x + y)[1..] == x[1..] + y;
      Appended(x[1..], y);
      var h := if x[0].Message? then [x[0].data] else [];
      assert h + (Messages(x[1..]) + Messages(y)) == (h + Messages(x[1..])) + Messages(y);
    }
  }

  lemma One(f: Frame)
    ensures Size([f]) == (if f.Message? then |f.data| else 0) && Acks([f]) == (if f.Ack? then f.n else 0)
    ensures Messages([f]) == if f.Message? then [f.data] else []
  {
    assert [f][1..] == [];
  }

  /** What a step of one end leaves of both directions. */
  predicate Kept(fo: Flow, fi: Flow, e: Effect, inbox: seq<Frame>) {
    EndOk(e.end) && Dir(fo.(s := e.end, sr := fo.sr + e.out, rs := inbox)) && Dir(fi.(r := e.end, sr := inbox, rs := fi.rs + e.out))
  }

  predicate View(fo: Flow, fi: Flow) {
    fi == Flow(fo.r, fo.s, fo.rs, fo.sr) && EndOk(fo.s) && EndOk(fo.r) && Dir(fo) && Dir(fi)
  }

  /** How an end's state moves on. */
  predicate Later(x: State, y: State) {
    y == x || y == Closed || (x == Open && y == Closing) || (x == Connecting && (y == Open || y == Leaving))
  }

  /** A direction whose sender sends what it counts. */
  lemma SenderSends(f: Flow, s': End, out: seq<Frame>)
    requires Dir(f) && s'.sent == f.s.sent + Messages(out) && Later(f.s.state, s'.state)
    requires s'.inFlight - f.s.inFlight == s'.reserved - f.s.reserved + Size(out)
    ensures Dir(f.(s := s', sr := f.sr + out))
  {
    Appended(f.sr, out);
    hide Size, Acks, Messages;
    SenderCounts(f, s', out);
    SenderOrders(f, s', out);
    hide Accounts, InOrder;
  }

  lemma SenderCounts(f: Flow, s': End, out: seq<Frame>)
    requires Accounts(f) && Later(f.s.state, s'.state) && Size(f.sr + out) == Size(f.sr) + Size(out)
    requires s'.inFlight - f.s.inFlight == s'.reserved - f.s.reserved + Size(out)
    ensures Accounts(f.(s := s', sr := f.sr + out))
  {
    hide Size, Acks, Messages;
  }

  lemma SenderOrders(f: Flow, s': End, out: seq<Frame>)
    requires InOrder(f) && s'.sent == f.s.sent + Messages(out) && Messages(f.sr + out) == Messages(f.sr) + Messages(out)
    ensures InOrder(f.(s := s', sr := f.sr + out))
  {
    hide Messages;
    assert f.r.got + Messages(f.r.queue) + (Messages(f.sr) + Messages(out)) == f.r.got + Messages(f.r.queue) + Messages(f.sr) + Messages(out);
    assert f.s.sent <= s'.sent;
  }

  /** A direction whose receiver does nothing about it, or closes. */
  lemma ReceiverIdle(f: Flow, r': End, out: seq<Frame>)
    requires Dir(f) && r'.queue == f.r.queue && r'.got == f.r.got && r'.keen == f.r.keen
    requires if f.r.state == Closed then r'.state == Closed && Acks(out) == 0 else r'.toAck + Acks(out) == f.r.toAck
    requires Later(f.r.state, r'.state)
    ensures Dir(f.(r := r', rs := f.rs + out))
  {
    Appended(f.rs, out);
    hide Size, Acks, Messages;
  }

  /** Steps that send one message, or none. */
  lemma SendKept(fo: Flow, fi: Flow, act: Act)
    requires View(fo, fi) && Enabled(fo.s, fi.sr, act) && (act.DoSend? || act.DoReserve? || act.DoSendReserved?)
    ensures Kept(fo, fi, Perform(fo.s, fi.sr, act), fi.sr)
  {
    var e := Perform(fo.s, fi.sr, act);
    if e.out != [] { One(e.out[0]); assert e.out == [e.out[0]]; }
    assert Acks(e.out) == 0;
    assert fo.s.sent + [] == fo.s.sent;
    hide Size, Acks, Messages, Dir;
    SenderSends(fo, e.end, e.out);
    ReceiverIdle(fi, e.end, e.out);
  }

  /** Steps that connect or close. */
  lemma CloseKept(fo: Flow, fi: Flow, act: Act)
    requires View(fo, fi) && Enabled(fo.s, fi.sr, act) && (act.DoConnect? || act.DoClose? || act.DoFinish?)
    ensures Kept(fo, fi, Perform(fo.s, fi.sr, act), fi.sr)
  {
    var e := Perform(fo.s, fi.sr, act);
    if e.out != [] { One(e.out[0]); assert e.out == [e.out[0]]; }
    assert fo.s.sent + [] == fo.s.sent;
    hide Size, Acks, Messages, Dir;
    SenderSends(fo, e.end, e.out);
    ReceiverIdle(fi, e.end, e.out);
  }

  lemma AckKept(fo: Flow, fi: Flow)
    requires View(fo, fi) && fo.s.scheduled
    ensures Kept(fo, fi, AckTurn(fo.s), fi.sr)
  {
    var e := AckTurn(fo.s);
    if e.out != [] { One(e.out[0]); assert e.out == [e.out[0]]; }
    assert fo.s.sent + [] == fo.s.sent;
    hide Size, Acks, Messages, Dir;
    SenderSends(fo, e.end, e.out);
    ReceiverIdle(fi, e.end, e.out);
  }

  // ----- delivering -----

  /** What delivering changes of a receiver, and what it may post. */
  predicate Delivered(e: End, fs: seq<Frame>, d: Effect) {
    && d.end == e.(state := d.end.state, toAck := d.end.toAck, scheduled := d.end.scheduled, got := d.end.got)
    && Size(d.out) == 0 && Acks(d.out) == 0 && Messages(d.out) == []
    && (d.end.state == e.state || d.end.state == Closed)
    && (d.end.toAck > 0 ==> d.end.scheduled)
    && e.toAck <= d.end.toAck <= e.toAck + Size(fs)
    && (d.end.state != Closed && Hears(e) ==> d.end.toAck == e.toAck + Size(fs) && d.end.got == e.got + Messages(fs))
    && (!Hears(e) ==> d.end.got == e.got)
    && e.got <= d.end.got <= e.got + Messages(fs)
  }

  lemma DeliverOne(e: End, f: Frame)
    requires Attached(e) && (e.toAck > 0 ==> e.scheduled)
    ensures Delivered(e, [f], Deliver(e, f))
  {
    One(f);
    var d := Deliver(e, f);
    if d.out != [] { One(d.out[0]); assert d.out == [d.out[0]]; }
    assert e.got + [] == e.got;
  }

  lemma {:induction false} DeliverMany(e: End, fs: seq<Frame>)
    requires Attached(e) && (e.toAck > 0 ==> e.scheduled)
    ensures Delivered(e, fs, DeliverAll(e, fs))
    decreases |fs|
  {
    if fs == [] {
      assert e.got + [] == e.got;
    } else {
      var first := Deliver(e, fs[0]);
      DeliverOne(e, fs[0]);
      DeliverMany(first.end, fs[1..]);
      var rest := DeliverAll(first.end, fs[1..]);
      Appended(first.out, rest.out);
      Appended([fs[0]], fs[1..]);
      assert [fs[0]] + fs[1..] == fs;
      hide Deliver, DeliverAll, Size, Acks, Messages;
      DeliverThen(e, [fs[0]], first, fs[1..], rest, fs);
    }
  }

  lemma DeliverThen(e: End, x: seq<Frame>, first: Effect, y: seq<Frame>, rest: Effect, all: seq<Frame>)
    requires Delivered(e, x, first) && Delivered(first.end, y, rest)
    requires Size(all) == Size(x) + Size(y) && Messages(all) == Messages(x) + Messages(y)
    requires Size(first.out + rest.out) == 0 && Acks(first.out + rest.out) == 0 && Messages(first.out + rest.out) == []
    ensures Delivered(e, all, Effect(rest.end, first.out + rest.out))
  {
    hide Size, Acks, Messages;
    assert (e.got + Messages(x)) + Messages(y) == e.got + (Messages(x) + Messages(y));
    if Hears(first.end) || first.end.state == e.state {
    } else {
      assert rest.end.got == first.end.got;
    }
  }

  /** A direction whose receiver delivers frames it held (`queue`) or was just handed. */
  lemma ReceiverDelivers(f: Flow, d: Effect, fs: seq<Frame>, sr: seq<Frame>)
    requires Dir(f) && EndOk(f.r)
    requires Delivered(f.r.(accepted := true, queue := []), fs, d)
    requires Size(f.r.queue) + Size(f.sr) == Size(fs) + Size(sr)
    requires Messages(f.r.queue) + Messages(f.sr) == Messages(fs) + Messages(sr)
    ensures Dir(f.(r := d.end, sr := sr, rs := f.rs + d.out))
  {
    DeliversAccounts(f, d, fs, sr);
    hide Size, Acks, Messages, Accounts;
    assert Messages([]) == [] by { EmptyMessages(); }
    DeliversInOrder(f, d.end, d.out, Messages(fs), sr);
  }

  lemma DeliversAccounts(f: Flow, d: Effect, fs: seq<Frame>, sr: seq<Frame>)
    requires Accounts(f) && Delivered(f.r.(accepted := true, queue := []), fs, d)
    requires Size(f.r.queue) + Size(f.sr) == Size(fs) + Size(sr)
    ensures Accounts(f.(r := d.end, sr := sr, rs := f.rs + d.out))
  {
    Appended(f.rs, d.out);
    assert Size([]) == 0;
    hide Size, Acks, Messages;
  }

  lemma EmptyMessages()
    ensures Messages([]) == []
  {
  }

  lemma DeliversInOrder(f: Flow, r': End, out: seq<Frame>, m: seq<Bytes>, sr: seq<Frame>)
    requires InOrder(f) && Messages(f.r.queue) + Messages(f.sr) == m + Messages(sr) && Messages(r'.queue) == []
    requires r'.keen == f.r.keen && (r'.state == f.r.state || r'.state == Closed)
    requires f.r.got <= r'.got <= f.r.got + m
    requires if Hears(f.r) then r'.state != Closed ==> r'.got == f.r.got + m else r'.got == f.r.got
    ensures InOrder(f.(r := r', sr := sr, rs := f.rs + out))
  {
    var q, x, y := Messages(f.r.queue), Messages(f.sr), Messages(sr);
    hide Messages;
    if Hears(f.r) {
      assert f.r.got + (q + x) == f.r.got + q + x;
      assert f.r.got + (m + y) == (f.r.got + m) + y;
      assert r'.got <= f.r.got + m <= f.s.sent;
      assert (f.r.got + m) + [] + y == (f.r.got + m) + y;
    }
  }

  /** The other direction: its sender posts no message and no ack, and hears none. */
  lemma SenderDelivers(f: Flow, s': End, out: seq<Frame>, rs: seq<Frame>)
    requires Dir(f) && Messages(out) == [] && Size(out) == 0
    requires s'.sent == f.s.sent && s'.inFlight == f.s.inFlight && s'.reserved == f.s.reserved && Acks(rs) == Acks(f.rs)
    requires s'.state == f.s.state || s'.state == Closed
    ensures Dir(f.(s := s', sr := f.sr + out, rs := rs))
  {
    Appended(f.sr, out);
    assert Messages(f.sr) + [] == Messages(f.sr);
    hide Size, Acks, Messages;
  }

  lemma AcceptKept(fo: Flow, fi: Flow)
    requires View(fo, fi)
    ensures Kept(fo, fi, Accept(fo.s), fi.sr)
  {
    var e := fo.s;
    if e.accepted {
      assert fo.sr + [] == fo.sr && fi.rs + [] == fi.rs;
      assert fo.(s := e, sr := fo.sr, rs := fo.rs) == fo && fi.(r := e, sr := fi.sr, rs := fi.rs) == fi;
    } else {
      var base := e.(accepted := true, queue := []);
      DeliverMany(base, e.queue);
      var d := Accept(e);
      hide Size, Acks, Messages, DeliverAll, Accept;
      ReceiverDelivers(fi, d, e.queue, fi.sr);
      SenderDelivers(fo, d.end, d.out, fo.rs);
      DeliveredOk(base, e.queue, d);
    }
  }

  lemma DeliveredOk(e: End, fs: seq<Frame>, d: Effect)
    requires Delivered(e, fs, d) && e.accepted && e.queue == [] && Attached(e) && (Up(e) ==> e.discarded == 0) && e.reserved <= e.inFlight
    ensures EndOk(d.end)
  {
    hide Size, Acks, Messages;
  }

  // ----- receiving -----

  lemma Head(x: seq<Frame>)
    requires x != []
    ensures Size(x) == (if x[0].Message? then |x[0].data| else 0) + Size(x[1..])
    ensures Acks(x) == (if x[0].Ack? then x[0].n else 0) + Acks(x[1..])
    ensures Messages(x) == (if x[0].Message? then [x[0].data] else []) + Messages(x[1..])
  {
  }

  /** A closed socket drops what comes. */
  lemma DropKept(fo: Flow, fi: Flow)
    requires View(fo, fi) && fi.sr != [] && fo.s.state == Closed
    ensures Kept(fo, fi, Effect(fo.s, []), fi.sr[1..])
  {
    assert fo.sr + [] == fo.sr && fi.rs + [] == fi.rs;
    Head(fi.sr);
    hide Size, Acks, Messages;
  }

  /** The ack of an honest peer is never more than what is counted. */
  lemma AckFits(f: Flow)
    requires Dir(f) && f.s.state != Closed && f.rs != [] && f.rs[0].Ack?
    ensures f.rs[0].n <= f.s.inFlight
  {
    Head(f.rs);
    hide Size, Acks, Messages;
  }

  /** The sender hears an ack: what it counts falls by that much. */
  lemma AckTaken(f: Flow, n: nat)
    requires Dir(f) && f.s.state != Closed && f.rs != [] && f.rs[0] == Ack(n) && n <= f.s.inFlight
    ensures Dir(f.(s := f.s.(inFlight := f.s.inFlight - n), rs := f.rs[1..]))
  {
    Head(f.rs);
    hide Size, Acks, Messages;
  }

  /** To the other direction an ack is nothing. */
  lemma AckPassed(f: Flow, r': End)
    requires Dir(f) && f.sr != [] && f.sr[0].Ack? && r' == f.r.(inFlight := r'.inFlight)
    ensures Dir(f.(r := r', sr := f.sr[1..]))
  {
    Head(f.sr);
    assert [] + Messages(f.sr[1..]) == Messages(f.sr[1..]);
    hide Size, Acks, Messages;
  }

  lemma AckHeardKept(fo: Flow, fi: Flow)
    requires View(fo, fi) && fi.sr != [] && fi.sr[0].Ack? && fo.s.state != Closed
    ensures Kept(fo, fi, Receive(fo.s, fi.sr[0]), fi.sr[1..])
  {
    assert fo.sr + [] == fo.sr && fi.rs + [] == fi.rs;
    AckFits(fo);
    AckLeaves(fo);
    hide Dir, Size, Acks, Messages;
    AckTaken(fo, fi.sr[0].n);
    AckPassed(fi, Receive(fo.s, fi.sr[0]).end);
  }

  /** What stays in preparation is still counted. */
  lemma AckLeaves(f: Flow)
    requires Dir(f) && f.s.state != Closed && f.rs != [] && f.rs[0].Ack?
    ensures f.s.reserved + f.rs[0].n <= f.s.inFlight
  {
    Head(f.rs);
    hide Size, Acks, Messages;
  }

  lemma PingKept(fo: Flow, fi: Flow)
    requires View(fo, fi) && fi.sr != [] && (fi.sr[0].Ping? || fi.sr[0].Pong?) && fo.s.state != Closed
    ensures Kept(fo, fi, Receive(fo.s, fi.sr[0]), fi.sr[1..])
  {
    var e := Receive(fo.s, fi.sr[0]);
    Head(fi.sr);
    Appended(fo.sr, e.out);
    Appended(fi.rs, e.out);
    if e.out != [] { One(Pong); assert e.out == [Pong]; }
    assert [] + Messages(fi.sr[1..]) == Messages(fi.sr[1..]);
    assert Messages(fo.sr) + [] == Messages(fo.sr);
    hide Size, Acks, Messages;
  }

  /** A frame kept for later is no longer on the way, and not yet handed over. */
  lemma QueuedIn(f: Flow)
    requires Dir(f) && f.sr != []
    ensures Dir(f.(r := f.r.(queue := f.r.queue + [f.sr[0]]), sr := f.sr[1..]))
  {
    Head(f.sr);
    One(f.sr[0]);
    Appended(f.r.queue, [f.sr[0]]);
    assert f.r.got + (Messages(f.r.queue) + Messages([f.sr[0]])) + Messages(f.sr[1..]) == f.r.got + Messages(f.r.queue) + (Messages([f.sr[0]]) + Messages(f.sr[1..]));
    hide Size, Acks, Messages;
  }

  lemma QueuedOut(f: Flow, queue: seq<Frame>)
    requires Dir(f) && f.rs != [] && !f.rs[0].Ack?
    ensures Dir(f.(s := f.s.(queue := queue), rs := f.rs[1..]))
  {
    Head(f.rs);
    hide Size, Acks, Messages;
  }

  lemma QueueKept(fo: Flow, fi: Flow)
    requires View(fo, fi) && fi.sr != [] && (fi.sr[0].Message? || fi.sr[0].CloseFrame?) && fo.s.state != Closed && !fo.s.accepted
    ensures Kept(fo, fi, Receive(fo.s, fi.sr[0]), fi.sr[1..])
  {
    assert fo.sr + [] == fo.sr && fi.rs + [] == fi.rs;
    hide Dir, Size, Acks, Messages;
    QueuedIn(fi);
    QueuedOut(fo, fo.s.queue + [fi.sr[0]]);
  }

  lemma DeliverKept(fo: Flow, fi: Flow)
    requires View(fo, fi) && fi.sr != [] && (fi.sr[0].Message? || fi.sr[0].CloseFrame?) && fo.s.state != Closed && Attached(fo.s) && fo.s.accepted
    ensures Kept(fo, fi, Receive(fo.s, fi.sr[0]), fi.sr[1..])
  {
    var e, f := fo.s, fi.sr[0];
    Head(fi.sr);
    One(f);
    DeliverOne(e, f);
    assert e.(accepted := true, queue := []) == e;
    assert Size(e.queue) == 0 && Messages(e.queue) == [] && [] + Messages(fi.sr) == Messages(fi.sr);
    var d := Deliver(e, f);
    hide Size, Acks, Messages, Deliver;
    ReceiverDelivers(fi, d, [f], fi.sr[1..]);
    SenderDelivers(fo, d.end, d.out, fi.sr[1..]);
    DeliveredOk(e, [f], d);
  }

  lemma ActKept(fo: Flow, fi: Flow, act: Act)
    requires View(fo, fi) && Enabled(fo.s, fi.sr, act)
    ensures Kept(fo, fi, Perform(fo.s, fi.sr, act), Remaining(fi.sr, act))
  {
    hide Dir, EndOk, Kept;
    match act
    case DoSend(_) => SendKept(fo, fi, act);
    case DoReserve(_) => SendKept(fo, fi, act);
    case DoSendReserved(_) => SendKept(fo, fi, act);
    case DoConnect => CloseKept(fo, fi, act);
    case DoClose => CloseKept(fo, fi, act);
    case DoFinish => CloseKept(fo, fi, act);
    case DoAccept => AcceptKept(fo, fi);
    case DoAck => AckKept(fo, fi);
    case DoReceive =>
      if fo.s.state == Closed { DropKept(fo, fi); }
      else if fi.sr[0].Ack? { AckHeardKept(fo, fi); }
      else if fi.sr[0].Ping? || fi.sr[0].Pong? { PingKept(fo, fi); }
      else if fo.s.accepted { DeliverKept(fo, fi); }
      else { QueueKept(fo, fi); }
  }

  lemma StepKeeps(w: World, byA: bool, act: Act)
    requires Inv(w) && Can(w, byA, act)
    ensures Inv(Step(w, byA, act))
  {
    hide Dir, EndOk, Perform;
    if byA { ActKept(FlowAB(w), FlowBA(w), act); } else { ActKept(FlowBA(w), FlowAB(w), act); }
  }

  // ----- runs -----

  ghost predicate Steps(w: World, w': World) {
    exists byA, act :: Can(w, byA, act) && w' == Step(w, byA, act)
  }

  /** The client is connecting, the server's end is open and may be sending. */
  function Init(keenA: bool, keenB: bool): World {
    World(Fresh(true, keenA), Fresh(false, keenB), [], [])
  }

  ghost predicate IsRun(worlds: seq<World>) {
    && |worlds| >= 1 && (exists keenA, keenB :: worlds[0] == Init(keenA, keenB))
    && forall i :: 0 <= i < |worlds| - 1 ==> Steps(worlds[i], worlds[i + 1])
  }

  lemma InitInv(keenA: bool, keenB: bool)
    ensures Inv(Init(keenA, keenB))
  {
  }

  lemma {:induction false} RunKeeps(worlds: seq<World>)
    requires IsRun(worlds)
    ensures Inv(worlds[|worlds| - 1])
    decreases |worlds|
  {
    hide Inv, Step, Can, Init;
    var n := |worlds| - 1;
    if n == 0 {
      var keenA, keenB :| worlds[0] == Init(keenA, keenB);
      InitInv(keenA, keenB);
    } else {
      var past := worlds[..n];
      forall i | 0 <= i < n - 1 ensures Steps(past[i], past[i + 1]) { assert past[i] == worlds[i] && past[i + 1] == worlds[i + 1]; }
      assert past[0] == worlds[0];
      RunKeeps(past);
      assert Steps(worlds[n - 1], worlds[n]);
      var byA, act :| Can(worlds[n - 1], byA, act) && worlds[n] == Step(worlds[n - 1], byA, act);
      StepKeeps(worlds[n - 1], byA, act);
    }
  }

  /**
   In every state of every run: while neither end is closing or closed, what an end counts in
   flight is exactly what is being prepared, on the way, waiting for `accept`,
   read and not yet acked, or acked and on its way back; and it discarded nothing.
   An ack never exceeds what is counted, and what the other end was handed is, in
   order, the beginning of what was sent; nothing is lost to an end that still
   hears, be it one that is only connecting.
   */
  lemma AccountsHold(worlds: seq<World>, toB: bool)
    requires IsRun(worlds)
    ensures var w := worlds[|worlds| - 1];
            var f := if toB then FlowAB(w) else FlowBA(w);
            && (Up(f.s) && Up(f.r) ==> f.s.inFlight == Outstanding(f) && f.s.discarded == 0)
            && (f.s.state != Closed && f.rs != [] && f.rs[0].Ack? ==> f.rs[0].n <= f.s.inFlight)
            && (!f.r.accepted ==> f.r.toAck == 0)
            && f.r.got <= f.s.sent
            && (Hears(f.r) ==> f.r.got + Messages(f.r.queue) + Messages(f.sr) == f.s.sent)
  {
    RunKeeps(worlds);
    var w := worlds[|worlds| - 1];
    var f := if toB then FlowAB(w) else FlowBA(w);
    if f.s.state != Closed && f.rs != [] && f.rs[0].Ack? { AckFits(f); }
    hide Size, Acks, Messages;
  }
}
