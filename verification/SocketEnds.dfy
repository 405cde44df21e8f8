/**
 What the users of a socket asked for, told from the acts of a run, and what
 comes of it: sends are sent, a close closes both ends, a ping is answered.
 */
module SocketEnds {
  import opened Basics
  import opened Socket
  import opened SocketRuns

  /**
   One end's acts so far: what it sent while open, whether it accepted, whether
   `close()` was called on it before it was closing, whether a timer or a failure
   finished it before it was closed, the pings it posted and the pongs it heard.
   */
  datatype Told = Told(sent: seq<Bytes>, accepted: bool, closed: bool, finished: bool, pings: nat, pongs: nat)

  function Silent(accepted: bool): Told { Told([], accepted, false, false, 0, 0) }

  function Telling(e: End, inbox: seq<Frame>, act: Act, t: Told): Told {
    match act
    case DoConnect => if e.state == Connecting then t.(pings := t.pings + 1) else t
    case DoSend(d) => if e.state == Open then t.(sent := t.sent + [d]) else t
    case DoSendReserved(d) => if e.state == Open then t.(sent := t.sent + [d]) else t
    case DoClose => if Up(e) then t.(closed := true) else t
    case DoFinish => if e.state == Closed then t else t.(finished := true)
    case DoAccept => t.(accepted := true)
    case DoReceive => if inbox != [] && inbox[0] == Pong && e.state != Closed then t.(pongs := t.pongs + 1) else t
    case _ => t
  }

  /** An end is heard once it has its port, and queues only until it is accepted. */
  predicate Shaped(e: End) {
    (e.accepted ==> e.queue == []) && (!Attached(e) ==> e.accepted) && forall f :: f in e.queue ==> f.Message? || f.CloseFrame?
  }

  predicate Own(e: End, t: Told) {
    && e.sent == t.sent && e.accepted == t.accepted
    && (t.closed || t.finished ==> !Up(e))
  }

  /** `me` has posted its close, and the other has not acted on it: it is on the way, or waits for `accept()`. */
  predicate Closes(me: End, t: Told, pipe: seq<Frame>, to: End) {
    me.state == Closing || (me.state == Closed && !t.finished) ==>
      CloseFrame in pipe || CloseFrame in to.queue || to.state == Closed
  }

  function Count(fs: seq<Frame>, f: Frame): nat {
    if fs == [] then 0 else (if fs[0] == f then 1 else 0) + Count(fs[1..], f)
  }

  lemma {:induction false} CountAppend(x: seq<Frame>, y: seq<Frame>, f: Frame)
    ensures Count(x + y, f) == Count(x, f) + Count(y, f)
  {
    if x == [] {
      assert x + y == y;
    } else {
      assert (x + y)[1..] == x[1..] + y;
      CountAppend(x[1..], y, f);
    }
  }

  // ----- delivering -----

  /** What delivering one frame, or several, leaves of an end, and what it posts. */
  predicate Delivers(e: End, fs: seq<Frame>, d: Effect) {
    && Attached(d.end) && d.end.sent == e.sent && d.end.accepted == e.accepted && d.end.queue == e.queue
    && (CloseFrame in fs || e.state == Closed ==> d.end.state == Closed)
    && (CloseFrame !in fs ==> d.end.state == e.state && d.out == [])
    && (d.end.state == Closed && e.state == Open ==> CloseFrame in d.out)
    && (d.end.state == e.state || d.end.state == Closed)
    && Count(d.out, Ping) == 0 && Count(d.out, Pong) == 0
  }

  lemma DeliverCloses(e: End, f: Frame)
    requires Attached(e)
    ensures Delivers(e, [f], Deliver(e, f))
  {
    CountOne(CloseFrame, Ping);
    CountOne(CloseFrame, Pong);
  }

  lemma DeliversThen(e: End, x: seq<Frame>, y: seq<Frame>, first: Effect, rest: Effect)
    requires Delivers(e, x, first) && Delivers(first.end, y, rest)
    ensures Delivers(e, x + y, Effect(rest.end, first.out + rest.out))
  {
    CountAppend(first.out, rest.out, Ping);
    CountAppend(first.out, rest.out, Pong);
    hide Count;
  }

  lemma {:induction false} DeliverAllCloses(e: End, fs: seq<Frame>)
    requires Attached(e)
    ensures Delivers(e, fs, DeliverAll(e, fs))
    decreases |fs|
  {
    if fs != [] {
      var first := Deliver(e, fs[0]);
      DeliverCloses(e, fs[0]);
      assert first.end.state == Closed || Attached(first.end);
      hide Deliver, Delivers;
      AttachedAfter(e, [fs[0]], first);
      DeliverAllCloses(first.end, fs[1..]);
      DeliversThen(e, [fs[0]], fs[1..], first, DeliverAll(first.end, fs[1..]));
      assert fs == [fs[0]] + fs[1..];
    }
  }

  lemma AttachedAfter(e: End, fs: seq<Frame>, d: Effect)
    requires Delivers(e, fs, d)
    ensures Attached(d.end)
  {
  }

  /** What one act does to its end. */
  lemma ActOwn(e: End, inbox: seq<Frame>, act: Act, t: Told)
    requires Shaped(e) && Enabled(e, inbox, act) && Own(e, t)
    ensures Own(Perform(e, inbox, act).end, Telling(e, inbox, act, t))
  {
    match act
    case DoAccept => if !e.accepted { DeliverAllCloses(e.(accepted := true, queue := []), e.queue); }
    case _ =>
  }

  /** Whoever leaves an open state without a timer says so. */
  lemma ActPosts(e: End, inbox: seq<Frame>, act: Act, t: Told)
    requires Shaped(e) && Enabled(e, inbox, act)
    ensures var d := Perform(e, inbox, act);
            var u := Telling(e, inbox, act, t);
            && (e.state == Closing ==> d.end.state == Closing || d.end.state == Closed)
            && (e.state == Closed ==> d.end.state == Closed)
            && (t.finished ==> u.finished)
            && (d.end.state == Closing && e.state != Closing ==> CloseFrame in d.out)
            && (d.end.state == Closed && e.state != Closed && e.state != Closing && !u.finished ==> CloseFrame in d.out)
  {
    match act
    case DoAccept => if !e.accepted { DeliverAllCloses(e.(accepted := true, queue := []), e.queue); }
    case _ =>
  }

  /** A close that arrives, or waits and is accepted, closes. */
  lemma ActHears(e: End, inbox: seq<Frame>, act: Act)
    requires Shaped(e) && Enabled(e, inbox, act)
    ensures var d := Perform(e, inbox, act);
            CloseFrame in inbox || CloseFrame in e.queue || e.state == Closed ==>
              CloseFrame in Remaining(inbox, act) || CloseFrame in d.end.queue || d.end.state == Closed
  {
    match act
    case DoAccept => if !e.accepted { DeliverAllCloses(e.(accepted := true, queue := []), e.queue); }
    case DoReceive =>
      assert inbox == [inbox[0]] + inbox[1..];
      if e.state != Closed && !e.accepted { assert inbox[0] in e.queue + [inbox[0]]; }
    case _ =>
  }

  lemma StillCloses(me: End, t: Told, pipe: seq<Frame>, to: End, d: Effect, u: Told)
    requires Closes(me, t, pipe, to)
    requires me.state == Closing ==> d.end.state == Closing || d.end.state == Closed
    requires me.state == Closed ==> d.end.state == Closed
    requires t.finished ==> u.finished
    requires d.end.state == Closing && me.state != Closing ==> CloseFrame in d.out
    requires d.end.state == Closed && me.state != Closed && me.state != Closing && !u.finished ==> CloseFrame in d.out
    ensures Closes(d.end, u, pipe + d.out, to)
  {
    if CloseFrame in pipe { assert CloseFrame in pipe + d.out; }
  }

  // ----- pings -----

  predicate Awake(e: End) { e.state != Closed }

  /** Between ends that are not closed, every ping is on the way, or its answer is, or was heard. */
  predicate Answered(s: End, t: Told, sr: seq<Frame>, rs: seq<Frame>, r: End) {
    Awake(s) && Awake(r) ==> t.pings == Count(sr, Ping) + Count(rs, Pong) + t.pongs
  }

  lemma ActPings(e: End, inbox: seq<Frame>, act: Act, t: Told)
    requires Shaped(e) && Enabled(e, inbox, act)
    ensures var d := Perform(e, inbox, act);
            var u := Telling(e, inbox, act, t);
            && (Awake(d.end) ==> Awake(e))
            && (Awake(d.end) ==> u.pings == t.pings + Count(d.out, Ping))
            && (Awake(d.end) ==> Count(inbox, Pong) + t.pongs == Count(Remaining(inbox, act), Pong) + u.pongs)
            && (Awake(d.end) ==> Count(inbox, Ping) == Count(Remaining(inbox, act), Ping) + Count(d.out, Pong))
  {
    match act
    case DoAccept => if !e.accepted { DeliverAllCloses(e.(accepted := true, queue := []), e.queue); }
    case _ =>
      forall x: Frame, f: Frame ensures Count([x], f) == if x == f then 1 else 0 { CountOne(x, f); }
  }

  lemma CountOne(x: Frame, f: Frame)
    ensures Count([x], f) == if x == f then 1 else 0
  {
    assert [x][1..] == [];
  }

  // ----- the pair -----

  predicate AllTold(w: World, ta: Told, tb: Told) {
    && Own(w.a, ta) && Own(w.b, tb) && ta.accepted && Attached(w.b)
    && Closes(w.a, ta, w.ab, w.b) && Closes(w.b, tb, w.ba, w.a)
    && Answered(w.a, ta, w.ab, w.ba, w.b) && Answered(w.b, tb, w.ba, w.ab, w.a)
  }

  /** One end acts: its own closes and pings, and what the other said to it. */
  lemma EndTold(me: End, t: Told, out: seq<Frame>, peer: End, other: Told, inbox: seq<Frame>, act: Act)
    requires Shaped(me) && Enabled(me, inbox, act) && Own(me, t)
    requires Closes(me, t, out, peer) && Closes(peer, other, inbox, me)
    requires Answered(me, t, out, inbox, peer) && Answered(peer, other, inbox, out, me)
    ensures var d := Perform(me, inbox, act);
            var u := Telling(me, inbox, act, t);
            && Own(d.end, u)
            && Closes(d.end, u, out + d.out, peer) && Closes(peer, other, Remaining(inbox, act), d.end)
            && Answered(d.end, u, out + d.out, Remaining(inbox, act), peer)
            && Answered(peer, other, Remaining(inbox, act), out + d.out, d.end)
  {
    var d := Perform(me, inbox, act);
    var u := Telling(me, inbox, act, t);
    ActOwn(me, inbox, act, t);
    ActPosts(me, inbox, act, t);
    ActHears(me, inbox, act);
    ActPings(me, inbox, act, t);
    CountAppend(out, d.out, Ping);
    CountAppend(out, d.out, Pong);
    hide Perform, Telling, Shaped, Own, Count, Enabled, Remaining;
    StillCloses(me, t, out, peer, d, u);
  }

  lemma StepTold(w: World, byA: bool, act: Act, ta: Told, tb: Told)
    requires Shaped(w.a) && Shaped(w.b) && Can(w, byA, act) && AllTold(w, ta, tb)
    ensures AllTold(Step(w, byA, act), if byA then Telling(w.a, w.ba, act, ta) else ta, if byA then tb else Telling(w.b, w.ab, act, tb))
  {
    if byA { StillAccepted(w.a, w.ba, act, ta); } else { StillAttached(w.b, w.ab, act); }
    hide Perform, Telling, Shaped, Own, Count, Enabled, Remaining, Closes, Answered, Attached;
    if byA { EndTold(w.a, ta, w.ab, w.b, tb, w.ba, act); } else { EndTold(w.b, tb, w.ba, w.a, ta, w.ab, act); }
  }

  lemma StillAttached(e: End, inbox: seq<Frame>, act: Act)
    requires Shaped(e) && Enabled(e, inbox, act) && Attached(e)
    ensures Attached(Perform(e, inbox, act).end)
  {
    if act.DoAccept? && !e.accepted { DeliverAllCloses(e.(accepted := true, queue := []), e.queue); }
  }

  lemma StillAccepted(e: End, inbox: seq<Frame>, act: Act, t: Told)
    ensures t.accepted ==> Telling(e, inbox, act, t).accepted
  {
  }

  // ----- runs, with their acts -----

  ghost predicate Path(w: World, acts: seq<(bool, Act)>, w': World)
    decreases |acts|
  {
    if acts == [] then w == w'
    else Can(w, acts[0].0, acts[0].1) && Path(Step(w, acts[0].0, acts[0].1), acts[1..], w')
  }

  /** What each end's user did along a path: `(client, server)`. */
  ghost function ToldBy(w: World, acts: seq<(bool, Act)>, w': World, ta: Told, tb: Told): (Told, Told)
    requires Path(w, acts, w')
    decreases |acts|
  {
    if acts == [] then (ta, tb)
    else
      var (byA, act) := acts[0];
      ToldBy(Step(w, byA, act), acts[1..], w',
             if byA then Telling(w.a, w.ba, act, ta) else ta, if byA then tb else Telling(w.b, w.ab, act, tb))
  }

  lemma {:induction false} PathTold(w: World, acts: seq<(bool, Act)>, w': World, ta: Told, tb: Told)
    requires Inv(w) && Path(w, acts, w') && AllTold(w, ta, tb)
    ensures var (ua, ub) := ToldBy(w, acts, w', ta, tb); Inv(w') && AllTold(w', ua, ub)
    decreases |acts|
  {
    if acts != [] {
      var (byA, act) := acts[0];
      EndsOk(w);
      hide Inv, AllTold, Step, Telling, Can;
      StepKeeps(w, byA, act);
      StepTold(w, byA, act, ta, tb);
      PathTold(Step(w, byA, act), acts[1..], w',
               if byA then Telling(w.a, w.ba, act, ta) else ta, if byA then tb else Telling(w.b, w.ab, act, tb));
    }
  }

  lemma EndsOk(w: World)
    requires Inv(w)
    ensures Shaped(w.a) && Shaped(w.b)
  {
  }

  /** A run of a fresh pair, and what its two users did in it. */
  ghost predicate Ran(keenA: bool, keenB: bool, acts: seq<(bool, Act)>, w: World, ta: Told, tb: Told) {
    Path(Init(keenA, keenB), acts, w) && ToldBy(Init(keenA, keenB), acts, w, Silent(true), Silent(false)) == (ta, tb)
  }

  /**
   Over every run: exactly what its user sent while it was open is what an end
   sent, in order; it accepted exactly if it was accepted; and a close its end
   posted, or would have but for a timer, is on its way or waits for `accept()`
   until the other end is closed.
   */
  lemma DoneAsTold(keenA: bool, keenB: bool, acts: seq<(bool, Act)>, w: World, ta: Told, tb: Told)
    requires Ran(keenA, keenB, acts, w, ta, tb)
    ensures w.a.sent == ta.sent && w.b.sent == tb.sent && w.b.accepted == tb.accepted
    ensures Closes(w.a, ta, w.ab, w.b) && Closes(w.b, tb, w.ba, w.a)
    ensures (ta.closed ==> !Up(w.a)) && (tb.closed ==> !Up(w.b))
    ensures Inv(w) && w.a.accepted && Attached(w.b)
  {
    RanTold(keenA, keenB, acts, w, ta, tb);
    hide Inv, Closes, Ran, Answered;
  }

  lemma RanTold(keenA: bool, keenB: bool, acts: seq<(bool, Act)>, w: World, ta: Told, tb: Told)
    requires Ran(keenA, keenB, acts, w, ta, tb)
    ensures Inv(w) && AllTold(w, ta, tb)
  {
    InitInv(keenA, keenB);
    InitTold(keenA, keenB);
    hide Inv, AllTold, Init;
    PathTold(Init(keenA, keenB), acts, w, Silent(true), Silent(false));
  }

  lemma InitTold(keenA: bool, keenB: bool)
    ensures AllTold(Init(keenA, keenB), Silent(true), Silent(false))
  {
  }

  /**
   The close handshake completes by itself: if either user closed and no timer or
   failure finished either end, then once the client has its port, the server
   accepted, and nothing is on the way, both ends are closed.
   */
  lemma CloseComesThrough(keenA: bool, keenB: bool, acts: seq<(bool, Act)>, w: World, ta: Told, tb: Told)
    requires Ran(keenA, keenB, acts, w, ta, tb) && (ta.closed || tb.closed) && !ta.finished && !tb.finished
    requires w.ab == [] && w.ba == [] && Attached(w.a) && tb.accepted
    ensures w.a.state == Closed && w.b.state == Closed
  {
    DoneAsTold(keenA, keenB, acts, w, ta, tb);
    Queues(w);
    hide Inv, Ran;
  }

  lemma Queues(w: World)
    requires Inv(w)
    ensures (w.a.accepted ==> w.a.queue == []) && (w.b.accepted ==> w.b.queue == [])
    ensures (!Attached(w.a) ==> w.a.accepted) && (!Attached(w.b) ==> w.b.accepted)
  {
    hide Dir;
  }

  /** With empty pipes, both ends heard, and no timer, the two always agree: both open, or both closed. */
  lemma EndsAgree(keenA: bool, keenB: bool, acts: seq<(bool, Act)>, w: World, ta: Told, tb: Told)
    requires Ran(keenA, keenB, acts, w, ta, tb) && !ta.finished && !tb.finished
    requires w.ab == [] && w.ba == [] && Attached(w.a) && tb.accepted
    ensures w.a.state == w.b.state && (w.a.state == Open || w.a.state == Closed)
  {
    DoneAsTold(keenA, keenB, acts, w, ta, tb);
    Queues(w);
    hide Inv, Ran;
  }

  /** Every ping is answered: between ends that are not closed, with nothing on the way, each was. */
  lemma PingsAnswered(keenA: bool, keenB: bool, acts: seq<(bool, Act)>, w: World, ta: Told, tb: Told)
    requires Ran(keenA, keenB, acts, w, ta, tb) && Awake(w.a) && Awake(w.b)
    ensures ta.pings == Count(w.ab, Ping) + Count(w.ba, Pong) + ta.pongs
    ensures w.ab == [] && w.ba == [] ==> ta.pongs == ta.pings && tb.pongs == tb.pings
  {
    RanTold(keenA, keenB, acts, w, ta, tb);
    assert Count([], Ping) == 0 && Count([], Pong) == 0;
    hide Inv, Closes, Ran, Own, Count;
  }

  // ----- nobody closes unasked -----

  predicate Undisturbed(t: Told) { !t.closed && !t.finished }

  predicate Calm(e: End) { Up(e) && CloseFrame !in e.queue }

  lemma ActCalm(e: End, inbox: seq<Frame>, act: Act, t: Told)
    requires Shaped(e) && Enabled(e, inbox, act) && Calm(e) && CloseFrame !in inbox && Undisturbed(Telling(e, inbox, act, t))
    ensures var d := Perform(e, inbox, act); Calm(d.end) && CloseFrame !in d.out && CloseFrame !in Remaining(inbox, act)
  {
    match act
    case DoAccept => if !e.accepted { DeliverAllCloses(e.(accepted := true, queue := []), e.queue); }
    case DoReceive => assert inbox[0] in inbox;
    case _ =>
  }

  predicate AllCalm(w: World) { Calm(w.a) && Calm(w.b) && CloseFrame !in w.ab && CloseFrame !in w.ba }

  lemma StepCalm(w: World, byA: bool, act: Act, t: Told)
    requires Shaped(w.a) && Shaped(w.b) && Can(w, byA, act) && AllCalm(w)
    requires Undisturbed(if byA then Telling(w.a, w.ba, act, t) else Telling(w.b, w.ab, act, t))
    ensures AllCalm(Step(w, byA, act))
  {
    if byA { ActCalm(w.a, w.ba, act, t); } else { ActCalm(w.b, w.ab, act, t); }
    hide Perform, Calm, Shaped, Enabled, Undisturbed, Telling, Remaining;
  }

  lemma {:induction false} StillUndisturbed(w: World, acts: seq<(bool, Act)>, w': World, ta: Told, tb: Told)
    requires Path(w, acts, w')
    ensures var (ua, ub) := ToldBy(w, acts, w', ta, tb); (Undisturbed(ua) ==> Undisturbed(ta)) && (Undisturbed(ub) ==> Undisturbed(tb))
    decreases |acts|
  {
    if acts != [] {
      var (byA, act) := acts[0];
      hide Step, Can;
      StillUndisturbed(Step(w, byA, act), acts[1..], w',
                       if byA then Telling(w.a, w.ba, act, ta) else ta, if byA then tb else Telling(w.b, w.ab, act, tb));
    }
  }

  lemma {:induction false} PathCalm(w: World, acts: seq<(bool, Act)>, w': World, ta: Told, tb: Told)
    requires Inv(w) && Path(w, acts, w') && AllCalm(w)
    requires var (ua, ub) := ToldBy(w, acts, w', ta, tb); Undisturbed(ua) && Undisturbed(ub)
    ensures AllCalm(w')
    decreases |acts|
  {
    if acts != [] {
      var (byA, act) := acts[0];
      var ua := if byA then Telling(w.a, w.ba, act, ta) else ta;
      var ub := if byA then tb else Telling(w.b, w.ab, act, tb);
      EndsOk(w);
      hide Inv, AllCalm, Step, Telling, Undisturbed, Can;
      StillUndisturbed(Step(w, byA, act), acts[1..], w', ua, ub);
      StepKeeps(w, byA, act);
      StepCalm(w, byA, act, if byA then ta else tb);
      PathCalm(Step(w, byA, act), acts[1..], w', ua, ub);
    }
  }

  /**
   Where nobody closes and no timer fires, neither end closes; and what was sent is
   handed over whole once nothing is on the way and the server accepted.
   */
  lemma OpenStaysOpen(keenA: bool, keenB: bool, acts: seq<(bool, Act)>, w: World, ta: Told, tb: Told)
    requires Ran(keenA, keenB, acts, w, ta, tb) && Undisturbed(ta) && Undisturbed(tb)
    ensures Up(w.a) && Up(w.b)
    ensures w.ab == [] && w.ba == [] && tb.accepted ==> w.a.got == tb.sent && w.b.got == ta.sent
  {
    DoneAsTold(keenA, keenB, acts, w, ta, tb);
    RanCalm(keenA, keenB, acts, w, ta, tb);
    hide Inv, Closes, Ran, Undisturbed;
    if w.ab == [] && w.ba == [] && tb.accepted {
      Queues(w);
      Orders(w);
      hide InOrder;
      AllHeard(FlowAB(w));
      AllHeard(FlowBA(w));
    }
  }

  lemma RanCalm(keenA: bool, keenB: bool, acts: seq<(bool, Act)>, w: World, ta: Told, tb: Told)
    requires Ran(keenA, keenB, acts, w, ta, tb) && Undisturbed(ta) && Undisturbed(tb)
    ensures AllCalm(w)
  {
    CalmInit(keenA, keenB);
    InitInv(keenA, keenB);
    hide Inv, AllCalm, Init, Undisturbed;
    PathCalm(Init(keenA, keenB), acts, w, Silent(true), Silent(false));
  }

  lemma Orders(w: World)
    requires Inv(w)
    ensures InOrder(FlowAB(w)) && InOrder(FlowBA(w))
  {
    hide EndOk, Accounts, InOrder;
  }

  lemma CalmInit(keenA: bool, keenB: bool)
    ensures AllCalm(Init(keenA, keenB))
  {
  }

  lemma AllHeard(f: Flow)
    requires Up(f.r) && f.sr == [] && f.r.queue == []
    ensures InOrder(f) ==> f.r.got == f.s.sent
  {
    assert Messages([]) == [];
    assert f.r.got + [] + [] == f.r.got;
  }
}
