/** The close handshake across a detach: the relay passes both closes, and both outer ends close. */
module SocketChain {
  import opened Basics
  import opened Socket
  import opened SocketRuns
  import opened SocketEnds
  import R = SocketRelay

  /** A close has been posted by `me`: it is before the relay, or the relay has passed it. */
  predicate Posted(me: End, t: Told, pipe: seq<Frame>, passed: bool) {
    me.state == Closing || (me.state == Closed && !t.finished) ==> CloseFrame in pipe || passed
  }

  /** A close the relay has passed is on its way, or waits for `accept()`, until its end is closed. */
  predicate Passed(passed: bool, pipe: seq<Frame>, to: End) {
    passed ==> CloseFrame in pipe || CloseFrame in to.queue || to.state == Closed
  }

  predicate BothTold(c: R.Chain, tp: Told, th: Told) {
    && Shaped(c.p) && Shaped(c.h) && Own(c.p, tp) && Own(c.h, th)
    && Posted(c.p, tp, c.p1, c.relay.closingIn) && Passed(c.relay.closingIn, c.p2, c.h)
    && Posted(c.h, th, c.q2, c.relay.closingOut) && Passed(c.relay.closingOut, c.q1, c.p)
  }

  lemma ActShaped(e: End, inbox: seq<Frame>, act: Act)
    requires Shaped(e) && Enabled(e, inbox, act)
    ensures Shaped(Perform(e, inbox, act).end)
  {
    if act.DoAccept? && !e.accepted { DeliverAllCloses(e.(accepted := true, queue := []), e.queue); }
  }

  /** An end's own step: its close goes into the pipe before the relay, and it hears the one behind. */
  lemma EndPosts(e: End, t: Told, out: seq<Frame>, passed: bool, inbox: seq<Frame>, heard: bool, act: Act)
    requires Shaped(e) && Enabled(e, inbox, act) && Own(e, t) && Posted(e, t, out, passed) && Passed(heard, inbox, e)
    ensures var d := Perform(e, inbox, act);
            var u := Telling(e, inbox, act, t);
            && Shaped(d.end) && Own(d.end, u) && Posted(d.end, u, out + d.out, passed) && Passed(heard, Remaining(inbox, act), d.end)
  {
    var d := Perform(e, inbox, act);
    ActShaped(e, inbox, act);
    ActOwn(e, inbox, act, t);
    ActPosts(e, inbox, act, t);
    ActHears(e, inbox, act);
    hide Perform, Telling, Shaped, Own, Enabled, Remaining;
    if CloseFrame in out { assert CloseFrame in out + d.out; }
  }

  function TellP(c: R.Chain, m: R.Move, t: Told): Told {
    if m.Peer? then Telling(c.p, c.q1, m.act, t) else t
  }

  function TellH(c: R.Chain, m: R.Move, t: Told): Told {
    if m.Holder? then Telling(c.h, c.p2, m.act, t) else t
  }

  lemma InPasses(c: R.Chain, tp: Told, th: Told)
    requires R.CanMove(c, R.In) && BothTold(c, tp, th)
    ensures BothTold(R.Moved(c, R.In), tp, th)
  {
    var out := R.FromPort(c.relay, c.p1[0]).out;
    assert c.p1 == [c.p1[0]] + c.p1[1..];
    Kept(c.p2, out);
    hide Shaped, Own, R.Bits;
  }

  lemma OutPasses(c: R.Chain, tp: Told, th: Told)
    requires R.CanMove(c, R.Out) && BothTold(c, tp, th)
    ensures BothTold(R.Moved(c, R.Out), tp, th)
  {
    assert c.q2 == [c.q2[0]] + c.q2[1..];
    Kept(c.q1, [c.q2[0]]);
    hide Shaped, Own, R.Bits;
  }

  lemma Kept(pipe: seq<Frame>, out: seq<Frame>)
    ensures CloseFrame in pipe || CloseFrame in out ==> CloseFrame in pipe + out
  {
  }

  lemma MoveTold(c: R.Chain, m: R.Move, tp: Told, th: Told)
    requires R.CanMove(c, m) && BothTold(c, tp, th)
    ensures BothTold(R.Moved(c, m), TellP(c, m, tp), TellH(c, m, th))
  {
    hide Perform, Telling, Shaped, Own, Enabled, Remaining, Posted, Passed;
    match m
    case Peer(act) => EndPosts(c.p, tp, c.p1, c.relay.closingIn, c.q1, c.relay.closingOut, act);
    case Holder(act) => EndPosts(c.h, th, c.q2, c.relay.closingOut, c.p2, c.relay.closingIn, act);
    case In => InPasses(c, tp, th);
    case Out => OutPasses(c, tp, th);
  }

  // ----- runs through the relay -----

  ghost predicate Path(c: R.Chain, moves: seq<R.Move>, c': R.Chain)
    decreases |moves|
  {
    if moves == [] then c == c' else R.CanMove(c, moves[0]) && Path(R.Moved(c, moves[0]), moves[1..], c')
  }

  ghost function ToldBy(c: R.Chain, moves: seq<R.Move>, c': R.Chain, tp: Told, th: Told): (Told, Told)
    requires Path(c, moves, c')
    decreases |moves|
  {
    if moves == [] then (tp, th)
    else ToldBy(R.Moved(c, moves[0]), moves[1..], c', TellP(c, moves[0], tp), TellH(c, moves[0], th))
  }

  lemma {:induction false} PathTold(c: R.Chain, moves: seq<R.Move>, c': R.Chain, tp: Told, th: Told)
    requires Path(c, moves, c') && BothTold(c, tp, th)
    ensures var (up, uh) := ToldBy(c, moves, c', tp, th); BothTold(c', up, uh)
    decreases |moves|
  {
    if moves != [] {
      hide BothTold, TellP, TellH, R.CanMove, R.Moved;
      MoveTold(c, moves[0], tp, th);
      PathTold(R.Moved(c, moves[0]), moves[1..], c', TellP(c, moves[0], tp), TellH(c, moves[0], th));
    }
  }

  /** A detach, and what the two outer users did behind it. */
  ghost predicate Ran(w: World, keen: bool, accepted: bool, moves: seq<R.Move>, c: R.Chain, tp: Told, th: Told) {
    var start := R.Detach(w, keen, accepted);
    && Path(start, moves, c)
    && ToldBy(start, moves, c, Told(w.a.sent, w.a.accepted, false, false, 0, 0), Silent(accepted)) == (tp, th)
  }

  lemma DetachTold(w: World, keen: bool, accepted: bool)
    requires Inv(w) && Up(w.a) && w.b.state == Open && !w.b.accepted
    ensures BothTold(R.Detach(w, keen, accepted), Told(w.a.sent, w.a.accepted, false, false, 0, 0), Silent(accepted))
  {
    EndsOk(w);
    hide Inv, R.Bits;
  }

  /** Nothing is left that may move: the relay takes no more once a close has gone each way. */
  predicate Quiet(c: R.Chain) {
    c.p2 == [] && c.q1 == [] && (c.p1 == [] || (c.relay.closingIn && c.relay.closingOut)) && (c.q2 == [] || (c.relay.closingIn && c.relay.closingOut))
  }

  /**
   After any run and a detach, a close by either outer user, and no timer, closes
   both: once nothing is left to pass, both have their ports, and both accepted.
   */
  lemma CloseComesThrough(worlds: seq<World>, keen: bool, accepted: bool, moves: seq<R.Move>, c: R.Chain, tp: Told, th: Told)
    requires R.Detachable(worlds) && Ran(worlds[|worlds| - 1], keen, accepted, moves, c, tp, th)
    requires (tp.closed || th.closed) && !tp.finished && !th.finished
    requires Quiet(c) && Attached(c.p) && Attached(c.h) && c.p.accepted && c.h.accepted
    ensures c.p.state == Closed && c.h.state == Closed
  {
    var w := worlds[|worlds| - 1];
    RunKeeps(worlds);
    hide Inv, R.Detach, IsRun;
    DetachTold(w, keen, accepted);
    hide BothTold;
    PathTold(R.Detach(w, keen, accepted), moves, c, Told(w.a.sent, w.a.accepted, false, false, 0, 0), Silent(accepted));
    hide Ran;
    QuietCloses(c, tp, th);
  }

  lemma QuietCloses(c: R.Chain, tp: Told, th: Told)
    requires BothTold(c, tp, th) && (tp.closed || th.closed) && !tp.finished && !th.finished
    requires Quiet(c) && Attached(c.p) && Attached(c.h) && c.p.accepted && c.h.accepted
    ensures c.p.state == Closed && c.h.state == Closed
  {
  }

  /** The relay stops only then: it passes whatever waits until a close has gone each way. */
  lemma RelayRuns(c: R.Chain)
    ensures c.p1 != [] && !(c.relay.closingIn && c.relay.closingOut) ==> R.CanMove(c, R.In)
    ensures c.q2 != [] && !(c.relay.closingIn && c.relay.closingOut) ==> R.CanMove(c, R.Out)
  {
  }
}
