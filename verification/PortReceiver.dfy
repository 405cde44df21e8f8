/** A chunk receiver facing any peer at all: exactly which histories it refuses. */
module PortReceiver {
  import opened Basics
  import opened PortSide
  import opened PortChannel

  /** What happens to a listening receiver: the peer's messages, its `end`, and the consumer's pulls. */
  datatype Event =
    | Acknowledged(last: bool)
    | Pipelined(agreed: bool, bytes: bool, size: nat, last: bool)
    | Pulled(n: nat)
    | Confirmed
    | Ended

  function Meet(x: Inbound, e: Event, window: nat): Inbound {
    match e
    case Acknowledged(last) => HearRequest(x.(last := x.last || last))
    case Pipelined(agreed, bytes, size, last) => HearChunk(x.(last := x.last || last), agreed, bytes, window, size)
    case Pulled(n) => if n <= x.held then x.(held := x.held - n) else x
    case Confirmed => x.(outstanding := false)
    case Ended => HearEnd(x)
  }

  function MeetAll(es: seq<Event>, window: nat): Inbound {
    if es == [] then Inbound(true, false, 0, false, false) else Meet(MeetAll(es[..|es| - 1], window), es[|es| - 1], window)
  }

  // ----- the same, of the history alone -----

  /** Bytes of pipelined chunks that came and were not pulled; a pull of more than that is none. */
  function HeldBy(es: seq<Event>): nat {
    if es == [] then 0
    else
      var before := HeldBy(es[..|es| - 1]);
      match es[|es| - 1]
      case Pipelined(_, _, size, _) => before + size
      case Pulled(n) => if n <= before then before - n else before
      case _ => before
  }

  /** Some acknowledged chunk has come since the last confirmation. */
  predicate Waiting(es: seq<Event>) {
    exists i :: 0 <= i < |es| && es[i].Acknowledged? && forall j :: i < j < |es| ==> !es[j].Confirmed?
  }

  predicate LastCame(es: seq<Event>) {
    exists i :: 0 <= i < |es| && (es[i].Acknowledged? || es[i].Pipelined?) && es[i].last
  }

  /** The i-th event breaks the rules of the channel, given what came before it. */
  predicate Breaks(es: seq<Event>, i: nat, window: nat)
    requires i < |es|
  {
    match es[i]
    case Acknowledged(_) => HeldBy(es[..i]) > 0 || Waiting(es[..i])
    case Pipelined(agreed, bytes, _, _) => !agreed || !bytes || Waiting(es[..i]) || HeldBy(es[..i]) > window
    case Ended => !LastCame(es[..i])
    case _ => false
  }

  ghost predicate Broken(es: seq<Event>, window: nat) {
    exists i :: 0 <= i < |es| && Breaks(es, i, window)
  }

  lemma BrokenSnoc(es: seq<Event>, window: nat)
    requires es != []
    ensures Broken(es, window) <==> Broken(es[..|es| - 1], window) || Breaks(es, |es| - 1, window)
  {
    var n := |es| - 1;
    forall i | 0 <= i < n ensures Breaks(es, i, window) <==> Breaks(es[..n], i, window) {
      assert es[..n][..i] == es[..i];
    }
    if Broken(es[..n], window) {
      var i :| 0 <= i < n && Breaks(es[..n], i, window);
      assert Breaks(es, i, window);
    }
  }

  lemma WaitingSnoc(es: seq<Event>)
    requires es != []
    ensures Waiting(es) <==> es[|es| - 1].Acknowledged? || (Waiting(es[..|es| - 1]) && !es[|es| - 1].Confirmed?)
  {
    var n := |es| - 1;
    if i :| 0 <= i < n && es[..n][i].Acknowledged? && forall j :: i < j < n ==> !es[..n][j].Confirmed? {
      assert es[i].Acknowledged?;
    }
    if i :| 0 <= i < |es| && es[i].Acknowledged? && forall j :: i < j < |es| ==> !es[j].Confirmed? {
      if i < n { assert es[..n][i].Acknowledged?; }
    }
    if es[n].Acknowledged? { assert 0 <= n < |es|; }
  }

  lemma LastSnoc(es: seq<Event>)
    requires es != []
    ensures LastCame(es) <==> LastCame(es[..|es| - 1]) || ((es[|es| - 1].Acknowledged? || es[|es| - 1].Pipelined?) && es[|es| - 1].last)
  {
    var n := |es| - 1;
    if i :| 0 <= i < n && (es[..n][i].Acknowledged? || es[..n][i].Pipelined?) && es[..n][i].last { assert es[i] == es[..n][i]; }
    if i :| 0 <= i < |es| && (es[i].Acknowledged? || es[i].Pipelined?) && es[i].last {
      if i < n { assert es[..n][i] == es[i]; }
    }
  }

  /**
   Whatever a peer sends: it is refused if and only if some message of its broke
   the channel's rules, told from the history alone; and until then what the
   receiver says is held, unconfirmed and last is what the history says.
   */
  lemma {:induction false} RefusedIffBroken(es: seq<Event>, window: nat)
    ensures var x := MeetAll(es, window);
            && x.listening
            && (x.poison <==> Broken(es, window))
            && (!x.poison ==> x.held == HeldBy(es) && x.outstanding == Waiting(es))
            && x.last == LastCame(es)
    decreases |es|
  {
    if es != [] {
      RefusedIffBroken(es[..|es| - 1], window);
      BrokenSnoc(es, window);
      WaitingSnoc(es);
      LastSnoc(es);
      hide Broken, Waiting, LastCame;
    }
  }

  /** So no peer makes a receiver hold more than the window and one chunk. */
  lemma {:induction false} HoldsAtMost(es: seq<Event>, window: nat, largest: nat)
    requires forall i :: 0 <= i < |es| && es[i].Pipelined? ==> es[i].size <= largest
    ensures MeetAll(es, window).held <= window + largest
    ensures var x := MeetAll(es, window); !x.poison && x.outstanding ==> x.held == 0
    decreases |es|
  {
    if es != [] { HoldsAtMost(es[..|es| - 1], window, largest); }
  }
}
