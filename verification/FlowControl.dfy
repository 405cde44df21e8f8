/** The two halves of credit flow control: a sender's ledger and a receiver's grantor. */
module FlowControl {
  import opened Basics

  /** Credit not yet reserved, the reservations waiting, and whether the peer is gone. */
  datatype Ledger = Ledger(available: nat, waiters: seq<nat>, failed: bool)

  /** What a call releases: the amounts given, to the waiters in their order. */
  datatype Released = Released(ledger: Ledger, given: seq<nat>)

  /** Waiters are released head first, each with what is left, up to what it asked. */
  function Release(l: Ledger): Released
    decreases |l.waiters|
  {
    if l.waiters == [] || l.available == 0 then Released(l, [])
    else
      var n := Min(l.waiters[0], l.available);
      var rest := Release(Ledger(l.available - n, l.waiters[1..], l.failed));
      Released(rest.ledger, [n] + rest.given)
  }

  datatype Reserved = Given(ledger: Ledger, units: nat) | Queued(ledger: Ledger) | Refused

  /** A reservation of less than one unit, or on a dead ledger, is refused. */
  function Reserve(l: Ledger, upTo: int): Reserved {
    if l.failed || upTo < 1 then Refused
    else if l.waiters == [] && l.available > 0 then
      var n := Min(upTo, l.available);
      Given(l.(available := l.available - n), n)
    else Queued(l.(waiters := l.waiters + [upTo]))
  }

  function Grant(l: Ledger, units: nat): Released {
    if l.failed then Released(l, []) else Release(l.(available := l.available + units))
  }

  function Fail(l: Ledger): Ledger {
    l.(waiters := [], failed := true)
  }

  /** Nobody waits while there is credit, and nobody waits for nothing. */
  predicate LedgerOk(l: Ledger) {
    && (l.waiters != [] ==> l.available == 0 && !l.failed)
    && forall i :: 0 <= i < |l.waiters| ==> l.waiters[i] >= 1
  }

  function Total(units: seq<nat>): nat {
    if units == [] then 0 else units[0] + Total(units[1..])
  }

  /**
   No unit is made or lost: what was there is there or given. The waiters served
   are the first ones, each with at least one unit and at most what it asked, all
   but the last of them in full; the rest keep their places.
   */
  lemma {:induction false} ReleaseConserves(l: Ledger)
    requires forall i :: 0 <= i < |l.waiters| ==> l.waiters[i] >= 1
    requires l.failed ==> l.waiters == []
    ensures var r := Release(l);
            && LedgerOk(r.ledger)
            && r.ledger.available + Total(r.given) == l.available
            && |r.given| <= |l.waiters| && r.ledger.waiters == l.waiters[|r.given|..] && r.ledger.failed == l.failed
            && (forall i :: 0 <= i < |r.given| ==> 1 <= r.given[i] <= l.waiters[i])
            && (forall i :: 0 <= i < |r.given| - 1 ==> r.given[i] == l.waiters[i])
    decreases |l.waiters|
  {
    if l.waiters != [] && l.available > 0 {
      var n := Min(l.waiters[0], l.available);
      ReleaseConserves(Ledger(l.available - n, l.waiters[1..], l.failed));
      var r := Release(l);
      var rest := Release(Ledger(l.available - n, l.waiters[1..], l.failed));
      assert r.given[1..] == rest.given;
      assert l.waiters[1..][|rest.given|..] == l.waiters[|r.given|..];
      forall i | 0 <= i < |r.given| - 1 ensures r.given[i] == l.waiters[i] {
        if i == 0 {
          assert rest.given != [];
        } else {
          assert r.given[i] == rest.given[i - 1] == l.waiters[1..][i - 1];
        }
      }
    }
  }

  /** Credit that is left was wanted by nobody: then every waiter was served in full. */
  lemma {:induction false} LeftIsUnwanted(l: Ledger)
    ensures var r := Release(l); r.ledger.available > 0 ==> r.given == l.waiters
    decreases |l.waiters|
  {
    if l.waiters != [] && l.available > 0 {
      var n := Min(l.waiters[0], l.available);
      LeftIsUnwanted(Ledger(l.available - n, l.waiters[1..], l.failed));
      assert l.waiters == [l.waiters[0]] + l.waiters[1..];
    }
  }

  /** What is asked for is given in full, or all there is; it waits only behind others or where there is none. */
  lemma ReserveConserves(l: Ledger, upTo: int)
    requires LedgerOk(l)
    ensures match Reserve(l, upTo)
            case Given(m, n) => 1 <= n <= upTo && m.available + n == l.available && (n < upTo ==> m.available == 0) && m.waiters == []
            case Queued(m) => upTo >= 1 && m.available == l.available == 0 && m.waiters == l.waiters + [upTo] && LedgerOk(m)
            case Refused => l.failed || upTo < 1
  {
  }

  class CreditLedger {
    var available: nat
    var waiters: seq<nat>
    var failed: bool

    function State(): Ledger
      reads this
    {
      Ledger(available, waiters, failed)
    }

    constructor (initial: nat)
      ensures State() == Ledger(initial, [], false)
    {
      available, waiters, failed := initial, [], false;
    }

    /** The amount given at once, or `None`: refused when it may not wait, queued otherwise. */
    method TryReserve(upTo: int) returns (given: Option<nat>)
      requires LedgerOk(State())
      modifies this
      ensures LedgerOk(State())
      ensures match Reserve(old(State()), upTo)
              case Given(l, n) => State() == l && given == Some(n) && 1 <= n <= upTo && (n < upTo ==> l.available == 0)
              case Queued(l) => State() == l && given == None
              case Refused => State() == old(State()) && given == None
    {
      if failed || upTo < 1 { return None; }
      if waiters == [] && available > 0 {
        var granted := Min(upTo, available);
        available := available - granted;
        return Some(granted);
      }
      waiters := waiters + [upTo];
      return None;
    }

    method Pump() returns (given: seq<nat>)
      requires failed ==> waiters == []
      modifies this
      ensures Released(State(), given) == Release(old(State()))
    {
      given := [];
      ghost var l := State();
      assert [] + Release(l).given == Release(l).given;
      while waiters != [] && available > 0
        invariant failed == l.failed
        invariant Released(Release(State()).ledger, given + Release(State()).given) == Release(l)
        decreases |waiters|
      {
        var granted := Min(waiters[0], available);
        ghost var now := Release(State());
        waiters := waiters[1..];
        available := available - granted;
        assert now.given == [granted] + Release(State()).given;
        assert given + ([granted] + Release(State()).given) == (given + [granted]) + Release(State()).given;
        given := given + [granted];
      }
      assert given + [] == given;
    }

    method AddCredit(units: nat) returns (given: seq<nat>)
      requires LedgerOk(State())
      modifies this
      ensures LedgerOk(State()) && Released(State(), given) == Grant(old(State()), units)
      ensures !old(failed) ==> available + Total(given) == old(available) + units
    {
      if failed { return []; }
      ReleaseConserves(State().(available := available + units));
      available := available + units;
      given := Pump();
    }

    method Abort()
      modifies this
      ensures State() == Fail(old(State())) && LedgerOk(State())
    {
      failed := true;
      while waiters != []
        invariant failed && available == old(available)
        decreases |waiters|
      {
        waiters := waiters[1..];
      }
    }
  }

  // ----- the receiver's grantor -----

  /** `threshold` is one half: the grant waits for half the window, or an empty queue. */
  function Trigger(window: nat): nat { Max(1, window / 2) }

  datatype Consumed = Consumed(pending: nat, grant: nat)

  function Consume(window: nat, pending: nat, units: nat, queueEmpty: bool): Consumed {
    var p := pending + units;
    if p == 0 || (p < Trigger(window) && !queueEmpty) then Consumed(p, 0) else Consumed(0, p)
  }

  /**
   Credit is held back or granted, never both; with the queue empty none is held
   back, and with bytes queued it is held back only below half the window.
   */
  lemma ConsumeConserves(window: nat, pending: nat, units: nat, queueEmpty: bool)
    ensures var c := Consume(window, pending, units, queueEmpty);
            && c.pending + c.grant == pending + units
            && (queueEmpty ==> c.pending == 0)
            && (c.pending > 0 ==> c.grant == 0 && 2 * c.pending < window)
            && (!queueEmpty && 2 * (pending + units) + 1 < window ==> c.grant == 0)
  {
  }

  class CreditGrantor {
    const window: nat
    var pending: nat

    constructor (window: nat)
      ensures this.window == window && pending == 0
    {
      this.window := window;
      pending := 0;
    }

    method Drained(units: nat, queueEmpty: bool) returns (grant: nat)
      modifies this
      ensures Consumed(pending, grant) == Consume(window, old(pending), units, queueEmpty)
    {
      pending := pending + units;
      if pending == 0 { return 0; }
      if pending < Trigger(window) && !queueEmpty { return 0; }
      grant := pending;
      pending := 0;
    }
  }
}
