/** Every step of one end keeps both directions of the port: the receiving half. */
module PortReceiveSteps {
  import opened Basics
  import opened PortSide
  import opened PortWire
  import opened PortWorld
  import opened PortSendSteps
  import opened PortCloseSteps

  /** What an end says to its own sending direction when it only receives. */
  lemma SendingKept(k: Terms, f: Flow, me: Side, out: seq<Envelope>, rs: seq<Envelope>)
    requires Transfer(k, f) && Half(k, f) && Life(f) && Room(k, f)
    requires me.hist.posted == f.s.hist.posted && me.outgoing == f.s.outgoing && me.hist.dropped == f.s.hist.dropped && me.hist.spilled == f.s.hist.spilled
    requires me.half.ending == f.s.half.ending && me.half.endSent == f.s.half.endSent
    requires me.queue == f.s.queue
    requires me.status == Live ==> f.s.status == Live && !(me.half.endSent && me.half.peerEnded)
    requires me.status == Dead ==> f.s.status == Dead || (me.half.endSent && me.half.peerEnded)
    requires f.s.half.peerEnded ==> me.half.peerEnded
    requires me.status == NotYet ==> f.s.status == NotYet
    requires Data(out) == []
    ensures var f' := f.(s := me, sr := f.sr + out, rs := rs);
            Coming(f') == Coming(f) && Transfer(k, f') && Half(k, f') && Life(f') && Room(k, f')
  {
    DataAppend(f.sr, out);
    var f' := f.(s := me, sr := f.sr + out, rs := rs);
    assert Coming(f') == Coming(f);
    hide Data, Credits, Ordered, Quiet, Feed;
    assert Room(k, f') by {
      hide Transfer, Half, Life;
      RoomLoosens(k, f, f');
    }
    hide Room;
    assert Transfer(k, f');
    hide Transfer;
    assert Half(k, f');
  }

  lemma OutKept(k: Terms, f: Flow, me: Side, out: seq<Envelope>, rs: seq<Envelope>)
    requires Dir(k, f)
    requires me.hist.posted == f.s.hist.posted && me.outgoing == f.s.outgoing && me.hist.dropped == f.s.hist.dropped && me.hist.spilled == f.s.hist.spilled
    requires me.half.ending == f.s.half.ending && me.half.endSent == f.s.half.endSent
    requires me.outstanding == f.s.outstanding && me.deal.enforced == f.s.deal.enforced
    requires me.queue == f.s.queue
    requires me.status == Live ==> f.s.status == Live && !(me.half.endSent && me.half.peerEnded)
    requires me.status == Dead ==> f.s.status == Dead || (me.half.endSent && me.half.peerEnded)
    requires f.s.half.peerEnded ==> me.half.peerEnded
    requires me.status == NotYet ==> f.s.status == NotYet
    requires Data(out) == [] && Credits(rs) == Credits(f.rs)
    ensures Dir(k, f.(s := me, sr := f.sr + out, rs := rs))
  {
    hide Transfer, Half, Life, Room, Data, Credits, Coming;
    SendingKept(k, f, me, out, rs);
  }

  // ----- consumption -----

  lemma {:induction false} HeldRemove(h: seq<Held>, i: nat)
    requires i < |h|
    ensures HeldSum(h[..i] + h[i + 1..]) + h[i].size == HeldSum(h)
  {
    if i == 0 {
      assert h[..0] + h[1..] == h[1..];
    } else {
      assert (h[..i] + h[i + 1..])[1..] == h[1..][..i - 1] + h[1..][i..];
      HeldRemove(h[1..], i - 1);
    }
  }

  /** Consuming, and giving credit back, only moves bytes along the ledger. */
  lemma ConsumeKeeps(k: Terms, f: Flow, me: Side, out: seq<Envelope>)
    requires Dir(k, f)
    requires me.hist.delivered == f.r.hist.delivered && me.half.peerEnded == f.r.half.peerEnded
    requires me.status == f.r.status && me.partial == f.r.partial
    requires me.unconsumed + me.toGrant + Credits(out) == f.r.unconsumed + f.r.toGrant || me.status == Dead
    ensures Dir(k, f.(r := me, rs := f.rs + out))
  {
    CreditsAppend(f.rs, out);
    var f' := f.(r := me, rs := f.rs + out);
    assert Coming(f') == Coming(f);
    hide Data, Credits, Ordered, Quiet, Feed, Coming;
    assert Room(k, f') by {
      hide Transfer, Half, Life, Ledger;
      RoomLoosens(k, f, f');
    }
    hide Room;
    assert Ledger(k, f');
    hide Ledger;
    assert Transfer(k, f');
  }

  lemma GrantShape(s: Side)
    ensures var e := SendGrant(s);
            && e.side == s.(clock := s.clock.(grantScheduled := false), toGrant := e.side.toGrant)
            && e.side.toGrant + Credits(e.out) == s.toGrant
            && Data(e.out) == [] && NoOpen(e.out)
            && (s.status == Live ==> e.side.toGrant == 0)
  {
    var e := SendGrant(s);
    assert e.out != [] ==> e.out[1..] == [];
  }

  lemma GrantFacts(s: Side, n: nat)
    requires n <= s.unconsumed
    ensures var e := Grant(s, n);
            && e.side == s.(unconsumed := s.unconsumed - n, toGrant := e.side.toGrant,
                            clock := e.side.clock)
            && e.side.toGrant + Credits(e.out) == s.toGrant + n
            && Data(e.out) == [] && NoOpen(e.out)
            && (s.status == Live && e.side.toGrant > 0 ==> e.side.clock.grantScheduled)
            && ((s.clock.grantScheduled ==> s.clock.timers > 0) ==> e.side.clock.grantScheduled ==> e.side.clock.timers > 0)
  {
    EmptyWire();
    hide Data, Credits, SendGrant, NoOpen;
    GrantShape(s.(unconsumed := s.unconsumed - n, toGrant := s.toGrant + n));
  }

  lemma EmptyWire()
    ensures Data([]) == [] && Credits([]) == 0 && NoOpen([])
  {
  }

  /** The listeners of a message settle. */
  lemma SettleShape(k: Terms, o: Options, isA: bool, s: Side, i: nat)
    requires Local(k, o, isA, s) && i < |s.unsettled|
    ensures var e := SettleOne(s, i);
            && e.side == s.(unsettled := e.side.unsettled, unconsumed := e.side.unconsumed, toGrant := e.side.toGrant,
                            clock := e.side.clock)
            && e.side.unconsumed + e.side.toGrant + Credits(e.out) == s.unconsumed + s.toGrant
            && Data(e.out) == [] && NoOpen(e.out)
            && Local(k, o, isA, e.side)
  {
    hide Local, HeldSum, Grant, Data, Credits, NoOpen;
    HeldRemove(s.unsettled, i);
    LocalSums(k, o, isA, s);
    GrantFacts(s.(unsettled := s.unsettled[..i] + s.unsettled[i + 1..]), s.unsettled[i].size);
    LocalCounts(k, o, isA, s, SettleOne(s, i).side);
  }

  lemma LocalSums(k: Terms, o: Options, isA: bool, s: Side)
    requires Local(k, o, isA, s)
    ensures s.unconsumed == HeldSum(s.unsettled) && (s.status == Live && s.toGrant > 0 ==> s.clock.grantScheduled)
    ensures s.clock.grantScheduled ==> s.clock.timers > 0
    ensures s.status == NotYet ==> s.clock.timers == 0 && s.unsettled == []
  {
  }

  lemma LocalCounts(k: Terms, o: Options, isA: bool, s: Side, s': Side)
    requires Local(k, o, isA, s)
    requires s' == s.(unsettled := s'.unsettled, unconsumed := s'.unconsumed, toGrant := s'.toGrant,
                      clock := s'.clock, hist := s'.hist)
    requires s'.unconsumed == HeldSum(s'.unsettled) && s.status != NotYet
    requires s'.status == Live && s'.toGrant > 0 ==> s'.clock.grantScheduled
    requires s'.clock.grantScheduled ==> s'.clock.timers > 0
    ensures Local(k, o, isA, s')
  {
    hide Flatten, Size, ItemSum, HeldSum, Plain;
    assert QueueOk(k, s');
  }

  lemma TimerShape(k: Terms, o: Options, isA: bool, s: Side)
    requires Local(k, o, isA, s) && s.clock.timers > 0
    ensures var e := FireTimer(s);
            && e.side == s.(toGrant := e.side.toGrant, clock := Clock(false, s.clock.timers - 1))
            && e.side.toGrant + Credits(e.out) == s.toGrant
            && Data(e.out) == [] && NoOpen(e.out)
            && Local(k, o, isA, e.side)
  {
    GrantShape(s.(clock := s.clock.(timers := s.clock.timers - 1)));
    hide Local, HeldSum;
    LocalCounts(k, o, isA, s, FireTimer(s).side) by { LocalSums(k, o, isA, s); }
  }

  // ----- credit arrives -----

  lemma CreditFacts(f: Flow)
    requires f.rs != [] && f.rs[0].Credit?
    ensures Credits(f.rs) == f.rs[0].bytes + Credits(f.rs[1..])
    ensures Data(f.rs) == Data(f.rs[1..])
  {
  }

  lemma CreditLocal(k: Terms, o: Options, isA: bool, s: Side, e: Envelope)
    requires Local(k, o, isA, s) && !CanFlush(s) && s.status == Live && e.Credit?
    requires o == if isA then k.oa else k.ob
    requires isA && !s.deal.enforced ==> e == Ack(k)
    ensures Local(k, o, isA, TakeCredit(o, s, e).side)
  {
    var t := TakeCredit(o, s, e).side;
    assert o.caps * (k.oa.caps * k.ob.caps) == k.oa.caps * k.ob.caps;
    assert !s.deal.enforced ==> s.queue == [];
    hide Flatten, HeldSum, Plain;
    assert QueueOk(k, t);
  }

  /** The sender hears what it may send again: the clamp at zero never bites. */
  lemma CreditKeeps(k: Terms, o: Options, isA: bool, f: Flow)
    requires Local(k, o, isA, f.s) && !CanFlush(f.s) && Dir(k, f) && f.s.status == Live
    requires f.rs != [] && f.rs[0].Credit? && f.tight == (!isA || Agreed(k))
    requires o == if isA then k.oa else k.ob
    requires isA && !f.s.deal.enforced ==> f.rs[0] == Ack(k)
    ensures var e := TakeCredit(o, f.s, f.rs[0]);
            && Dir(k, f.(s := e.side, sr := f.sr + e.out, rs := f.rs[1..]))
            && Local(k, o, isA, e.side)
            && Data(e.out) == [] && Credits(e.out) == 0 && NoOpen(e.out)
            && e.side == f.s.(deal := e.side.deal, outstanding := e.side.outstanding)
            && (f.tight && f.r.status != Dead ==> f.rs[0].bytes <= f.s.outstanding)
  {
    CreditFacts(f);
    CreditLocal(k, o, isA, f.s, f.rs[0]);
    var e := TakeCredit(o, f.s, f.rs[0]);
    assert e.out != [] ==> e.out[1..] == [];
    hide Local, Data, Credits, Ledger, Coming, Transfer, Half, Life, Room, CanFlush;
    CreditLife(f);
    SendingKept(k, f, e.side, e.out, f.rs[1..]);
    DataAppend(f.sr, e.out);
    CreditLedger(k, o, isA, f);
  }

  lemma CreditLife(f: Flow)
    requires Life(f)
    ensures f.s.status == Live ==> !(f.s.half.endSent && f.s.half.peerEnded)
  {
  }

  lemma LocalModes(k: Terms, o: Options, isA: bool, s: Side)
    requires Local(k, o, isA, s)
    ensures s.deal.opener == isA && (isA && !s.deal.enforced ==> s.deal.exact == k.oa.exactCodec)
    ensures s.status == Live ==> s.window == k.window
    ensures !isA && s.status == Live ==> s.deal.exact == Mode(k) && s.deal.caps == Shared(k)
    ensures isA && s.deal.enforced ==> s.deal.exact == Mode(k) && s.deal.caps == Shared(k)
  {
  }

  lemma CreditLedger(k: Terms, o: Options, isA: bool, f: Flow)
    requires Local(k, o, isA, f.s) && Ledger(k, f) && f.s.status == Live
    requires f.rs != [] && f.rs[0].Credit? && f.tight == (!isA || Agreed(k))
    requires isA && !f.s.deal.enforced ==> f.rs[0] == Ack(k)
    ensures var e := TakeCredit(o, f.s, f.rs[0]);
            && (f.tight && f.r.status != Dead ==> f.rs[0].bytes <= f.s.outstanding)
            && forall sr :: Data(sr) == Data(f.sr) ==> Ledger(k, f.(s := e.side, sr := sr, rs := f.rs[1..]))
  {
    LocalModes(k, o, isA, f.s);
    CreditFacts(f);
    hide Local, Data, Credits;
  }

  // ----- traffic arrives -----

  lemma OrderedTail(es: seq<Envelope>)
    requires Ordered(es) && es != []
    ensures Ordered(es[1..])
    ensures es[0].End? ==> Quiet(es[1..])
  {
    var t := es[1..];
    forall i, j | 0 <= i < j < |t| && t[i].End? ensures !Traffic(t[j]) {
      assert es[i + 1] == t[i] && es[j + 1] == t[j];
    }
    if es[0].End? {
      forall e | e in t ensures !Traffic(e) {
        var j :| 0 <= j < |t| && t[j] == e;
        assert es[j + 1] == e;
      }
    }
  }

  /** The pipe after its oldest envelope is taken. */
  lemma ComingHead(f: Flow)
    requires f.sr != []
    ensures var e := f.sr[0];
            && (e.Open? || e.Credit? ==> Coming(f.(sr := f.sr[1..])) == Coming(f) && Data(f.sr) == Data(f.sr[1..]))
            && (!e.Open? && !e.Credit? ==>
                  && Coming(f) != [] && Coming(f)[0] == e && Coming(f.(sr := f.sr[1..])) == Coming(f)[1..]
                  && Data(f.sr) == [e] + Data(f.sr[1..]))
  {
    var e := f.sr[0];
    if !e.Open? && !e.Credit? {
      assert Data(f.sr) + f.s.outgoing == [e] + (Data(f.sr[1..]) + f.s.outgoing);
    }
  }

  /** A closed end hears nothing. */
  lemma DeadHears(k: Terms, f: Flow, me: Side, out: seq<Envelope>)
    requires Dir(k, f) && f.sr != [] && me.status == Dead
    requires me.hist.delivered == f.r.hist.delivered && (me.half.peerEnded ==> f.r.half.peerEnded)
    ensures Dir(k, f.(r := me, sr := f.sr[1..], rs := f.rs + out))
  {
    ComingHead(f);
    var f' := f.(r := me, sr := f.sr[1..], rs := f.rs + out);
    assert Coming(f') == Coming(f.(sr := f.sr[1..]));
    hide Data, Credits, Feed, Fits;
    DeadHalf(k, f, f') by { if Coming(f') != Coming(f) { OrderedTail(Coming(f)); } }
  }

  lemma DeadHalf(k: Terms, f: Flow, f': Flow)
    requires Half(k, f) && f'.s == f.s && f'.r.status == Dead && (f'.r.half.peerEnded ==> f.r.half.peerEnded)
    requires Coming(f') == Coming(f) || (Coming(f) != [] && Coming(f') == Coming(f)[1..])
    requires Ordered(Coming(f')) && (End in Data(f'.sr) ==> End in Data(f.sr))
    ensures Half(k, f')
  {
    forall e | e in Coming(f') ensures e in Coming(f) {}
  }

  /** A receiver the port's traffic finds as the handshake left it. */
  predicate Ready(k: Terms, s: Side) {
    s.status == Live && s.window == k.window && s.deal.exact == Mode(k) && s.deal.caps == Shared(k) && PartialOk(s)
  }

  lemma HeldAppend(h: seq<Held>, x: Held)
    ensures HeldSum(h + [x]) == HeldSum(h) + x.size
  {
    if h == [] {
      assert h + [x] == [x];
    } else {
      assert (h + [x])[1..] == h[1..] + [x];
      HeldAppend(h[1..], x);
    }
  }

  /** Once the peer's `end` was read, nothing more of its traffic arrives. */
  lemma NothingAfterEnd(k: Terms, f: Flow)
    requires Half(k, f) && f.sr != [] && Traffic(f.sr[0])
    ensures !f.r.half.peerEnded
  {
    ComingHead(f);
    assert f.sr[0] in Coming(f);
  }

  lemma MoveOne<T>(d: seq<T>, p: T, m: seq<T>, q: seq<T>, posted: seq<T>)
    ensures d + ([p] + m) + q == (d + [p]) + m + q
    ensures d + ([p] + m) + q <= posted ==> d + [p] <= posted
  {
    assert d + ([p] + m) + q == (d + [p]) + m + q == (d + [p]) + (m + q);
  }

  // --- a whole message ---

  lemma MessageTransfer(k: Terms, f: Flow, n: nat)
    requires Transfer(k, f) && f.r.status == Live && f.sr != [] && f.sr[0].Message?
    requires f.r.partial.Some? ==> f.r.partial.value.bytes == |Flatten(f.r.partial.value.chunks)| > 0
    ensures f.r.partial == None
    ensures Transfer(k, f.(r := Deliver(f.r, f.r.partial, f.sr[0].payload, n), sr := f.sr[1..]))
  {
    ComingHead(f);
    var p := f.sr[0].payload;
    var g' := Feed(k.codec, [], Coming(f)[1..]);
    MoveOne(f.r.hist.delivered, p, g'.msgs, Payloads(f.s.queue), f.s.hist.posted);
    hide Data, Payloads, Flatten;
  }

  lemma MessageHalf(k: Terms, f: Flow, me: Side)
    requires Half(k, f) && f.r.status == Live == me.status && me.half.peerEnded == f.r.half.peerEnded
    requires f.sr != [] && (f.sr[0].Message? || f.sr[0].Frame?)
    ensures Half(k, f.(r := me, sr := f.sr[1..]))
  {
    ComingHead(f);
    OrderedTail(Coming(f));
    NothingAfterEnd(k, f);
    var f' := f.(r := me, sr := f.sr[1..]);
    assert Coming(f') == Coming(f)[1..];
    assert Coming(f) == [f.sr[0]] + Coming(f)[1..];
    hide Data;
  }

  lemma MessageLedger(k: Terms, f: Flow)
    requires Ledger(k, f) && f.r.status == Live && f.r.partial == None && f.sr != [] && f.sr[0].Message?
    ensures Ledger(k, f.(r := Deliver(f.r, f.r.partial, f.sr[0].payload, Size(k.codec, Mode(k), f.sr[0].payload)), sr := f.sr[1..]))
       || f.r.window == 0
  {
    ComingHead(f);
  }

  lemma MessageRoom(k: Terms, f: Flow)
    requires Room(k, f) && f.r.status == Live && f.r.window > 0 && f.r.partial == None && f.sr != [] && f.sr[0].Message?
    ensures Room(k, f.(r := Deliver(f.r, f.r.partial, f.sr[0].payload, Size(k.codec, Mode(k), f.sr[0].payload)), sr := f.sr[1..]))
    ensures f.tight && !f.s.hist.spilled && k.chunk(f.sr[0].payload) ==>
              || f.r.unconsumed + f.r.toGrant == 0
              || f.r.unconsumed + f.r.toGrant + Size(k.codec, Mode(k), f.sr[0].payload) <= k.window
  {
    ComingHead(f);
    forall e | e in Coming(f)[1..] ensures e in Coming(f) {}
    hide Data, Flatten, Size, Coming;
  }

  lemma LifeTail(f: Flow, me: Side)
    requires Life(f) && f.sr != [] && f.sr[0] != Close && (me.status == f.r.status || me.status == Dead)
    ensures Life(f.(r := me, sr := f.sr[1..]))
  {
    hide Data;
    ComingHead(f);
    var f' := f.(r := me, sr := f.sr[1..]);
    assert Coming(f') != Coming(f) ==> Coming(f) == [f.sr[0]] + Coming(f');
    hide Coming;
  }

  lemma MessageKeeps(k: Terms, o: Options, isA: bool, f: Flow)
    requires TermsOk(k) && Dir(k, f) && Ready(k, f.r) && Local(k, o, isA, f.r)
    requires f.sr != [] && f.sr[0].Message?
    ensures var me := Deliver(f.r, f.r.partial, f.sr[0].payload, Size(k.codec, f.r.deal.exact, f.sr[0].payload));
            !f.r.half.peerEnded && Dir(k, f.(r := me, sr := f.sr[1..])) && Local(k, o, isA, me)
  {
    var p := f.sr[0].payload;
    var n := Size(k.codec, Mode(k), p);
    var me := Deliver(f.r, f.r.partial, p, n);
    NothingAfterEnd(k, f);
    HeldAppend(f.r.unsettled, Held(p, n));
    hide CodecOk, Transfer, Half, Room, Ledger, Life, Local, Size, HeldSum;
    MessageTransfer(k, f, n);
    MessageHalf(k, f, me);
    MessageLedger(k, f);
    MessageRoom(k, f);
    LifeTail(f, me);
    LocalSums(k, o, isA, f.r);
    LocalCounts(k, o, isA, f.r, me);
  }

  // --- a frame ---

  /** The receiver after a frame it took. */
  function Framed(c: Codec, s: Side, e: Envelope): Side
    requires e.Frame?
  {
    var pt := PartialOf(s);
    var more := Partial(pt.chunks + [e.data], pt.bytes + |e.data|, pt.room, Charge(s, pt, |e.data|));
    if !e.last then s.(partial := Some(more))
    else
      var whole := Flatten(more.chunks);
      match c.decode(whole)
      case None => s.(partial := None)
      case Some(p) => Deliver(s, None, p, |whole|)
  }

  lemma FrameBytes(s: Side, x: Bytes)
    requires PartialOk(s)
    ensures Flatten(PartialOf(s).chunks) == BufOf(s) && PartialOf(s).bytes == PartialBytes(s) == |BufOf(s)|
    ensures Flatten(PartialOf(s).chunks + [x]) == BufOf(s) + x
  {
    FlattenSnoc(PartialOf(s).chunks, x);
  }

  lemma FrameTransfer(k: Terms, f: Flow)
    requires Transfer(k, f) && f.r.status == Live && PartialOk(f.r) && f.sr != [] && f.sr[0].Frame?
    ensures f.sr[0].data != []
    ensures f.sr[0].last ==>
              var p := k.codec.decode(BufOf(f.r) + f.sr[0].data);
              p.Some? && k.codec.encode(p.value) == BufOf(f.r) + f.sr[0].data
    ensures Transfer(k, f.(r := Framed(k.codec, f.r, f.sr[0]), sr := f.sr[1..]))
  {
    ComingHead(f);
    var e := f.sr[0];
    FrameBytes(f.r, e.data);
    var me := Framed(k.codec, f.r, e);
    hide Data, Payloads, Flatten;
    if e.last {
      var p := k.codec.decode(BufOf(f.r) + e.data).value;
      var g' := Feed(k.codec, [], Coming(f)[1..]);
      MoveOne(f.r.hist.delivered, p, g'.msgs, Payloads(f.s.queue), f.s.hist.posted);
    }
  }

  lemma FrameLedger(k: Terms, f: Flow)
    requires Ledger(k, f) && f.r.status == Live && PartialOk(f.r) && f.sr != [] && f.sr[0].Frame? && f.r.window > 0
    requires f.sr[0].last ==> k.codec.decode(BufOf(f.r) + f.sr[0].data).Some?
    ensures Ledger(k, f.(r := Framed(k.codec, f.r, f.sr[0]), sr := f.sr[1..]))
  {
    CreditFactsData(f);
    hide Data, Flatten, Credits, CodecOk;
    ComingHead(f);
    FrameBytes(f.r, f.sr[0].data);
    hide Coming;
  }

  lemma CreditFactsData(f: Flow)
    requires f.sr != [] && !f.sr[0].Credit?
    ensures Credits(f.sr) == Credits(f.sr[1..])
  {
  }

  /** Neither the room a message began with nor, hence, the window test refuses an honest frame. */
  lemma FrameRoom(k: Terms, f: Flow)
    requires Room(k, f) && f.r.status == Live && f.r.window == k.window && PartialOk(f.r) && f.tight
    requires f.sr != [] && f.sr[0].Frame? && k.window > 0
    requires f.sr[0].last ==> k.codec.decode(BufOf(f.r) + f.sr[0].data).Some?
    ensures !PastRoom(PartialOf(f.r), |f.sr[0].data|)
    ensures Room(k, f.(r := Framed(k.codec, f.r, f.sr[0]), sr := f.sr[1..]))
  {
    hide Data, Flatten, CodecOk;
    ComingHead(f);
    FrameBytes(f.r, f.sr[0].data);
    forall e | e in Coming(f)[1..] ensures e in Coming(f) {}
    assert f.sr[0] in Coming(f);
    hide Coming;
  }

  lemma FramedLocal(k: Terms, o: Options, isA: bool, s: Side, e: Envelope)
    requires Local(k, o, isA, s) && s.status == Live && s.window > 0 && e.Frame? && e.data != []
    requires e.last ==> k.codec.decode(BufOf(s) + e.data).Some?
    ensures Local(k, o, isA, Framed(k.codec, s, e))
  {
    assert PartialOk(s);
    FrameBytes(s, e.data);
    var me := Framed(k.codec, s, e);
    if e.last {
      HeldAppend(s.unsettled, Held(k.codec.decode(BufOf(s) + e.data).value, |BufOf(s) + e.data|));
    }
    hide Flatten, HeldSum, ItemSum, Size, Plain;
    assert QueueOk(k, me);
  }

  lemma FrameKeeps(k: Terms, o: Options, isA: bool, f: Flow)
    requires TermsOk(k) && Dir(k, f) && Ready(k, f.r) && Local(k, o, isA, f.r) && f.tight == (isA || Agreed(k))
    requires f.sr != [] && f.sr[0].Frame?
    ensures Mode(k) && !f.r.half.peerEnded && !PastRoom(PartialOf(f.r), |f.sr[0].data|)
    ensures Dir(k, f.(r := Framed(k.codec, f.r, f.sr[0]), sr := f.sr[1..]))
    ensures Local(k, o, isA, Framed(k.codec, f.r, f.sr[0]))
  {
    var me := Framed(k.codec, f.r, f.sr[0]);
    FramedShape(k.codec, f.r, f.sr[0]);
    NothingAfterEnd(k, f);
    FramesMeanExact(k, f);
    hide CodecOk, Transfer, Half, Room, Ledger, Life, Local, Framed, PastRoom, PartialOf;
    FrameTransfer(k, f);
    MessageHalf(k, f, me);
    FrameLedger(k, f);
    FrameRoom(k, f);
    LifeTail(f, me);
    FramedLocal(k, o, isA, f.r, f.sr[0]);
  }

  lemma FramedShape(c: Codec, s: Side, e: Envelope)
    requires e.Frame?
    ensures var me := Framed(c, s, e); me.status == s.status && me.half.peerEnded == s.half.peerEnded
  {
  }

  lemma FramesMeanExact(k: Terms, f: Flow)
    requires Room(k, f) && f.r.status == Live && f.sr != [] && f.sr[0].Frame?
    ensures Mode(k)
  {
    ComingHead(f);
    assert f.sr[0] in Coming(f);
  }

  // --- an end ---

  lemma EndKeeps(k: Terms, o: Options, isA: bool, f: Flow)
    requires Dir(k, f) && Ready(k, f.r) && Local(k, o, isA, f.r) && f.sr != [] && f.sr[0].End?
    ensures HalfClose in f.r.deal.caps && !f.r.half.peerEnded
    ensures var me := FreeIfEnded(f.r.(half := f.r.half.(peerEnded := true)));
            Dir(k, f.(r := me, sr := f.sr[1..])) && Local(k, o, isA, me)
  {
    var me := FreeIfEnded(f.r.(half := f.r.half.(peerEnded := true)));
    NothingAfterEnd(k, f);
    EndHalf(k, f, me);
    EndLocal(k, o, isA, f.r);
    hide Half, Local;
    EndRest(k, f, me);
  }

  lemma EndHalf(k: Terms, f: Flow, me: Side)
    requires Half(k, f) && f.r.status == Live && f.sr != [] && f.sr[0].End? && me.half.peerEnded
    ensures HalfClose in Shared(k) && f.s.half.endSent && f.s.queue == []
    ensures Coming(f) != [] && Quiet(Coming(f)[1..])
    ensures Half(k, f.(r := me, sr := f.sr[1..]))
  {
    ComingHead(f);
    assert f.sr[0] in Coming(f) && End in Data(f.sr);
    OrderedTail(Coming(f));
    var f' := f.(r := me, sr := f.sr[1..]);
    assert Coming(f') == Coming(f)[1..];
    assert End !in Data(f'.sr) by { assert forall e :: e in Data(f'.sr) ==> e in Coming(f'); }
  }

  lemma EndRest(k: Terms, f: Flow, me: Side)
    requires Transfer(k, f) && Life(f) && Ledger(k, f) && Room(k, f)
    requires f.r.status == Live && f.sr != [] && f.sr[0].End?
    requires me.hist == f.r.hist && me.unconsumed == f.r.unconsumed && me.toGrant == f.r.toGrant && me.half.peerEnded
    requires (me.status == Live && me.partial == f.r.partial) || me.status == Dead
    requires f.s.half.endSent && f.s.queue == [] && Quiet(Coming(f)[1..])
    ensures var f' := f.(r := me, sr := f.sr[1..]); Transfer(k, f') && Life(f') && Ledger(k, f') && Room(k, f')
  {
    ComingHead(f);
    LifeTail(f, me);
    CreditFactsData(f);
    FeedQuiet(k.codec, BufOf(f.r), Coming(f)[1..]);
    forall e | e in Coming(f)[1..] ensures e in Coming(f) {}
    var f' := f.(r := me, sr := f.sr[1..]);
    assert Coming(f') == Coming(f)[1..];
    hide Data, Flatten, Credits, Coming, Life;
    assert Transfer(k, f') by { hide Room, Ledger, Fits; }
    hide Transfer, Feed;
    assert Ledger(k, f') by { hide Room, Fits; }
    hide Ledger;
    assert Room(k, f');
  }

  lemma EndLocal(k: Terms, o: Options, isA: bool, s: Side)
    requires Local(k, o, isA, s) && s.status == Live
    ensures Local(k, o, isA, FreeIfEnded(s.(half := s.half.(peerEnded := true))))
  {
    hide Flatten, HeldSum, Size, Plain;
    assert QueueOk(k, FreeIfEnded(s.(half := s.half.(peerEnded := true))));
  }
}
