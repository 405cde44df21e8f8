/** Every step of one end of a credit-multiplexed stream keeps both directions. */
module CreditSteps {
  import opened Basics
  import opened FlowControl
  import opened CreditSide
  import opened CreditWorld
  import U = Uint32

  /** One end's two directions. */
  predicate View(fo: Flow, fi: Flow) {
    && fi.s == fo.r && fi.r == fo.s && fi.sr == fo.rs && fi.rs == fo.sr
    && Local(fo.s) && Local(fo.r) && Dir(fo) && Dir(fi)
  }

  /** What a step leaves. */
  predicate Kept(fo: Flow, fi: Flow, e: Effect, inbox: seq<Frame>) {
    && Local(e.side)
    && Dir(fo.(s := e.side, sr := fo.sr + e.out, rs := inbox))
    && Dir(fi.(r := e.side, sr := inbox, rs := fi.rs + e.out))
  }

  lemma FrameAppend(x: seq<Frame>, f: Frame)
    requires Ordered(x) && !HasFinal(x) && (EndFrame in x ==> !f.Data? && !f.EndFrame?)
    ensures Ordered(x + [f])
    ensures HasFinal(x + [f]) <==> Final(f)
    ensures EndFrame in x + [f] <==> EndFrame in x || f.EndFrame?
    ensures NoData(x + [f]) <==> NoData(x) && !f.Data?
    ensures DataOf(x + [f]) == DataOf(x) + (if f.Data? then f.bytes else [])
    ensures Grants(x + [f]) == Grants(x) + (match f case Open(w) => w case Ack(n) => n case _ => 0)
  {
    DataAppend(x, [f]);
    GrantsAppend(x, [f]);
    assert [f][1..] == [];
    assert forall g :: g in x + [f] <==> g in x || g == f;
    var y := x + [f];
    forall i | 0 <= i < |y| - 1 ensures !Final(y[i]) && y[i] in x {}
    if Final(f) { assert f in x + [f]; }
  }

  lemma NothingSent(x: seq<Frame>)
    ensures x + [] == x
  {
  }

  // ----- this end as a receiver, when it only sends -----

  /** What a step that only sends leaves of the receiving half. */
  lemma ReceiverIdle(f: Flow, r': Side, out: seq<Frame>)
    requires Dir(f) && r'.inb == f.r.inb && (f.r.outb.done ==> r'.outb.done)
    requires r'.status == f.r.status || r'.status == Gone
    requires r'.status == f.r.status ==> Grants(f.rs + out) == Grants(f.rs)
    ensures Dir(f.(r := r', rs := f.rs + out))
  {
  }

  // ----- the pump -----

  lemma ReserveFacts(c: Config, s: Side)
    requires ConfigOk(c) && s.outb.chunk != [] && LedgerOk(s.outb.ledger) && s.outb.ledger.waiters == [] && !s.outb.ledger.failed
    requires !s.outb.phase.Taken?
    ensures var t := ReserveNext(c, s);
            && Held(t) == Held(s) && LedgerOk(t.outb.ledger) && !t.outb.ledger.failed
            && t == s.(outb := s.outb.(ledger := t.outb.ledger, phase := t.outb.phase))
            && ((t.outb.phase.Taken? && 1 <= t.outb.phase.units <= |t.outb.chunk| && t.outb.ledger.waiters == [])
                || (t.outb.phase.Parked? && |t.outb.ledger.waiters| == 1 && 1 <= t.outb.ledger.waiters[0] <= |t.outb.chunk|))
  {
  }

  /** Both directions of an end whose pump moves on without sending. */
  lemma PumpMoves(fo: Flow, fi: Flow, t: Side)
    requires View(fo, fi) && Local(t)
    requires t.status == fo.s.status && t.inb == fo.s.inb && t.outb.sent == fo.s.outb.sent && t.outb.done == fo.s.outb.done
    requires Held(t) == Held(fo.s) || (fo.s.status == Gone && Held(t) <= Held(fo.s))
    ensures Kept(fo, fi, Effect(t, []), fo.rs)
  {
    NothingSent(fo.sr);
    NothingSent(fi.rs);
    hide Local;
    PumpMovesOut(fo, t);
    PumpMovesIn(fi, t);
    hide Dir;
  }

  lemma PumpMovesOut(f: Flow, s': Side)
    requires Dir(f) && s'.status == f.s.status && s'.outb.sent == f.s.outb.sent && s'.outb.done == f.s.outb.done
    requires Held(s') == Held(f.s) || (f.s.status == Gone && Held(s') <= Held(f.s))
    ensures Dir(f.(s := s'))
  {
    hide DataOf, Grants, Content, Ordered, HasFinal, NoData, CauseOf, Held;
  }

  lemma PumpMovesIn(f: Flow, r': Side)
    requires Dir(f) && r'.status == f.r.status && r'.inb == f.r.inb && r'.outb.done == f.r.outb.done
    ensures Dir(f.(r := r'))
  {
    hide DataOf, Grants, Content, Ordered, HasFinal, NoData, CauseOf, Held;
  }

  /** What the pump of a freed stream does: it notices, and stops. */
  lemma PumpStops(fo: Flow, fi: Flow)
    requires View(fo, fi) && fo.s.status == Gone && (fo.s.outb.phase.Waiting? || fo.s.outb.phase.Taken?)
    ensures Kept(fo, fi, Effect(fo.s.(outb := fo.s.outb.(phase := Over)), []), fo.rs)
  {
    var t := fo.s.(outb := fo.s.outb.(phase := Over));
    assert Local(t) by {
      SameQueue(fo.s, t);
      hide QueueOk, LedgerOk;
    }
    hide Local, Dir;
    PumpMoves(fo, fi, t);
  }

  lemma SameQueue(s: Side, t: Side)
    requires QueueOk(s) && t.inb == s.inb && t.status == s.status
    ensures QueueOk(t)
  {
  }

  lemma OfferLocal(c: Config, s: Side, chunk: Bytes)
    requires ConfigOk(c) && Local(s) && s.status == Live && s.outb.phase.Waiting? && chunk != []
    ensures var t := OfferChunk(c, s, chunk);
            && Local(t) && Held(t) == Held(s) && t.status == Live && t.inb == s.inb && t.outb.sent == s.outb.sent && t.outb.done == s.outb.done
  {
    var u := s.(outb := s.outb.(chunk := chunk, offered := s.outb.offered + chunk));
    ReserveFacts(c, u);
    var t := OfferChunk(c, s, chunk);
    assert s.outb.sent + [] == s.outb.sent;
    SameQueue(s, t);
    hide QueueOk, LedgerOk, ReserveNext;
  }

  lemma OfferKept(c: Config, fo: Flow, fi: Flow, chunk: Bytes)
    requires ConfigOk(c) && View(fo, fi) && fo.s.outb.phase.Waiting? && fo.s.status != NotYet
    ensures Kept(fo, fi, Effect(OfferChunk(c, fo.s, chunk), []), fo.rs)
  {
    if fo.s.status == Gone {
      hide Local, Dir;
      PumpStops(fo, fi);
    } else if chunk == [] {
      hide Local, Dir;
      IdleKept(fo, fi);
    } else {
      OfferLocal(c, fo.s, chunk);
      hide Local, Dir, OfferChunk, Held;
      PumpMoves(fo, fi, OfferChunk(c, fo.s, chunk));
    }
  }

  lemma SendKept(c: Config, fo: Flow, fi: Flow)
    requires ConfigOk(c) && View(fo, fi) && fo.s.outb.phase.Taken? && fo.s.status != NotYet
    ensures Kept(fo, fi, SendPiece(c, fo.s), fo.rs)
  {
    var s := fo.s;
    var e := SendPiece(c, s);
    if s.status == Gone {
      hide Local, Dir;
      PumpStops(fo, fi);
    } else {
      var n := s.outb.phase.units;
      var piece := s.outb.chunk[..n];
      assert piece + s.outb.chunk[n..] == s.outb.chunk;
      FrameAppend(fo.sr, Data(piece));
      var t := s.(outb := s.outb.(chunk := s.outb.chunk[n..], sent := s.outb.sent + piece, phase := Waiting));
      if t.outb.chunk != [] { ReserveFacts(c, t); }
      SentLocal(s, e.side, n);
      SentDir(fo, e.side, piece);
      hide DataOf, Grants, Content, Units, Ordered, HasFinal, NoData, LedgerOk, Local, Faithful, Order, Credit, SendPiece;
      ReceiverIdle(fi, e.side, [Data(piece)]);
    }
  }

  lemma SentLocal(s: Side, t: Side, n: nat)
    requires Local(s) && s.status == Live && s.outb.phase == Taken(n)
    requires t == s.(outb := s.outb.(chunk := s.outb.chunk[n..], sent := s.outb.sent + s.outb.chunk[..n], ledger := t.outb.ledger, phase := t.outb.phase))
    requires LedgerOk(t.outb.ledger) && !t.outb.ledger.failed
    requires if s.outb.chunk[n..] == [] then t.outb.phase.Waiting? && t.outb.ledger.waiters == []
             else (t.outb.phase.Taken? && 1 <= t.outb.phase.units <= |t.outb.chunk| && t.outb.ledger.waiters == [])
                  || (t.outb.phase.Parked? && |t.outb.ledger.waiters| == 1 && 1 <= t.outb.ledger.waiters[0] <= |t.outb.chunk|)
    ensures Local(t)
  {
    assert s.outb.sent + (s.outb.chunk[..n] + s.outb.chunk[n..]) == (s.outb.sent + s.outb.chunk[..n]) + s.outb.chunk[n..];
    assert s.outb.chunk[..n] + s.outb.chunk[n..] == s.outb.chunk;
    hide QueueOk, LedgerOk;
  }

  lemma SentDir(f: Flow, s': Side, piece: Bytes)
    requires Dir(f) && Local(f.s) && Local(f.r) && f.s.status == Live && s'.status == Live
    requires f.s.outb.phase == Taken(|piece|) && piece != []
    requires s'.outb.sent == f.s.outb.sent + piece && s'.outb.done == f.s.outb.done && Held(s') + |piece| == Held(f.s)
    ensures Dir(f.(s := s', sr := f.sr + [Data(piece)]))
  {
    FrameAppend(f.sr, Data(piece));
    assert f.r.inb.read + Content(f.r.inb.slots) + (DataOf(f.sr) + piece) == f.r.inb.read + Content(f.r.inb.slots) + DataOf(f.sr) + piece;
    assert f.s.outb.sent <= s'.outb.sent;
    hide DataOf, Grants, Content, Units, Ordered, HasFinal, NoData, LedgerOk;
  }

  lemma EndLocal(s: Side)
    requires Local(s) && s.outb.phase.Waiting? && s.status != NotYet
    ensures Local(InputEnds(s).side)
  {
    hide LedgerOk, Content, Units;
  }

  /** A direction whose sender ends it; its slot is free if the other direction was over. */
  lemma EndDir(f: Flow, s': Side)
    requires Dir(f) && f.s.status == Live && !f.s.outb.done && s'.outb.done && s'.outb.sent == f.s.outb.sent && Held(s') == Held(f.s)
    requires s'.status == Live || (s'.status == Gone && f.r.outb.done)
    ensures Dir(f.(s := s', sr := f.sr + [EndFrame]))
  {
    FrameAppend(f.sr, EndFrame);
    assert DataOf(f.sr) + [] == DataOf(f.sr);
    assert f.r.inb.read + Content(f.r.inb.slots) + DataOf(f.sr) == f.r.inb.read + Content(f.r.inb.slots) + DataOf(f.sr + [EndFrame]);
    hide DataOf, Grants, Content, Units, Ordered, HasFinal, NoData, LedgerOk;
  }

  lemma InputEndKept(fo: Flow, fi: Flow)
    requires View(fo, fi) && fo.s.outb.phase.Waiting? && fo.s.status != NotYet
    ensures Kept(fo, fi, InputEnds(fo.s), fo.rs)
  {
    var s := fo.s;
    var e := InputEnds(s);
    if s.status == Gone {
      hide Local, Dir;
      PumpStops(fo, fi);
    } else {
      EndLocal(s);
      GrantsAppend(fi.rs, [EndFrame]);
      assert [EndFrame][1..] == [];
      assert !s.outb.done && (s.inb.done ==> fo.r.outb.done);
      hide Local, Dir;
      ReceiverIdle(fi, e.side, [EndFrame]);
      EndDir(fo, e.side);
    }
  }

  // ----- leaving the table -----

  /** A direction whose sender leaves the table, saying so. */
  lemma SenderLeaves(f: Flow, s': Side, last: Frame)
    requires Dir(f) && f.s.status == Live && s'.status == Gone && Final(last)
    requires s'.outb.sent == f.s.outb.sent && s'.outb.done == f.s.outb.done && Held(s') == Held(f.s)
    ensures Dir(f.(s := s', sr := f.sr + [last]))
  {
    FrameAppend(f.sr, last);
    assert DataOf(f.sr) + [] == DataOf(f.sr);
    hide DataOf, Grants, Content, Ordered, NoData;
  }

  /** A direction whose receiver leaves the table of its own accord. */
  lemma ReceiverLeaves(f: Flow, r': Side, rs: seq<Frame>)
    requires Dir(f) && f.r.status == Live && r'.status == Gone && r'.outb.done == f.r.outb.done
    requires r'.inb.read == f.r.inb.read && Content(r'.inb.slots) <= Content(f.r.inb.slots)
    requires r'.inb.done == f.r.inb.done
    requires (CauseOf(r'.inb) == CauseOf(f.r.inb) && r'.inb.slots == f.r.inb.slots)
             || CauseOf(r'.inb) in {None, Some(OwnError), Some(OwnClose)}
    ensures Dir(f.(r := r', rs := rs))
  {
    hide DataOf, Grants, Content, Ordered, HasFinal, NoData;
    assert f.r.inb.read + Content(r'.inb.slots) <= f.r.inb.read + Content(f.r.inb.slots);
  }

  lemma DoneContent(s: Side, cause: Cause)
    ensures Content(s.inb.slots + [Done(cause)]) == Content(s.inb.slots)
  {
    ContentAppend(s.inb.slots, [Done(cause)]);
    assert [Done(cause)][1..] == [];
    assert Content(s.inb.slots) + [] == Content(s.inb.slots);
  }

  /** An error or a refusal of its own: the notice goes, the slot is free. */
  lemma LeaveKept(fo: Flow, fi: Flow, s: Side, cause: Cause, last: Frame)
    requires View(fo, fi) && fo.s.status == Live && Final(last) && (cause == OwnClose || cause == OwnError)
    requires s == fo.s || (s == fo.s.(outb := fo.s.outb.(phase := Over)) && fo.s.outb.phase.Waiting?)
    ensures Kept(fo, fi, Effect(Teardown(s, cause), [last]), fo.rs)
  {
    var t := Teardown(s, cause);
    LeaveLocal(fo.s, s, cause);
    DoneContent(s, cause);
    hide Local, Dir, Teardown;
    SenderLeaves(fo, t, last);
    ReceiverLeaves(fi, t, fi.rs + [last]);
  }

  lemma LeavePump(s0: Side, s: Side, cause: Cause)
    requires PumpOk(s0) && s0.status == Live
    requires s == s0 || (s == s0.(outb := s0.outb.(phase := Over)) && s0.outb.phase.Waiting?)
    ensures var t := Teardown(s, cause);
            && PumpOk(t) && t.status == Gone && Held(t) == Held(s0)
            && t.outb == s0.outb.(ledger := t.outb.ledger, phase := t.outb.phase)
  {
    hide DoneIn;
  }

  lemma LeaveQueue(s: Side, cause: Cause)
    requires QueueOk(s) && s.status == Live && cause != PeerEnd
    ensures var t := Teardown(s, cause);
            && QueueOk(t)
            && (t.inb == s.inb || (t.inb == s.inb.(slots := s.inb.slots + [Done(cause)]) && s.inb.outcome.Running? && CauseOf(s.inb) == None && CauseOf(t.inb) == Some(cause)))
  {
    DoneContent(s, cause);
    hide Content, Units, Fail;
  }

  lemma LeaveLocal(s0: Side, s: Side, cause: Cause)
    requires Local(s0) && s0.status == Live && cause != PeerEnd
    requires s == s0 || (s == s0.(outb := s0.outb.(phase := Over)) && s0.outb.phase.Waiting?)
    ensures var t := Teardown(s, cause);
            && Local(t) && t.status == Gone && Held(t) == Held(s0)
            && t.outb == s0.outb.(ledger := t.outb.ledger, phase := t.outb.phase)
            && (t.inb == s0.inb || (t.inb == s0.inb.(slots := s0.inb.slots + [Done(cause)]) && s0.inb.outcome.Running? && CauseOf(s0.inb) == None && CauseOf(t.inb) == Some(cause)))
  {
    LeavePump(s0, s, cause);
    LeaveQueue(s, cause);
    hide PumpOk, QueueOk, Teardown, Held;
  }

  lemma InputFailKept(fo: Flow, fi: Flow)
    requires View(fo, fi) && fo.s.outb.phase.Waiting? && fo.s.status != NotYet
    ensures Kept(fo, fi, InputFails(fo.s), fo.rs)
  {
    var s := fo.s;
    hide Local, Dir, Teardown;
    if s.status == Gone {
      PumpStops(fo, fi);
    } else {
      LeaveKept(fo, fi, s.(outb := s.outb.(phase := Over)), OwnError, ErrorFrame);
    }
  }

  lemma IdleKept(fo: Flow, fi: Flow)
    requires View(fo, fi)
    ensures Kept(fo, fi, Effect(fo.s, []), fo.rs)
  {
    NothingSent(fo.sr);
    NothingSent(fi.rs);
    assert fo.(s := fo.s, sr := fo.sr, rs := fo.rs) == fo;
    assert fi.(r := fi.r, sr := fi.sr, rs := fi.rs) == fi;
    hide Local, Dir;
  }

  lemma HandlerKept(fo: Flow, fi: Flow)
    requires View(fo, fi) && fo.s.status != NotYet
    ensures Kept(fo, fi, HandlerDone(fo.s), fo.rs)
  {
    hide Local, Dir, Teardown;
    if fo.s.inb.done || fo.s.status == Gone {
      IdleKept(fo, fi);
    } else {
      LeaveKept(fo, fi, fo.s, OwnClose, CloseFrame);
    }
  }

  // ----- the consumer -----

  /** What a step of the consumer leaves of the sending half. */
  lemma SenderIdle(f: Flow, s': Side)
    requires Dir(f) && s'.outb == f.s.outb && s'.status == f.s.status
    ensures Dir(f.(s := s'))
  {
  }

  lemma DoneIsCause(s: Side)
    requires QueueOk(s) && s.inb.outcome.Running?
    ensures HasDone(s.inb.slots) <==> CauseOf(s.inb).Some?
    ensures s.inb.slots != [] && s.inb.slots[0].Done? ==> s.inb.slots == [s.inb.slots[0]]
  {
    assert |s.inb.slots| > 1 ==> s.inb.slots[0].Value?;
  }

  lemma TakeValue(s: Side)
    requires Local(s) && s.inb.slots != [] && s.inb.hand == None && s.inb.outcome.Running? && s.inb.slots[0].Value?
    ensures Local(TakeSlot(s)) && CauseOf(TakeSlot(s).inb) == CauseOf(s.inb)
    ensures TakeSlot(s).inb.read + Content(TakeSlot(s).inb.slots) == s.inb.read + Content(s.inb.slots)
  {
    var b, rest := s.inb.slots[0].bytes, s.inb.slots[1..];
    assert s.inb.read + (b + Content(rest)) == (s.inb.read + b) + Content(rest);
    assert rest != [] ==> rest[|rest| - 1] == s.inb.slots[|s.inb.slots| - 1];
    assert forall i :: 0 <= i < |rest| ==> rest[i] == s.inb.slots[i + 1];
    hide PumpOk, Units;
  }

  lemma TakeDone(s: Side)
    requires Local(s) && s.inb.slots != [] && s.inb.hand == None && s.inb.outcome.Running? && s.inb.slots[0].Done?
    ensures Local(TakeSlot(s)) && CauseOf(TakeSlot(s).inb) == CauseOf(s.inb)
    ensures TakeSlot(s).inb.read + Content(TakeSlot(s).inb.slots) == s.inb.read + Content(s.inb.slots)
  {
    DoneIsCause(s);
    assert s.inb.slots[1..] == [];
    hide PumpOk, Units;
  }

  /** A direction whose receiver only moves what it holds. */
  lemma ReceiverHolds(f: Flow, r': Side)
    requires Dir(f) && r'.status == f.r.status && r'.outb == f.r.outb && r'.inb.done == f.r.inb.done
    requires r'.inb.read + Content(r'.inb.slots) == f.r.inb.read + Content(f.r.inb.slots) && CauseOf(r'.inb) == CauseOf(f.r.inb)
    requires r'.inb.queued == f.r.inb.queued && r'.inb.pending == f.r.inb.pending
    requires r'.inb.outcome.Running? ==> f.r.inb.outcome.Running?
    ensures Dir(f.(r := r'))
  {
    hide CauseOf, DataOf, Grants, Content, Ordered, HasFinal, NoData;
  }

  lemma TakeKept(fo: Flow, fi: Flow)
    requires View(fo, fi) && fo.s.inb.slots != [] && fo.s.inb.hand == None && fo.s.inb.outcome.Running?
    ensures Kept(fo, fi, Effect(TakeSlot(fo.s), []), fo.rs)
  {
    var s := fo.s;
    var t := TakeSlot(s);
    NothingSent(fo.sr);
    NothingSent(fi.rs);
    if s.inb.slots[0].Value? { TakeValue(s); } else { TakeDone(s); }
    hide Local, CauseOf, Content, Dir;
    SenderIdle(fo, t);
    ReceiverHolds(fi, t);
  }

  lemma NextLocal(s: Side)
    requires Local(s) && s.inb.hand.Some? && s.inb.outcome.Running?
    ensures Local(AskNext(s)) && CauseOf(AskNext(s).inb) == CauseOf(s.inb)
  {
    UnitsAppend(s.inb.settling, [Settled(s.inb.hand.value, true)]);
    assert [Settled(s.inb.hand.value, true)][1..] == [];
    hide PumpOk, Content;
  }

  lemma NextKept(fo: Flow, fi: Flow)
    requires View(fo, fi) && fo.s.inb.hand.Some? && fo.s.inb.outcome.Running?
    ensures Kept(fo, fi, Effect(AskNext(fo.s), []), fo.rs)
  {
    var s := fo.s;
    NothingSent(fo.sr);
    NothingSent(fi.rs);
    var t := AskNext(s);
    NextLocal(s);
    hide Local, CauseOf, Content, Dir;
    SenderIdle(fo, t);
    ReceiverHolds(fi, t);
  }

  /** What the consumer leaves when it leaves. */
  function Left(s: Side): Side {
    s.(inb := s.inb.(slots := [], hand := None, outcome := Cancelled, settling := s.inb.settling + Refuse(s.inb.slots)))
  }

  lemma LeftLocal(s: Side)
    requires Local(s) && s.inb.hand.Some? && s.inb.outcome.Running? && s.status != NotYet
    ensures CauseOf(Left(s).inb) == None && QueueOk(Teardown(Left(s), OwnClose))
    ensures HasDone(s.inb.slots) || s.status == Gone ==> Local(Left(s))
    ensures s.status == Live ==> Local(Teardown(Left(s), OwnClose)) && Held(Teardown(Left(s), OwnClose)) == Held(s)
    ensures s.status == Live ==> Teardown(Left(s), OwnClose).inb == Left(s).inb && Teardown(Left(s), OwnClose).status == Gone
    ensures s.status == Live ==> Teardown(Left(s), OwnClose).outb.sent == s.outb.sent && Teardown(Left(s), OwnClose).outb.done == s.outb.done
  {
    DoneIsCause(s);
    assert PumpOk(Left(s));
    if s.status == Live { LeavePump(Left(s), Left(s), OwnClose); }
    hide PumpOk, Refuse, Units;
  }

  /** A direction whose receiver's consumer left. */
  lemma ReceiverLeft(f: Flow, r': Side)
    requires Dir(f) && r'.status == f.r.status && r'.outb == f.r.outb && r'.inb.done == f.r.inb.done && r'.inb.read == f.r.inb.read
    requires r'.inb.slots == [] && r'.inb.outcome.Cancelled? && CauseOf(r'.inb) == None && f.r.status != NotYet
    ensures Dir(f.(r := r'))
  {
    assert f.r.inb.read + [] <= f.r.inb.read + Content(f.r.inb.slots);
    hide CauseOf, DataOf, Grants, Ordered, HasFinal, NoData;
  }

  lemma CancelKept(fo: Flow, fi: Flow)
    requires View(fo, fi) && fo.s.inb.hand.Some? && fo.s.inb.outcome.Running? && fo.s.status != NotYet
    ensures Kept(fo, fi, Leave(fo.s), fo.rs)
  {
    var s := fo.s;
    LeftLocal(s);
    var t := Left(s);
    if HasDone(s.inb.slots) || s.status == Gone {
      NothingSent(fo.sr);
      NothingSent(fi.rs);
      hide Local, CauseOf, Dir, Refuse;
      SenderIdle(fo, t);
      ReceiverLeft(fi, t);
    } else {
      var u := Teardown(t, OwnClose);
      assert Content(u.inb.slots) == [];
      hide Local, CauseOf, Refuse, Dir, Teardown, Content;
      SenderLeaves(fo, u, CloseFrame);
      ReceiverLeaves(fi, u, fi.rs + [CloseFrame]);
    }
  }

  // ----- credit going back -----

  lemma SettleQueue(s: Side, left: nat, pending: nat)
    requires QueueOk(s) && s.inb.settling != [] && left == (if s.inb.settling[0].units <= s.inb.queued then s.inb.queued - s.inb.settling[0].units else 0)
    requires s.status == Live && pending > 0 ==> left > 0 || !s.inb.outcome.Running?
    ensures QueueOk(s.(inb := s.inb.(settling := s.inb.settling[1..], queued := left, pending := pending)))
  {
    var rest := s.inb.settling[1..];
    var t := s.(inb := s.inb.(settling := rest, queued := left, pending := pending));
    assert forall i :: 0 <= i < |rest| ==> rest[i] == s.inb.settling[i + 1];
    assert Units(s.inb.settling) == s.inb.settling[0].units + Units(rest);
    assert CauseOf(t.inb) == CauseOf(s.inb);
    hide Content, Units, CauseOf, EndLast;
  }

  lemma SettleLocal(c: Config, s: Side)
    requires ConfigOk(c) && Local(s) && s.inb.settling != []
    ensures var t := SettleOne(c, s).side;
            && Local(t) && t.outb == s.outb && t.status == s.status
            && t.inb == s.inb.(settling := t.inb.settling, queued := t.inb.queued, pending := t.inb.pending)
  {
    var p := s.inb.settling[0];
    var left := if p.units <= s.inb.queued then s.inb.queued - p.units else 0;
    ConsumeConserves(c.buffer, s.inb.pending, p.units, left == 0);
    var pending := if !p.handled || s.status == Gone then s.inb.pending else Consume(c.buffer, s.inb.pending, p.units, left == 0).pending;
    assert s.inb.outcome.Running? ==> p.handled;
    assert s.status == NotYet ==> s.inb.settling == [];
    SettleQueue(s, left, pending);
    hide QueueOk, Consume;
  }

  /** While the queue runs, what leaves it is owed or granted, and the grant fits the wire. */
  lemma SettleCredit(c: Config, f: Flow)
    requires ConfigOk(c) && Local(f.r) && Credit(f) && f.window == U.Clamp(c.buffer)
    requires f.r.inb.settling != [] && f.r.status == Live && f.r.inb.outcome.Running?
    ensures var e := SettleOne(c, f.r);
            && e.side.inb.queued + e.side.inb.pending + Grants(e.out) == f.r.inb.queued + f.r.inb.pending
            && (forall n :: e.out == [Ack(n)] ==> n == f.r.inb.pending + f.r.inb.settling[0].units)
  {
    var p := f.r.inb.settling[0];
    ConsumeConserves(c.buffer, f.r.inb.pending, p.units, p.units >= f.r.inb.queued);
    var e := SettleOne(c, f.r);
    assert p.handled && p.units <= f.r.inb.queued;
    assert Spread(f) - Held(f.s) <= f.window;
    if e.out != [] { assert e.out[1..] == []; }
    hide PumpOk, Content, Consume;
  }

  /** A direction whose receiver accounts for what it consumed. */
  lemma ReceiverSettles(f: Flow, r': Side, out: seq<Frame>)
    requires Dir(f) && r'.status == f.r.status && r'.outb == f.r.outb
    requires r'.inb == f.r.inb.(settling := r'.inb.settling, queued := r'.inb.queued, pending := r'.inb.pending)
    requires f.r.status == Live && f.r.inb.outcome.Running? ==>
               r'.inb.queued + r'.inb.pending + Grants(f.rs + out) == f.r.inb.queued + f.r.inb.pending + Grants(f.rs)
    ensures Dir(f.(r := r', rs := f.rs + out))
  {
    hide DataOf, Grants, Content, Ordered, HasFinal, NoData;
  }

  lemma SenderAcks(f: Flow, s': Side, out: seq<Frame>)
    requires Dir(f) && s'.outb == f.s.outb && s'.status == f.s.status
    requires out == [] || (f.s.status == Live && |out| == 1 && out[0].Ack?)
    ensures Dir(f.(s := s', sr := f.sr + out))
  {
    if out == [] {
      NothingSent(f.sr);
    } else {
      assert out == [out[0]];
      FrameAppend(f.sr, out[0]);
      assert DataOf(f.sr) + [] == DataOf(f.sr);
    }
    hide DataOf, Grants, Content, Ordered, HasFinal, NoData;
  }

  lemma SettleKept(c: Config, fo: Flow, fi: Flow)
    requires ConfigOk(c) && View(fo, fi) && fo.s.inb.settling != [] && fi.window == U.Clamp(c.buffer)
    ensures Kept(fo, fi, SettleOne(c, fo.s), fo.rs)
  {
    var s := fo.s;
    var e := SettleOne(c, s);
    SettleLocal(c, s);
    if s.status == Live && s.inb.outcome.Running? {
      assert Credit(fi);
      SettleCredit(c, fi);
    }
    GrantsAppend(fi.rs, e.out);
    assert e.out == [] || (s.status == Live && |e.out| == 1 && e.out[0].Ack?);
    hide Local, Dir, SettleOne, Grants;
    SenderAcks(fo, e.side, e.out);
    ReceiverSettles(fi, e.side, e.out);
  }

  // ----- hearing the peer -----

  lemma OrderedTail(x: seq<Frame>)
    requires x != [] && Ordered(x)
    ensures Ordered(x[1..])
  {
    var y := x[1..];
    assert forall i :: 0 <= i < |y| ==> y[i] == x[i + 1];
  }

  lemma TailFacts(x: seq<Frame>)
    requires x != [] && Ordered(x)
    ensures Ordered(x[1..])
    ensures HasFinal(x[1..]) ==> HasFinal(x) && !Final(x[0])
    ensures HasFinal(x) ==> Final(x[0]) || HasFinal(x[1..])
    ensures Final(x[0]) ==> x == [x[0]] && HasFinal(x)
    ensures x[0].EndFrame? ==> EndFrame !in x[1..] && NoData(x[1..]) && EndFrame in x
    ensures EndFrame in x <==> x[0].EndFrame? || EndFrame in x[1..]
    ensures NoData(x) ==> NoData(x[1..]) && !x[0].Data?
    ensures DataOf(x) == (if x[0].Data? then x[0].bytes else []) + DataOf(x[1..])
    ensures Grants(x) == (match x[0] case Open(w) => w case Ack(n) => n case _ => 0) + Grants(x[1..])
  {
    assert forall i :: 0 <= i < |x[1..]| ==> x[1..][i] == x[i + 1];
    assert forall f :: f in x <==> f == x[0] || f in x[1..];
    forall f | f in x[1..] ensures !Final(x[0]) && (x[0].EndFrame? ==> !f.EndFrame? && !f.Data?) {
      var j :| 0 <= j < |x[1..]| && x[1..][j] == f;
      assert x[j + 1] == f;
    }
    assert |x| > 1 ==> !Final(x[0]);
    if HasFinal(x[1..]) { var f :| f in x[1..] && Final(f); }
    OrderedTail(x);
  }

  lemma DropKept(fo: Flow, fi: Flow)
    requires View(fo, fi) && fo.s.status == Gone && fi.sr != []
    ensures Kept(fo, fi, Effect(fo.s, []), fi.sr[1..])
  {
    NothingSent(fo.sr);
    NothingSent(fi.rs);
    hide Local;
    DropIn(fi);
    DropOut(fo);
    hide Dir;
  }

  lemma DropIn(f: Flow)
    requires Dir(f) && f.r.status == Gone && f.sr != []
    ensures Dir(f.(sr := f.sr[1..]))
  {
    TailFacts(f.sr);
    hide CauseOf, DataOf, Grants, Content, Ordered, HasFinal, NoData;
  }

  lemma DropOut(f: Flow)
    requires Dir(f) && f.s.status == Gone && f.rs != []
    ensures Dir(f.(rs := f.rs[1..]))
  {
    assert Grants(f.rs[1..]) <= Grants(f.rs);
    hide CauseOf, DataOf, Grants, Content, Ordered, HasFinal, NoData, Held;
  }

  /** Bytes that arrive: the queue runs, and they fit what this end advertised. */
  lemma DataFits(c: Config, f: Flow)
    requires ConfigOk(c) && Local(f.r) && Dir(f) && f.r.status == Live && f.window == U.Clamp(c.buffer)
    requires f.sr != [] && f.sr[0].Data?
    ensures !f.r.inb.done && f.r.inb.outcome.Running? && CauseOf(f.r.inb) == None
    ensures f.r.inb.queued + |f.sr[0].bytes| <= c.buffer
  {
    assert f.sr[0] in f.sr;
    assert f.r.inb.done ==> NoData(f.sr);
    hide Content, Units, Ordered, HasFinal, PumpOk, Faithful;
    assert Spread(f) - Held(f.s) <= f.window;
  }

  lemma DataLocal(s: Side, t: Side, b: Bytes)
    requires Local(s) && s.status == Live && !s.inb.done && s.inb.outcome.Running? && CauseOf(s.inb) == None
    requires t == s.(inb := s.inb.(queued := s.inb.queued + |b|, slots := s.inb.slots + [Value(b)]))
    ensures Local(t) && CauseOf(t.inb) == None && Content(t.inb.slots) == Content(s.inb.slots) + b
  {
    ContentAppend(s.inb.slots, [Value(b)]);
    assert [Value(b)][1..] == [];
    assert b + [] == b;
    assert forall i :: 0 <= i < |s.inb.slots| ==> s.inb.slots[i].Value?;
    hide PumpOk, Content, Units;
  }

  /** A direction whose receiver queues what arrived. */
  lemma ReceiverQueues(f: Flow, r': Side, b: Bytes)
    requires Dir(f) && f.sr != [] && f.sr[0] == Data(b) && f.r.status == Live && f.r.inb.outcome.Running? && !f.r.inb.done
    requires r'.status == Live && r'.outb == f.r.outb && CauseOf(f.r.inb) == CauseOf(r'.inb) == None
    requires r'.inb == f.r.inb.(queued := f.r.inb.queued + |b|, slots := r'.inb.slots)
    requires Content(r'.inb.slots) == Content(f.r.inb.slots) + b
    ensures Dir(f.(r := r', sr := f.sr[1..]))
  {
    TailFacts(f.sr);
    assert f.r.inb.read + (Content(f.r.inb.slots) + b) + DataOf(f.sr[1..]) == f.r.inb.read + Content(f.r.inb.slots) + (b + DataOf(f.sr[1..]));
    hide CauseOf, DataOf, Grants, Content, Ordered, HasFinal, NoData;
  }

  lemma DataKept(c: Config, fo: Flow, fi: Flow)
    requires ConfigOk(c) && View(fo, fi) && fo.s.status == Live && fi.window == U.Clamp(c.buffer)
    requires fi.sr != [] && fi.sr[0].Data?
    ensures Kept(fo, fi, HandleData(c, fo.s, fi.sr[0].bytes), fi.sr[1..])
  {
    var s, b := fo.s, fi.sr[0].bytes;
    NothingSent(fo.sr);
    NothingSent(fi.rs);
    DataFits(c, fi);
    var t := HandleData(c, s, b).side;
    DataLocal(s, t, b);
    HearsSender(fo, t);
    hide Local, Dir, CauseOf, Content;
    ReceiverQueues(fi, t, b);
  }

  /** A direction's sender hears a frame that is no grant. */
  lemma HearsSender(f: Flow, s': Side)
    requires Dir(f) && s'.outb == f.s.outb && s'.status == f.s.status
    requires f.rs != [] && !f.rs[0].Open? && !f.rs[0].Ack?
    ensures Dir(f.(s := s', rs := f.rs[1..]))
  {
    assert Grants(f.rs) == 0 + Grants(f.rs[1..]);
    hide DataOf, Grants, Content, Ordered, HasFinal, NoData;
  }

  // ----- grants, ends and closes -----

  lemma GrantFacts(s: Side, n: nat)
    requires PumpOk(s) && s.status != NotYet && !s.outb.ledger.failed
    ensures var t := AddCredit(s, n);
            PumpOk(t) && Held(t) == Held(s) + n && t == s.(outb := s.outb.(ledger := t.outb.ledger, phase := t.outb.phase))
  {
    var l := s.outb.ledger.(available := s.outb.ledger.available + n);
    var r := Release(l);
    ReleaseConserves(l);
    if s.outb.phase.Parked? && r.given != [] {
      assert r.given == [r.given[0]];
      assert Total(r.given) == r.given[0] + Total(r.given[1..]);
      assert r.ledger.waiters == [];
    } else {
      assert r.given == [];
    }
    hide Release, Total;
  }

  /** A direction's sender is granted more. */
  lemma SenderGranted(f: Flow, s': Side, n: nat)
    requires Dir(f) && f.rs != [] && f.rs[0] == Ack(n) && f.s.status == Live && s'.status == Live
    requires Held(s') == Held(f.s) + n && s'.outb.sent == f.s.outb.sent && s'.outb.done == f.s.outb.done
    requires f.r.status != NotYet
    ensures Dir(f.(s := s', rs := f.rs[1..]))
  {
    assert Grants(f.rs) == n + Grants(f.rs[1..]);
    hide DataOf, Grants, Content, Ordered, HasFinal, NoData, Held;
  }

  /** A direction's receiver hears a frame that neither carries bytes nor ends it. */
  lemma ReceiverHears(f: Flow, r': Side)
    requires Dir(f) && f.sr != [] && !f.sr[0].Data? && !f.sr[0].EndFrame? && !Final(f.sr[0]) && f.r.status == Live
    requires r'.status == f.r.status && r'.inb == f.r.inb && r'.outb.done == f.r.outb.done
    ensures Dir(f.(r := r', sr := f.sr[1..]))
  {
    TailFacts(f.sr);
    assert [] + DataOf(f.sr[1..]) == DataOf(f.sr[1..]);
    hide CauseOf, DataOf, Grants, Content, Ordered, HasFinal, NoData;
  }

  lemma AckKept(fo: Flow, fi: Flow)
    requires View(fo, fi) && fo.s.status == Live && fi.sr != [] && fi.sr[0].Ack? && fo.r.status != NotYet
    ensures Kept(fo, fi, Effect(AddCredit(fo.s, fi.sr[0].units), []), fi.sr[1..])
  {
    var s, n := fo.s, fi.sr[0].units;
    NothingSent(fo.sr);
    NothingSent(fi.rs);
    GrantFacts(s, n);
    var t := AddCredit(s, n);
    assert Local(t) by { hide QueueOk, PumpOk; assert t.inb == s.inb; hide AddCredit; assert QueueOk(t) by { SameQueue(s, t); } }
    hide Local, Dir, AddCredit, Held;
    SenderGranted(fo, t, n);
    ReceiverHears(fi, t);
  }

  lemma EndHeardLocal(s: Side)
    requires Local(s) && s.status == Live && !s.inb.done && s.inb.outcome.Running? && CauseOf(s.inb) == None
    ensures var t := ReleaseIfComplete(s.(inb := DoneIn(s.inb.(done := true), PeerEnd)));
            && Local(t) && CauseOf(t.inb) == Some(PeerEnd) && Content(t.inb.slots) == Content(s.inb.slots)
            && t.outb == s.outb && t.inb == s.inb.(done := true, slots := s.inb.slots + [Done(PeerEnd)])
            && t.status == (if s.outb.done then Gone else Live)
  {
    DoneContent(s, PeerEnd);
    DoneIsCause(s);
    EndQueued(s);
    hide Content, Units, HasDone, CauseOf, QueueOk;
  }

  /** The queue of an end that hears its peer's END, whatever its status becomes. */
  lemma EndQueued(s: Side)
    requires QueueOk(s) && s.status == Live && !s.inb.done && s.inb.outcome.Running? && CauseOf(s.inb) == None
    ensures var i := s.inb.(done := true, slots := s.inb.slots + [Done(PeerEnd)]);
            CauseOf(i) == Some(PeerEnd) && QueueOk(s.(inb := i)) && QueueOk(s.(status := Gone, inb := i))
  {
    DoneContent(s, PeerEnd);
    assert forall i :: 0 <= i < |s.inb.slots| ==> s.inb.slots[i].Value?;
    hide Content, Units;
  }

  /** A direction whose receiver reads its end: everything sent was queued or read. */
  lemma ReceiverEnds(f: Flow, r': Side)
    requires Dir(f) && f.sr != [] && f.sr[0].EndFrame? && f.r.status == Live && f.r.inb.outcome.Running?
    requires r'.outb == f.r.outb && (r'.status == Live || r'.status == Gone) && CauseOf(r'.inb) == Some(PeerEnd)
    requires r'.inb == f.r.inb.(done := true, slots := r'.inb.slots) && Content(r'.inb.slots) == Content(f.r.inb.slots)
    ensures Dir(f.(r := r', sr := f.sr[1..]))
  {
    TailFacts(f.sr);
    NoDataNone(f.sr[1..]);
    assert [] + DataOf(f.sr[1..]) == [];
    assert f.r.inb.read + Content(f.r.inb.slots) + DataOf(f.sr) == f.r.inb.read + Content(f.r.inb.slots);
    hide CauseOf, DataOf, Grants, Content, Ordered, HasFinal, NoData;
  }

  /** A direction whose sender's slot is freed by the end of the other one. */
  lemma SenderReleased(f: Flow, s': Side)
    requires Dir(f) && f.s.status == Live && s'.outb == f.s.outb && f.rs != [] && !f.rs[0].Open? && !f.rs[0].Ack?
    requires s'.status == Live || (s'.status == Gone && f.s.outb.done && f.r.outb.done)
    ensures Dir(f.(s := s', rs := f.rs[1..]))
  {
    assert Grants(f.rs) == 0 + Grants(f.rs[1..]);
    hide CauseOf, DataOf, Grants, Content, Ordered, HasFinal, NoData;
  }

  lemma EndHeardKept(fo: Flow, fi: Flow)
    requires View(fo, fi) && fo.s.status == Live && fi.sr != [] && fi.sr[0].EndFrame?
    ensures Kept(fo, fi, Effect(ReleaseIfComplete(fo.s.(inb := DoneIn(fo.s.inb.(done := true), PeerEnd))), []), fi.sr[1..])
  {
    var s := fo.s;
    NothingSent(fo.sr);
    NothingSent(fi.rs);
    assert EndFrame in fi.sr by { assert fi.sr[0] in fi.sr; }
    assert !s.inb.done && fi.s.outb.done;
    assert CauseOf(s.inb) == None && s.inb.outcome.Running?;
    EndHeardLocal(s);
    var t := ReleaseIfComplete(s.(inb := DoneIn(s.inb.(done := true), PeerEnd)));
    hide Local, Dir, CauseOf, Content, DoneIn;
    SenderReleased(fo, t);
    ReceiverEnds(fi, t);
  }

  /** A direction whose receiver learns that its peer is gone. */
  lemma ReceiverCut(f: Flow, r': Side, cause: Cause)
    requires Dir(f) && f.sr != [] && Final(f.sr[0]) && f.r.status == Live && Local(f.r)
    requires cause == PeerError || cause == PeerClose
    requires r'.status == Gone && r'.outb.done == f.r.outb.done && Content(r'.inb.slots) == Content(f.r.inb.slots)
    requires r'.inb == f.r.inb || (r'.inb == f.r.inb.(slots := r'.inb.slots) && f.r.inb.outcome.Running? && CauseOf(f.r.inb) == None && CauseOf(r'.inb) == Some(cause))
    ensures Dir(f.(r := r', sr := f.sr[1..]))
  {
    TailFacts(f.sr);
    assert f.s.status == Gone;
    assert CauseOf(f.r.inb) == None ==> !f.r.inb.done || f.r.inb.outcome.Cancelled?;
    hide CauseOf, DataOf, Grants, Content, Ordered, HasFinal, NoData, PumpOk;
  }

  lemma CutKept(fo: Flow, fi: Flow, cause: Cause)
    requires View(fo, fi) && fo.s.status == Live && fi.sr != [] && Final(fi.sr[0])
    requires cause == PeerError || cause == PeerClose
    ensures Kept(fo, fi, Effect(Teardown(fo.s, cause), []), fi.sr[1..])
  {
    var s := fo.s;
    NothingSent(fo.sr);
    NothingSent(fi.rs);
    assert fi.s.status == Gone by { TailFacts(fi.sr); }
    LeaveLocal(s, s, cause);
    DoneContent(s, cause);
    var t := Teardown(s, cause);
    hide Local, CauseOf, Content, Teardown;
    SenderCut(fo, t);
    hide Dir;
    ReceiverCut(fi, t, cause);
  }

  lemma SenderCut(f: Flow, s': Side)
    requires Dir(f) && f.r.status == Gone && s'.status == Gone && s'.outb.sent == f.s.outb.sent && s'.outb.done == f.s.outb.done
    requires f.s.status == Live && f.rs != []
    ensures Dir(f.(s := s', rs := f.rs[1..]))
  {
    hide DataOf, Grants, Content, Ordered, HasFinal, NoData;
  }

  // ----- the opening -----

  lemma AcceptedKept(c: Config, fo: Flow, fi: Flow)
    requires ConfigOk(c) && View(fo, fi) && fo.s == Fresh(NotYet) && fi.sr != [] && fi.sr[0].Open? && fi.window == U.Clamp(c.buffer)
    ensures Kept(fo, fi, Effect(AddCredit(Fresh(Live), fi.sr[0].window), [Ack(U.Clamp(c.buffer))]), fi.sr[1..])
  {
    var w := fi.sr[0].window;
    var t := AddCredit(Fresh(Live), w);
    GrantFacts(Fresh(Live), w);
    assert fo.sr == [] && [] + [Ack(U.Clamp(c.buffer))] == [Ack(U.Clamp(c.buffer))];
    assert t.outb.ledger == Ledger(w, [], false) && t.inb == Fresh(NotYet).inb;
    assert Local(t);
    FrameAppend(fo.sr, Ack(U.Clamp(c.buffer)));
    TailFacts(fi.sr);
    NoDataNone(fi.sr);
    NoDataNone(fi.sr[1..]);
    hide Local, AddCredit;
    AcceptedSends(fo, t, c);
    AcceptedReceives(fi, t, c);
  }

  lemma AcceptedSends(f: Flow, s': Side, c: Config)
    requires Dir(f) && f.s == Fresh(NotYet) && f.sr == [] && f.rs != [] && f.rs[0].Open? && f.r.status != NotYet
    requires s' == Fresh(Live).(outb := Fresh(Live).outb.(ledger := Ledger(f.rs[0].window, [], false)))
    ensures Dir(f.(s := s', sr := f.sr + [Ack(U.Clamp(c.buffer))], rs := f.rs[1..]))
  {
    FrameAppend(f.sr, Ack(U.Clamp(c.buffer)));
    assert Grants(f.rs) == f.rs[0].window + Grants(f.rs[1..]);
    assert f.r.inb.read + Content(f.r.inb.slots) == [];
    hide CauseOf, DataOf, Grants, Content, Ordered, HasFinal, NoData;
  }

  lemma AcceptedReceives(f: Flow, r': Side, c: Config)
    requires Dir(f) && f.r == Fresh(NotYet) && f.rs == [] && f.sr != [] && f.sr[0].Open? && f.window == U.Clamp(c.buffer)
    requires r'.status == Live && r'.inb == Fresh(NotYet).inb && r'.outb.done == f.r.outb.done
    ensures Dir(f.(r := r', sr := f.sr[1..], rs := f.rs + [Ack(U.Clamp(c.buffer))]))
  {
    TailFacts(f.sr);
    NoDataNone(f.sr);
    NoDataNone(f.sr[1..]);
    var back := f.rs + [Ack(U.Clamp(c.buffer))];
    assert back[1..] == [];
    assert Grants(back) == U.Clamp(c.buffer) + Grants(back[1..]);
    assert CauseOf(r'.inb) == None && Content(r'.inb.slots) == [];
    hide DataOf, Ordered, HasFinal, NoData, Grants, Content, CauseOf;
  }

  lemma RefusedKept(fo: Flow, fi: Flow)
    requires View(fo, fi) && fo.s == Fresh(NotYet) && fi.sr != [] && fi.sr[0].Open? && fo.r.status != NotYet
    ensures Kept(fo, fi, Effect(Fresh(NotYet).(status := Gone), [ErrorFrame]), fi.sr[1..])
  {
    var t := Fresh(NotYet).(status := Gone);
    assert Local(t);
    RefusedSends(fo, t);
    RefusedReceives(fi, t);
  }

  lemma RefusedSends(f: Flow, s': Side)
    requires Dir(f) && f.s == Fresh(NotYet) && f.rs != [] && f.rs[0].Open? && f.r.status != NotYet
    requires s' == Fresh(NotYet).(status := Gone)
    ensures Dir(f.(s := s', sr := f.sr + [ErrorFrame], rs := f.rs[1..]))
  {
    FrameAppend(f.sr, ErrorFrame);
    assert Grants(f.rs) == f.rs[0].window + Grants(f.rs[1..]);
    assert f.r.inb.read + Content(f.r.inb.slots) == [];
    hide CauseOf, DataOf, Grants, Content, Ordered, HasFinal, NoData;
  }

  lemma RefusedReceives(f: Flow, r': Side)
    requires Dir(f) && f.r == Fresh(NotYet) && f.sr != [] && f.sr[0].Open?
    requires r' == Fresh(NotYet).(status := Gone)
    ensures Dir(f.(r := r', sr := f.sr[1..], rs := f.rs + [ErrorFrame]))
  {
    TailFacts(f.sr);
    hide DataOf, Ordered, HasFinal, NoData;
  }

  // ----- any step -----

  lemma ActKept(c: Config, fo: Flow, fi: Flow, server: bool, act: Act)
    requires ConfigOk(c) && View(fo, fi) && Enabled(fo.s, fi.sr, server, act) && fi.window == U.Clamp(c.buffer)
    requires act.Recv? ==> fi.s.status != NotYet && (fi.sr[0].Open? <==> fo.s.status == NotYet)
    ensures fo.s.outb.phase.Taken? ==> fo.s.outb.phase.units <= |fo.s.outb.chunk|
    ensures Kept(fo, fi, Perform(c, fo.s, fi.sr, server, act), Remaining(fi.sr, act))
  {
    assert PumpOk(fo.s);
    NotYetFresh(fo.s);
    hide Local, Dir, PumpOk, Kept, Teardown;
    match act
    case Offer(chunk) => OfferKept(c, fo, fi, chunk);
    case Send => SendKept(c, fo, fi);
    case InputEnd => InputEndKept(fo, fi);
    case InputFail => InputFailKept(fo, fi);
    case HandlerEnd => HandlerKept(fo, fi);
    case Take => TakeKept(fo, fi);
    case Next => NextKept(fo, fi);
    case Cancel => CancelKept(fo, fi);
    case Settle => SettleKept(c, fo, fi);
    case Recv(refused) =>
      if fo.s.status == NotYet {
        if refused { RefusedKept(fo, fi); } else { AcceptedKept(c, fo, fi); }
      } else if fo.s.status == Gone {
        DropKept(fo, fi);
      } else {
        match fi.sr[0] {
          case Data(_) => DataKept(c, fo, fi);
          case Ack(_) => AckKept(fo, fi);
          case EndFrame => EndHeardKept(fo, fi);
          case ErrorFrame => CutKept(fo, fi, PeerError);
          case CloseFrame => CutKept(fo, fi, PeerClose);
        }
      }
  }

  lemma NotYetFresh(s: Side)
    requires Local(s)
    ensures s.status == NotYet ==> s == Fresh(NotYet)
  {
  }
}
