/** The credit multiplexer: its table of streams, updated in place by calls, frames and pumps. */
module CreditMux {
  import opened Basics
  import opened FlowControl
  import opened CreditSide
  import opened CreditWorld
  import U = Uint32

  datatype Sent = Sent(id: nat, frame: Frame)

  function Tag(id: nat, fs: seq<Frame>): seq<Sent> {
    if fs == [] then [] else [Sent(id, fs[0])] + Tag(id, fs[1..])
  }

  /** The ids in the table. */
  function OpenIds(ends: map<nat, Side>): set<nat> {
    set id | id in ends && ends[id].status == Live
  }

  function EndOf(ends: map<nat, Side>, id: nat): Side {
    if id in ends then ends[id] else Fresh(NotYet)
  }

  /** A multiplexer's state: its streams, its next id, whether it serves, and what it sent that is unread. */
  datatype Table = Table(ends: map<nat, Side>, nextId: nat, served: bool, pipe: seq<Sent>)

  /** One stream's block ran: its end and its frames, and nothing of any other. */
  function Put(m: Table, id: nat, e: Effect): Table {
    m.(ends := m.ends[id := e.side], pipe := m.pipe + Tag(id, e.out))
  }

  /** What one frame of the peer does. */
  function Heard(c: Config, maxStreams: nat, m: Table, x: Sent): Table {
    Put(m, x.id, Handle(c, EndOf(m.ends, x.id), x.frame, |OpenIds(m.ends)| >= maxStreams || !m.served))
  }

  /** The next stream of this end's own, whatever the peer put under that id. */
  function Called(c: Config, m: Table): Table {
    Put(m.(nextId := m.nextId + 2), m.nextId, Opened(c))
  }

  /** A frame for a stream opens it only while a slot and a handler are there, or if it was held before. */
  lemma OpensWithinLimit(c: Config, ends: map<nat, Side>, id: nat, f: Frame, refused: bool, limit: nat)
    requires |OpenIds(ends)| <= limit && (!refused ==> |OpenIds(ends)| < limit)
    ensures |OpenIds(ends[id := Handle(c, EndOf(ends, id), f, refused).side])| <= limit
  {
    var s := EndOf(ends, id);
    var t := Handle(c, s, f, refused).side;
    var after := OpenIds(ends[id := t]);
    if t.status == Live && s.status == Live {
      assert after == OpenIds(ends);
    } else if t.status == Live {
      assert after == OpenIds(ends) + {id};
    } else {
      assert after == OpenIds(ends) - {id};
      Fewer(OpenIds(ends), id);
    }
  }

  lemma Fewer(ids: set<nat>, id: nat)
    ensures |ids - {id}| <= |ids|
  {
    if id in ids { assert |ids - {id}| == |ids| - 1; } else { assert ids - {id} == ids; }
  }

  class CreditMux {
    const cfg: Config
    const maxStreams: nat
    var ends: map<nat, Side>
    var nextLocalId: nat
    var served: bool
    var sent: seq<Sent>

    ghost predicate Valid()
      reads this
    {
      ConfigOk(cfg) && |OpenIds(ends)| <= maxStreams
    }

    function Now(): Table
      reads this
    {
      Table(ends, nextLocalId, served, sent)
    }

    /** The state is what `Put` makes of the old one. */
    twostate predicate Did(id: nat, e: Effect)
      reads this
    {
      ends == old(ends)[id := e.side] && sent == old(sent) + Tag(id, e.out) && nextLocalId == old(nextLocalId) && served == old(served)
    }

    constructor (cfg: Config, maxStreams: nat, initiator: bool)
      requires ConfigOk(cfg)
      ensures Valid() && ends == map[] && sent == []
      ensures this.cfg == cfg && this.maxStreams == maxStreams && nextLocalId == if initiator then 2 else 1
    {
      this.cfg, this.maxStreams := cfg, maxStreams;
      ends, nextLocalId, served, sent := map[], if initiator then 2 else 1, false, [];
      new;
      assert OpenIds(ends) == {};
    }

    method SendFrame(id: nat, f: Frame)
      modifies this`sent
      ensures sent == old(sent) + Tag(id, [f])
    {
      assert Tag(id, [f]) == [Sent(id, f)] by { assert [f][1..] == []; }
      sent := sent + [Sent(id, f)];
    }

    method TeardownStream(id: nat, cause: Cause)
      requires id in ends
      modifies this`ends
      ensures ends == old(ends)[id := Teardown(old(ends[id]), cause)]
    {
      var s := ends[id];
      if s.status != Gone {
        s := s.(status := Gone);
        s := s.(outb := s.outb.(ledger := Fail(s.outb.ledger), phase := if s.outb.phase.Parked? then Over else s.outb.phase));
        s := s.(inb := DoneIn(s.inb, cause));
      }
      ends := ends[id := s];
    }

    method ReleaseStream(id: nat)
      requires id in ends
      modifies this`ends
      ensures ends == old(ends)[id := ReleaseIfComplete(old(ends[id]))]
    {
      var s := ends[id];
      if s.status == Live && s.inb.done && s.outb.done { s := s.(status := Gone); }
      ends := ends[id := s];
    }

    /** A call of this side's: the OPEN advertises the whole buffer. */
    method Call() returns (r: Option<nat>)
      requires Valid()
      modifies this
      ensures Valid()
      ensures r == if |OpenIds(old(ends))| >= maxStreams then None else Some(old(nextLocalId))
      ensures Now() == if r.None? then old(Now()) else Called(cfg, old(Now()))
    {
      if |OpenIds(ends)| >= maxStreams { return None; }
      var id := nextLocalId;
      nextLocalId := nextLocalId + 2;
      ghost var before := OpenIds(ends);
      ends := ends[id := Fresh(Live)];
      assert OpenIds(ends) == before + {id};
      SendFrame(id, Open(U.Clamp(cfg.buffer)));
      return Some(id);
    }

    /** The reserved piece goes out, and more is reserved for the rest of the chunk. */
    method SendReserved(id: nat)
      requires ConfigOk(cfg) && id in ends && CanSend(ends[id])
      modifies this`ends, this`sent
      ensures Did(id, SendPiece(cfg, old(ends[id])))
    {
      var s := ends[id];
      var take := s.outb.phase.units;
      var piece := s.outb.chunk[..take];
      SendFrame(id, Data(piece));
      s := s.(outb := s.outb.(chunk := s.outb.chunk[take..], sent := s.outb.sent + piece, phase := Waiting));
      if s.outb.chunk != [] { s := ReserveNext(cfg, s); }
      ends := ends[id := s];
    }

    /** The pump takes a chunk from the input and sends what the credit allows of it, until it is out or must wait. */
    method PumpChunk(id: nat, chunk: Bytes)
      requires Valid() && id in ends && ends[id].status == Live && ends[id].outb.phase.Waiting? && chunk != []
      modifies this`ends, this`sent
      ensures Did(id, Pumped(cfg, OfferChunk(cfg, old(ends[id]), chunk)))
    {
      var s := ends[id];
      s := s.(outb := s.outb.(chunk := chunk, offered := s.outb.offered + chunk));
      s := ReserveNext(cfg, s);
      ends := ends[id := s];
      ghost var out: seq<Frame> := [];
      assert sent + [] == sent;
      assert [] + Pumped(cfg, s).out == Pumped(cfg, s).out;
      while CanSend(ends[id])
        invariant id in ends && Effect(Pumped(cfg, ends[id]).side, out + Pumped(cfg, ends[id]).out) == Pumped(cfg, s)
        invariant ends == old(ends)[id := ends[id]] && sent == old(sent) + Tag(id, out)
        decreases |ends[id].outb.chunk|
      {
        ghost var now := ends[id];
        PumpedNext(cfg, now, out);
        TagAppend(id, out, SendPiece(cfg, now).out);
        hide Pumped, Tag, SendPiece;
        SendReserved(id);
        out := out + SendPiece(cfg, now).out;
      }
      assert out + [] == out;
    }

    /** One frame of the peer, for one stream. */
    method HandleFrame(id: nat, f: Frame)
      requires Valid()
      modifies this
      ensures Valid()
      ensures Now() == Heard(cfg, maxStreams, old(Now()), Sent(id, f))
    {
      OpensWithinLimit(cfg, ends, id, f, |OpenIds(ends)| >= maxStreams || !served, maxStreams);
      ghost var before := sent;
      assert before + [] == before;
      var full := |OpenIds(ends)| >= maxStreams;
      if id !in ends { ends := ends[id := Fresh(NotYet)]; }
      var s := ends[id];
      if s.status != Live {
        ends := ends[id := s];
        if f.Open? { Accept(id, f.window, full); }
        assert ends == old(ends)[id := Handle(cfg, EndOf(old(ends), id), f, full || !served).side];
        return;
      }
      match f {
        case Open(_) => ends := ends[id := s];
        case Data(b) => Receive(id, b);
        case Ack(n) => ends := ends[id := AddCredit(s, n)];
        case EndFrame =>
          ends := ends[id := s.(inb := DoneIn(s.inb.(done := true), PeerEnd))];
          ReleaseStream(id);
        case ErrorFrame => TeardownStream(id, PeerError);
        case CloseFrame => TeardownStream(id, PeerClose);
      }
      assert ends == old(ends)[id := Handle(cfg, EndOf(old(ends), id), f, full || !served).side];
    }

    /** An OPEN: refused without a slot or a handler, else the opener may send, and is told what it may. */
    method Accept(id: nat, window: nat, full: bool)
      requires id in ends && ends[id].status != Live
      modifies this`ends, this`sent
      ensures Did(id, Handle(cfg, old(ends[id]), Open(window), full || !served))
    {
      if full || !served {
        ends := ends[id := ends[id].(status := Gone)];
        SendFrame(id, ErrorFrame);
        return;
      }
      ends := ends[id := AddCredit(Fresh(Live), window)];
      SendFrame(id, Ack(U.Clamp(cfg.buffer)));
    }

    /** Bytes arrive: counted, and queued unless they pass the cap, which ends that stream alone. */
    method Receive(id: nat, b: Bytes)
      requires id in ends && ends[id].status == Live
      modifies this`ends, this`sent
      ensures Did(id, Handle(cfg, old(ends[id]), Data(b), false))
    {
      assert sent + [] == sent;
      var s := ends[id];
      s := s.(inb := s.inb.(queued := s.inb.queued + |b|));
      ends := ends[id := s];
      if s.inb.queued > cfg.buffer {
        SendFrame(id, ErrorFrame);
        TeardownStream(id, OwnError);
        return;
      }
      if s.inb.outcome.Running? {
        s := s.(inb := s.inb.(slots := s.inb.slots + [Value(b)]));
      } else {
        s := s.(inb := s.inb.(settling := s.inb.settling + [Settled(|b|, false)]));
      }
      ends := ends[id := s];
    }

    /** A pushed value settles: its bytes leave the count, and owed credit may go back. */
    method Settle(id: nat)
      requires id in ends && ends[id].inb.settling != []
      modifies this`ends, this`sent
      ensures Did(id, SettleOne(cfg, old(ends[id])))
    {
      assert sent + [] == sent;
      var s := ends[id];
      var p := s.inb.settling[0];
      s := s.(inb := s.inb.(settling := s.inb.settling[1..], queued := if p.units <= s.inb.queued then s.inb.queued - p.units else 0));
      if p.handled && s.status != Gone {
        var g := Consume(cfg.buffer, s.inb.pending, p.units, s.inb.queued == 0);
        s := s.(inb := s.inb.(pending := g.pending));
        if g.grant > 0 { SendFrame(id, Ack(U.Clamp(g.grant))); }
      }
      ends := ends[id := s];
    }
  }

  predicate CanSend(s: Side) {
    s.outb.phase.Taken? && 0 < s.outb.phase.units <= |s.outb.chunk| && s.status != Gone
  }

  /** The inner loop of the pump: pieces go out while credit for them is there. */
  function Pumped(c: Config, s: Side): Effect
    requires ConfigOk(c)
    decreases |s.outb.chunk|
  {
    if CanSend(s) then
      var e := SendPiece(c, s);
      var rest := Pumped(c, e.side);
      Effect(rest.side, e.out + rest.out)
    else Effect(s, [])
  }

  lemma PumpedNext(c: Config, s: Side, out: seq<Frame>)
    requires ConfigOk(c) && CanSend(s)
    ensures var e := SendPiece(c, s);
            && |e.side.outb.chunk| < |s.outb.chunk|
            && Pumped(c, s).side == Pumped(c, e.side).side
            && out + Pumped(c, s).out == (out + e.out) + Pumped(c, e.side).out
  {
    var e := SendPiece(c, s);
    assert Pumped(c, s).out == e.out + Pumped(c, e.side).out;
  }

  lemma {:induction false} TagAppend(id: nat, x: seq<Frame>, y: seq<Frame>)
    ensures Tag(id, x + y) == Tag(id, x) + Tag(id, y)
  {
    if x == [] {
      assert x + y == y;
    } else {
      assert (x + y)[1..] == x[1..] + y;
      TagAppend(id, x[1..], y);
    }
  }

  /** The pieces `e` puts out of the chunk of `s`: what they are, what is left, and what they cost. */
  ghost predicate CutWell(c: Config, s: Side, e: Effect) {
    && PumpOk(e.side) && e.side.outb.offered == s.outb.offered
    && e.side.outb.sent == s.outb.sent + DataOf(e.out)
    && (forall f :: f in e.out ==> f.Data? && 1 <= |f.bytes| <= c.mtu)
    && Held(e.side) + |DataOf(e.out)| == Held(s)
    && !e.side.outb.phase.Taken?
  }

  /**
   However the input is cut into chunks and whatever the mtu and the credit, the
   pieces the pump puts out are non-empty, within the mtu, and together exactly
   what it took off the chunk, in order; and they use exactly the credit there was.
   */
  lemma {:induction false} PiecesFaithful(c: Config, s: Side)
    requires ConfigOk(c) && PumpOk(s) && s.status == Live && !s.outb.done
    requires s.outb.phase.Taken? ==> s.outb.phase.units <= c.mtu
    ensures CutWell(c, s, Pumped(c, s))
    decreases |s.outb.chunk|
  {
    if s.outb.phase.Taken? {
      PieceKeeps(c, s);
      var e := SendPiece(c, s);
      PiecesFaithful(c, e.side);
      hide PumpOk, SendPiece, CutWell;
      CutFirst(c, s, e.side, s.outb.chunk[..s.outb.phase.units], Pumped(c, e.side));
    } else {
      assert s.outb.sent + [] == s.outb.sent;
    }
  }

  lemma CutFirst(c: Config, s: Side, t: Side, piece: Bytes, rest: Effect)
    requires CutWell(c, t, rest) && 1 <= |piece| <= c.mtu
    requires t.outb.offered == s.outb.offered && t.outb.sent == s.outb.sent + piece && Held(t) + |piece| == Held(s)
    ensures CutWell(c, s, Effect(rest.side, [Data(piece)] + rest.out))
  {
    DataFirst(piece, rest.out);
    assert s.outb.sent + (piece + DataOf(rest.out)) == s.outb.sent + piece + DataOf(rest.out);
    hide DataOf, PumpOk, Held;
  }

  lemma DataFirst(b: Bytes, fs: seq<Frame>)
    ensures DataOf([Data(b)] + fs) == b + DataOf(fs)
  {
    assert ([Data(b)] + fs)[1..] == fs;
  }

  lemma PieceKeeps(c: Config, s: Side)
    requires ConfigOk(c) && PumpOk(s) && s.status == Live && !s.outb.done && s.outb.phase.Taken?
    ensures var n, t := s.outb.phase.units, SendPiece(c, s).side;
            && SendPiece(c, s).out == [Data(s.outb.chunk[..n])] && 1 <= n <= |s.outb.chunk| && CanSend(s)
            && PumpOk(t) && t.status == Live && !t.outb.done && |t.outb.chunk| < |s.outb.chunk|
            && t.outb.offered == s.outb.offered && t.outb.sent == s.outb.sent + s.outb.chunk[..n]
            && Held(t) + n == Held(s)
            && (t.outb.phase.Taken? ==> t.outb.phase.units <= c.mtu) && !t.outb.phase.Over?
  {
    var n := s.outb.phase.units;
    assert s.outb.sent + (s.outb.chunk[..n] + s.outb.chunk[n..]) == (s.outb.sent + s.outb.chunk[..n]) + s.outb.chunk[n..];
    assert s.outb.chunk[..n] + s.outb.chunk[n..] == s.outb.chunk;
  }
}
