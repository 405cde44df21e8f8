/** The run in which a wide chunk has an honest sender refused, and so exactly when there is one. */
module PortWide {
  import opened Basics
  import opened PortSide
  import opened PortWire
  import opened PortWorld
  import opened PortSendSteps
  import opened PortCloseSteps
  import opened PortReceiveSteps
  import opened PortRuns
  import opened PortTheorems
  import opened PortStreams
  import opened PortChannel
  import opened PortRefused

  // ----- putting runs together -----

  ghost predicate Leads(k: Terms, ch: Channel, st: Stream, st': Stream)
    requires TermsOk(k)
  {
    exists moves :: IsStreamRun(k, ch, st, moves, st')
  }

  lemma {:induction false} RunThen(k: Terms, ch: Channel, st: Stream, m: seq<Move>, st1: Stream, m': seq<Move>, st2: Stream)
    requires TermsOk(k) && IsStreamRun(k, ch, st, m, st1) && IsStreamRun(k, ch, st1, m', st2)
    ensures IsStreamRun(k, ch, st, m + m', st2)
    decreases |m|
  {
    if m == [] {
      assert m + m' == m';
    } else {
      assert (m + m')[1..] == m[1..] + m';
      RunThen(k, ch, Moved(k, ch, st, m[0]), m[1..], st1, m', st2);
    }
  }

  lemma LeadsOn(k: Terms, ch: Channel, st: Stream, st1: Stream, st2: Stream)
    requires TermsOk(k) && Leads(k, ch, st, st1) && Leads(k, ch, st1, st2)
    ensures Leads(k, ch, st, st2)
  {
    var m :| IsStreamRun(k, ch, st, m, st1);
    var m' :| IsStreamRun(k, ch, st1, m', st2);
    RunThen(k, ch, st, m, st1, m', st2);
  }

  lemma LeadsNowhere(k: Terms, ch: Channel, st: Stream)
    requires TermsOk(k)
    ensures Leads(k, ch, st, st)
  {
    assert IsStreamRun(k, ch, st, [], st);
  }

  lemma LeadsOne(k: Terms, ch: Channel, st: Stream, mv: Move)
    requires TermsOk(k) && MayMove(k, ch, st, mv)
    ensures Leads(k, ch, st, Moved(k, ch, st, mv))
  {
    var none: seq<Move> := [];
    assert [mv][1..] == none;
    assert IsStreamRun(k, ch, Moved(k, ch, st, mv), none, Moved(k, ch, st, mv));
    assert IsStreamRun(k, ch, st, [mv], Moved(k, ch, st, mv));
  }

  // ----- the two ends, as the channel sees them -----

  function Pair(fromA: bool, s: Side, r: Side, sr: seq<Envelope>, rs: seq<Envelope>): World {
    if fromA then World(s, r, sr, rs) else World(r, s, rs, sr)
  }

  /** The sender's pipe, the other one empty. */
  function At(ch: Channel, s: Side, r: Side, sr: seq<Envelope>, x: Inbound): Stream {
    Stream(Pair(ch.fromA, s, r, sr, []), x)
  }

  const LISTENING := Inbound(true, false, 0, false, false)

  lemma SenderMoves(k: Terms, ch: Channel, s: Side, r: Side, sr: seq<Envelope>, x: Inbound, act: Act)
    requires TermsOk(k) && Enabled(k, OptionsOf(k, ch.fromA), s, [], act) && !act.EndDir?
    requires act.Post? ==> MayPost(ch, At(ch, s, r, sr, x), ch.fromA, act.payload)
    ensures var e := Perform(k, OptionsOf(k, ch.fromA), s, [], act);
            Leads(k, ch, At(ch, s, r, sr, x), At(ch, e.side, r, sr + e.out, x))
  {
    var st := At(ch, s, r, sr, x);
    var e := Perform(k, OptionsOf(k, ch.fromA), s, [], act);
    assert Can(k, st.w, ch.fromA, act);
    assert Moved(k, ch, st, Port(ch.fromA, act)) == At(ch, e.side, r, sr + e.out, x);
    hide CodecOk, Perform, Enabled, MayPost;
    LeadsOne(k, ch, st, Port(ch.fromA, act));
  }

  /** The receiver hears the oldest envelope, the rest of its table in nobody's way. */
  lemma ReceiverHearsOne(k: Terms, ch: Channel, s: Side, r: Side, sr: seq<Envelope>, x: Inbound, e: Envelope)
    requires TermsOk(k) && !CanFlush(r) && sr != [] && sr[0] == e
    requires Handle(OptionsOf(k, !ch.fromA), k.codec, r, e, false, 0).out == []
    ensures var t := Handle(OptionsOf(k, !ch.fromA), k.codec, r, e, false, 0).side;
            Leads(k, ch, At(ch, s, r, sr, x), At(ch, s, t, sr[1..], Heard(ch, r, t, x)))
  {
    var st, mv := At(ch, s, r, sr, x), Port(!ch.fromA, Recv(false, 0));
    var t := Handle(OptionsOf(k, !ch.fromA), k.codec, r, e, false, 0).side;
    assert Can(k, st.w, !ch.fromA, Recv(false, 0));
    var none: seq<Envelope> := [];
    assert none + none == none;
    hide Handle, Heard, CodecOk, CanFlush;
    assert Moved(k, ch, st, mv) == At(ch, s, t, sr[1..], Heard(ch, r, t, x));
    LeadsOne(k, ch, st, mv);
  }

  // ----- the handshake -----

  /** An end once both agreed, with nothing sent or heard yet. */
  function Settled(k: Terms, opener: bool): Side {
    Fresh(Live, k.window, opener, Mode(k), Shared(k)).(deal := Deal(opener, true, Mode(k), Shared(k)))
  }

  /** The opener has its port, the other end has taken it. */
  function Answering(k: Terms): World {
    World(Init(k).a, Fresh(Live, k.window, false, Mode(k), Shared(k)), [], [Ack(k)])
  }

  lemma HandshakeOne(k: Terms, ch: Channel)
    requires TermsOk(k)
    ensures Leads(k, ch, StreamInit(k), Stream(Answering(k), LISTENING))
  {
    var st, mv := StreamInit(k), Port(false, Recv(false, 0));
    assert k.ob.caps * k.oa.caps == Shared(k);
    assert [OpenOf(k)][1..] == [];
    var e := Attach(k.ob, Init(k).b, OpenOf(k), false);
    assert e.side == Answering(k).b && e.out == [Ack(k)];
    assert [] + [Ack(k)] == [Ack(k)];
    hide CodecOk, Attach;
    assert Moved(k, ch, st, mv) == Stream(Answering(k), LISTENING);
    LeadsOne(k, ch, st, mv);
  }

  lemma HandshakeTwo(k: Terms, ch: Channel)
    requires TermsOk(k) && Agreed(k)
    ensures Leads(k, ch, Stream(Answering(k), LISTENING),
                  Stream(World(Settled(k, true), Answering(k).b, [Credit(0, false, None)], []), LISTENING))
  {
    var st, mv := Stream(Answering(k), LISTENING), Port(true, Recv(false, 0));
    assert k.oa.caps * Shared(k) == Shared(k);
    assert [Ack(k)][1..] == [];
    var e := TakeCredit(k.oa, Init(k).a, Ack(k));
    assert e.side == Settled(k, true) && e.out == [Credit(0, false, None)];
    assert [] + [Credit(0, false, None)] == [Credit(0, false, None)];
    hide CodecOk, TakeCredit;
    assert Moved(k, ch, st, mv) == Stream(World(Settled(k, true), Answering(k).b, [Credit(0, false, None)], []), LISTENING);
    LeadsOne(k, ch, st, mv);
  }

  lemma HandshakeThree(k: Terms, ch: Channel)
    requires TermsOk(k)
    ensures Leads(k, ch, Stream(World(Settled(k, true), Answering(k).b, [Credit(0, false, None)], []), LISTENING),
                  Stream(World(Settled(k, true), Settled(k, false), [], []), LISTENING))
  {
    var st, mv := Stream(World(Settled(k, true), Answering(k).b, [Credit(0, false, None)], []), LISTENING), Port(false, Recv(false, 0));
    assert [Credit(0, false, None)][1..] == [];
    var e := TakeCredit(k.ob, Answering(k).b, Credit(0, false, None));
    assert e.side == Settled(k, false) && e.out == [];
    var none: seq<Envelope> := [];
    assert none + none == none;
    hide CodecOk, TakeCredit;
    assert Moved(k, ch, st, mv) == Stream(World(Settled(k, true), Settled(k, false), [], []), LISTENING);
    LeadsOne(k, ch, st, mv);
  }

  lemma Handshake(k: Terms, ch: Channel)
    requires TermsOk(k) && Agreed(k)
    ensures Leads(k, ch, StreamInit(k), At(ch, Settled(k, ch.fromA), Settled(k, !ch.fromA), [], LISTENING))
  {
    HandshakeOne(k, ch);
    HandshakeTwo(k, ch);
    HandshakeThree(k, ch);
    hide Leads, Settled, Answering, CodecOk;
    var last := Stream(World(Settled(k, true), Settled(k, false), [], []), LISTENING);
    LeadsOn(k, ch, StreamInit(k), Stream(Answering(k), LISTENING),
            Stream(World(Settled(k, true), Answering(k).b, [Credit(0, false, None)], []), LISTENING));
    LeadsOn(k, ch, StreamInit(k), Stream(World(Settled(k, true), Answering(k).b, [Credit(0, false, None)], []), LISTENING), last);
  }

  // ----- the sender -----

  function SizeOf(k: Terms, p: Payload): nat { Size(k.codec, Mode(k), p) }

  /** What the chunk leaves as, within the window's rules. */
  function Leaves(k: Terms, ch: Channel, p: Payload): seq<Envelope>
    requires OptionsOk(OptionsOf(k, ch.fromA))
  {
    if Cut(k, ch.fromA, p) then Pieces(k.codec.encode(p), OptionsOf(k, ch.fromA).frameSize.value) else [Message(p)]
  }

  predicate Rings(k: Terms, ch: Channel) { OptionsOf(k, ch.fromA).frameSize.Some? }

  /** The sender with the chunk let go of `sent` times and queued `queued` times. */
  function Sending(k: Terms, ch: Channel, p: Payload, posted: seq<Payload>, outstanding: nat, queued: bool, ring: seq<Envelope>): Side {
    Settled(k, ch.fromA).(outstanding := outstanding, queue := if queued then [Send(p, SizeOf(k, p))] else [],
                          queued := if queued then SizeOf(k, p) else 0, outgoing := ring, hist := Hist(posted, [], false, false))
  }

  lemma Posts(k: Terms, ch: Channel, p: Payload, posted: seq<Payload>, n: nat, ring: seq<Envelope>, r: Side, sr: seq<Envelope>)
    requires TermsOk(k) && ChannelOk(k, ch) && Wide(k, ch, p) && Pipeline in Shared(k)
    requires posted == [] || posted == [p]
    ensures Leads(k, ch, At(ch, Sending(k, ch, p, posted, n, false, ring), r, sr, LISTENING),
                  At(ch, Sending(k, ch, p, posted + [p], n, true, ring), r, sr, LISTENING))
  {
    var s, t := Sending(k, ch, p, posted, n, false, ring), Sending(k, ch, p, posted + [p], n, true, ring);
    assert Count(ch, Request, []) == 0;
    if posted == [p] { assert [p][..0] == []; }
    var none: seq<Item> := [];
    assert none + [Send(p, SizeOf(k, p))] == [Send(p, SizeOf(k, p))];
    assert PostPayload(k.codec, s, p) == Effect(t, []);
    assert sr + [] == sr;
    hide CodecOk, CostsCovered, PostPayload;
    SenderMoves(k, ch, s, r, sr, LISTENING, Post(p));
  }

  lemma LeavesIs(k: Terms, ch: Channel, p: Payload, s: Side)
    requires OptionsOk(OptionsOf(k, ch.fromA)) && s.deal.enforced && s.deal.exact == Mode(k)
    ensures Leaving(OptionsOf(k, ch.fromA), k.codec, s, Send(p, SizeOf(k, p)), false) == Leaves(k, ch, p)
    ensures PortWire.Plain(Leaves(k, ch, p)) && End !in Leaves(k, ch, p) && WithoutEnd(Leaves(k, ch, p)) == Leaves(k, ch, p)
  {
    if Cut(k, ch.fromA, p) { PiecesAreFrames(k.codec.encode(p), OptionsOf(k, ch.fromA).frameSize.value); }
    assert End !in Leaves(k, ch, p);
    NoEndKept(Leaves(k, ch, p));
  }

  lemma {:induction false} NoEndKept(es: seq<Envelope>)
    requires End !in es
    ensures WithoutEnd(es) == es
  {
    if es != [] {
      assert es == [es[0]] + es[1..];
      NoEndKept(es[1..]);
    }
  }

  lemma Flushes(k: Terms, ch: Channel, p: Payload, r: Side)
    requires TermsOk(k) && ChannelOk(k, ch) && Wide(k, ch, p)
    ensures Leads(k, ch, At(ch, Sending(k, ch, p, [p], 0, true, []), r, [], LISTENING),
                  At(ch, Sending(k, ch, p, [p], SizeOf(k, p), false, if Rings(k, ch) then Leaves(k, ch, p) else []), r,
                     if Rings(k, ch) then [] else Leaves(k, ch, p), LISTENING))
  {
    var o, s, n, es := OptionsOf(k, ch.fromA), Sending(k, ch, p, [p], 0, true, []), SizeOf(k, p), Leaves(k, ch, p);
    LeavesIs(k, ch, p, s);
    var t := Sending(k, ch, p, [p], n, false, []);
    assert [Send(p, n)][1..] == [];
    LeavesIs(k, ch, p, t);
    SendAllShape(o, t, es);
    hide CodecOk, CostsCovered, Leaves, SendAllOnPort, Leaving;
    assert FlushOne(o, k.codec, s) == SendAllOnPort(o, t, es);
    assert [] + es == es;
    SenderMoves(k, ch, s, r, [], LISTENING, Flush);
  }

  /** What a close behind it adds. */
  function Farewells(p: Payload): seq<Envelope> { [Message(p), Close] }

  function Spilled(k: Terms, ch: Channel, p: Payload, ring: seq<Envelope>): Side {
    Spill(Sending(k, ch, p, [p, p], SizeOf(k, p), true, [])).(outgoing := ring)
  }

  lemma Closes(k: Terms, ch: Channel, p: Payload, r: Side)
    requires TermsOk(k) && ChannelOk(k, ch) && Wide(k, ch, p)
    ensures Leads(k, ch, At(ch, Sending(k, ch, p, [p, p], SizeOf(k, p), true, if Rings(k, ch) then Leaves(k, ch, p) else []), r,
                            if Rings(k, ch) then [] else Leaves(k, ch, p), LISTENING),
                  At(ch, Spilled(k, ch, p, if Rings(k, ch) then Leaves(k, ch, p) + Farewells(p) else []), r,
                     if Rings(k, ch) then [] else Leaves(k, ch, p) + Farewells(p), LISTENING))
  {
    var es, n := Leaves(k, ch, p), SizeOf(k, p);
    var s := Sending(k, ch, p, [p, p], n, true, if Rings(k, ch) then es else []);
    assert n > k.window;
    ClosingSide(k, ch, p, es);
    hide CodecOk, CostsCovered, Leaves, CloseSide, Spilled;
    var none: seq<Envelope> := [];
    assert none + none == none;
    SenderMoves(k, ch, s, r, if Rings(k, ch) then [] else es, LISTENING, CloseIt);
  }

  lemma ClosingSide(k: Terms, ch: Channel, p: Payload, es: seq<Envelope>)
    requires OptionsOk(OptionsOf(k, ch.fromA))
    ensures CloseSide(OptionsOf(k, ch.fromA), Sending(k, ch, p, [p, p], SizeOf(k, p), true, if Rings(k, ch) then es else []))
              == Effect(Spilled(k, ch, p, if Rings(k, ch) then es + Farewells(p) else []), if Rings(k, ch) then [] else Farewells(p))
  {
    var s, n := Sending(k, ch, p, [p, p], SizeOf(k, p), true, if Rings(k, ch) then es else []), SizeOf(k, p);
    assert WholeItems([Send(p, n)]) == [Message(p)] by { assert [Send(p, n)][1..] == []; }
    assert [Message(p)] + [Close] == Farewells(p);
    NoEndKept(Farewells(p));
    SendAllShape(OptionsOf(k, ch.fromA), Spill(s), Farewells(p));
    hide SendAllOnPort, WholeItems, WithoutEnd;
  }

  /** The ring of a closed port empties onto the pipe. */
  lemma {:induction false} Pumps(k: Terms, ch: Channel, s: Side, r: Side, sr: seq<Envelope>, x: Inbound)
    requires TermsOk(k) && Rings(k, ch) && s.status == Dead && End !in s.outgoing
    ensures Leads(k, ch, At(ch, s, r, sr, x), At(ch, s.(outgoing := []), r, sr + s.outgoing, x))
    decreases |s.outgoing|
  {
    if s.outgoing == [] {
      assert sr + s.outgoing == sr;
      LeadsNowhere(k, ch, At(ch, s, r, sr, x));
    } else {
      var e, t := s.outgoing[0], s.(outgoing := s.outgoing[1..]);
      assert s.outgoing == [e] + t.outgoing;
      assert PumpOne(s) == Effect(t, [e]);
      hide CodecOk, Leads;
      SenderMoves(k, ch, s, r, sr, x, Pump);
      Pumps(k, ch, t, r, sr + [e], x);
      assert sr + [e] + t.outgoing == sr + s.outgoing;
      LeadsOn(k, ch, At(ch, s, r, sr, x), At(ch, t, r, sr + [e], x), At(ch, s.(outgoing := []), r, sr + s.outgoing, x));
    }
  }

  lemma EndFree(k: Terms, ch: Channel, p: Payload)
    requires OptionsOk(OptionsOf(k, ch.fromA))
    ensures End !in Leaves(k, ch, p) + Farewells(p)
  {
    LeavesIs(k, ch, p, Settled(k, ch.fromA));
    hide Leaves;
  }

  /** Two wide chunks on the pipe, the second one past the window, then the close. */
  lemma SendsTwo(k: Terms, ch: Channel, p: Payload)
    requires TermsOk(k) && ChannelOk(k, ch) && Agreed(k) && Wide(k, ch, p) && Pipeline in Shared(k)
    ensures Leads(k, ch, StreamInit(k), At(ch, Spilled(k, ch, p, []), Settled(k, !ch.fromA), Leaves(k, ch, p) + Farewells(p), LISTENING))
  {
    var r, es, n := Settled(k, !ch.fromA), Leaves(k, ch, p), SizeOf(k, p);
    var ring, sr := if Rings(k, ch) then es else [], if Rings(k, ch) then [] else es;
    var st0, st1 := StreamInit(k), At(ch, Sending(k, ch, p, [], 0, false, []), r, [], LISTENING);
    var st2 := At(ch, Sending(k, ch, p, [p], 0, true, []), r, [], LISTENING);
    var st3 := At(ch, Sending(k, ch, p, [p], n, false, ring), r, sr, LISTENING);
    var st4 := At(ch, Sending(k, ch, p, [p, p], n, true, ring), r, sr, LISTENING);
    var ring', sr' := if Rings(k, ch) then es + Farewells(p) else [], if Rings(k, ch) then [] else es + Farewells(p);
    var st5 := At(ch, Spilled(k, ch, p, ring'), r, sr', LISTENING);
    var st6 := At(ch, Spilled(k, ch, p, []), r, es + Farewells(p), LISTENING);
    Handshake(k, ch);
    assert Sending(k, ch, p, [], 0, false, []) == Settled(k, ch.fromA);
    Posts(k, ch, p, [], 0, [], r, []);
    assert [] + [p] == [p] && [p] + [p] == [p, p];
    Flushes(k, ch, p, r);
    Posts(k, ch, p, [p], n, ring, r, sr);
    Closes(k, ch, p, r);
    EndFree(k, ch, p);
    hide Leads, Sending, Leaves, Farewells, CodecOk, CostsCovered, Wide;
    if Rings(k, ch) {
      assert [] + ring' == ring';
      assert Spilled(k, ch, p, ring').(outgoing := []) == Spilled(k, ch, p, []);
      Pumps(k, ch, Spilled(k, ch, p, ring'), r, [], LISTENING);
    } else {
      LeadsNowhere(k, ch, st5);
    }
    assert Leads(k, ch, st5, st6);
    LeadsOn(k, ch, st0, st1, st2);
    LeadsOn(k, ch, st0, st2, st3);
    LeadsOn(k, ch, st0, st3, st4);
    LeadsOn(k, ch, st0, st4, st5);
    LeadsOn(k, ch, st0, st5, st6);
  }

  // ----- the receiver -----

  /** A receiver that holds the chunk, delivered and not consumed. */
  predicate Holds(k: Terms, ch: Channel, r: Side, x: Inbound, p: Payload) {
    && r.status == Live && r.queue == [] && r.window == k.window && r.deal.caps == Shared(k) && !r.half.peerEnded
    && x.listening && !x.outstanding && !x.poison && x.held == ch.cost(p)
  }

  /** The receiver, some frames of the chunk reassembled. */
  function Filling(k: Terms, ch: Channel, chunks: seq<Bytes>): Side {
    var r := Settled(k, !ch.fromA);
    var n := |Flatten(chunks)|;
    if n == 0 then r else r.(partial := Some(Partial(chunks, n, None, Max(0, n - k.window))))
  }

  lemma HearsMessage(k: Terms, ch: Channel, s: Side, rest: seq<Envelope>, p: Payload) returns (r: Side, x: Inbound)
    requires TermsOk(k) && IsChunk(ch, p) && Pipeline in Shared(k)
    ensures Holds(k, ch, r, x, p)
    ensures Leads(k, ch, At(ch, s, Settled(k, !ch.fromA), [Message(p)] + rest, LISTENING), At(ch, s, r, rest, x))
  {
    var r0 := Settled(k, !ch.fromA);
    r := Handle(OptionsOf(k, !ch.fromA), k.codec, r0, Message(p), false, 0).side;
    x := Heard(ch, r0, r, LISTENING);
    assert r.hist.delivered == [p];
    assert ([Message(p)] + rest)[1..] == rest;
    hide CodecOk;
    ReceiverHearsOne(k, ch, s, r0, [Message(p)] + rest, LISTENING, Message(p));
  }

  lemma FlattenNone()
    ensures Flatten<byte>([]) == []
  {
  }

  /** One more frame, the last or not. */
  lemma FillsOne(k: Terms, ch: Channel, chunks: seq<Bytes>, b: Bytes, last: bool, p: Payload)
    requires Mode(k) && k.window >= 1 && b != [] && (|Flatten(chunks)| == 0 ==> chunks == [])
    requires |Flatten(chunks)| + |b| <= k.window + OptionsOf(k, !ch.fromA).maxReassembled
    requires last ==> k.codec.decode(Flatten(chunks) + b) == Some(p)
    ensures var h := Handle(OptionsOf(k, !ch.fromA), k.codec, Filling(k, ch, chunks), Frame(b, last), false, 0);
            && h.out == [] && Flatten(chunks + [b]) == Flatten(chunks) + b
            && (!last ==> h.side == Filling(k, ch, chunks + [b]))
            && (last ==> h.side.status == Live && h.side.queue == [] && h.side.window == k.window && h.side.deal.caps == Shared(k)
                         && !h.side.half.peerEnded && h.side.hist.delivered == [p])
  {
    FlattenSnoc(chunks, b);
    FlattenNone();
    hide Flatten;
    var o, r := OptionsOf(k, !ch.fromA), Filling(k, ch, chunks);
    var e := Frame(b, last);
    FillingPartial(k, ch, chunks);
    FrameOutcome(o, k.codec, r, e, 0);
    assert Handle(o, k.codec, r, e, false, 0) == Effect(Framed(k.codec, r, e), []) by { hide Framed; }
    hide Handle, TakeFrame;
  }

  /** What the next frame finds: what came before it, and nothing else held. */
  lemma FillingPartial(k: Terms, ch: Channel, chunks: seq<Bytes>)
    requires |Flatten(chunks)| == 0 ==> chunks == []
    ensures var r, n := Filling(k, ch, chunks), |Flatten(chunks)|;
            PartialOf(r) == Partial(chunks, n, None, Max(0, n - k.window))
  {
    FlattenNone();
    hide Flatten;
  }

  lemma HearsLast(k: Terms, ch: Channel, s: Side, chunks: seq<Bytes>, b: Bytes, rest: seq<Envelope>, p: Payload) returns (r: Side, x: Inbound)
    requires TermsOk(k) && IsChunk(ch, p) && Pipeline in Shared(k) && Mode(k) && b != []
    requires (|Flatten(chunks)| == 0 ==> chunks == []) && k.codec.decode(Flatten(chunks) + b) == Some(p)
    requires |Flatten(chunks) + b| <= k.window + OptionsOf(k, !ch.fromA).maxReassembled
    ensures Holds(k, ch, r, x, p)
    ensures Leads(k, ch, At(ch, s, Filling(k, ch, chunks), [Frame(b, true)] + rest, LISTENING), At(ch, s, r, rest, x))
  {
    var r0 := Filling(k, ch, chunks);
    FillsOne(k, ch, chunks, b, true, p);
    r := Handle(OptionsOf(k, !ch.fromA), k.codec, r0, Frame(b, true), false, 0).side;
    x := Heard(ch, r0, r, LISTENING);
    assert ([Frame(b, true)] + rest)[1..] == rest;
    hide CodecOk, Handle, Flatten, Leads;
    ReceiverHearsOne(k, ch, s, r0, [Frame(b, true)] + rest, LISTENING, Frame(b, true));
  }

  lemma {:induction false} HearsPieces(k: Terms, ch: Channel, s: Side, chunks: seq<Bytes>, b: Bytes, size: nat, rest: seq<Envelope>, p: Payload)
    returns (r: Side, x: Inbound)
    requires TermsOk(k) && IsChunk(ch, p) && Pipeline in Shared(k) && Mode(k) && size >= 1 && b != []
    requires (|Flatten(chunks)| == 0 ==> chunks == []) && k.codec.decode(Flatten(chunks) + b) == Some(p)
    requires |Flatten(chunks) + b| <= k.window + OptionsOf(k, !ch.fromA).maxReassembled
    ensures Holds(k, ch, r, x, p)
    ensures Leads(k, ch, At(ch, s, Filling(k, ch, chunks), Pieces(b, size) + rest, LISTENING), At(ch, s, r, rest, x))
    decreases |b|
  {
    var r0 := Filling(k, ch, chunks);
    var o := OptionsOf(k, !ch.fromA);
    if |b| <= size {
      hide CodecOk, Leads, Flatten, Holds;
      r, x := HearsLast(k, ch, s, chunks, b, rest, p);
      assert Pieces(b, size) == [Frame(b, true)];
    } else {
      var b0, b1 := b[..size], b[size..];
      assert b == b0 + b1;
      FillsOne(k, ch, chunks, b0, false, p);
      assert Flatten(chunks) + b == Flatten(chunks + [b0]) + b1;
      hide CodecOk, Handle, Flatten, Leads;
      assert (Pieces(b, size) + rest)[0] == Frame(b0, false) && (Pieces(b, size) + rest)[1..] == Pieces(b1, size) + rest;
      var r1 := Filling(k, ch, chunks + [b0]);
      ReceiverHearsOne(k, ch, s, r0, Pieces(b, size) + rest, LISTENING, Frame(b0, false));
      assert Heard(ch, r0, r1, LISTENING) == LISTENING;
      hide Pieces, Filling, Heard;
      r, x := HearsPieces(k, ch, s, chunks + [b0], b1, size, rest, p);
      LeadsOn(k, ch, At(ch, s, r0, Pieces(b, size) + rest, LISTENING), At(ch, s, r1, Pieces(b1, size) + rest, LISTENING), At(ch, s, r, rest, x));
    }
  }

  lemma HearsFirst(k: Terms, ch: Channel, s: Side, rest: seq<Envelope>, p: Payload) returns (r: Side, x: Inbound)
    requires TermsOk(k) && Wide(k, ch, p) && Pipeline in Shared(k)
    ensures Holds(k, ch, r, x, p)
    ensures Leads(k, ch, At(ch, s, Settled(k, !ch.fromA), Leaves(k, ch, p) + rest, LISTENING), At(ch, s, r, rest, x))
  {
    if Cut(k, ch.fromA, p) {
      FlattenNone();
      assert [] + k.codec.encode(p) == k.codec.encode(p);
      assert Filling(k, ch, []) == Settled(k, !ch.fromA);
      hide Leads, Flatten, Pieces, Settled, Holds;
      r, x := HearsPieces(k, ch, s, [], k.codec.encode(p), OptionsOf(k, ch.fromA).frameSize.value, rest, p);
    } else {
      hide Leads, CodecOk;
      r, x := HearsMessage(k, ch, s, rest, p);
    }
  }

  lemma HearsSecond(k: Terms, ch: Channel, s: Side, r: Side, x: Inbound, p: Payload) returns (st: Stream)
    requires TermsOk(k) && Wide(k, ch, p) && Pipeline in Shared(k) && Holds(k, ch, r, x, p)
    ensures Leads(k, ch, At(ch, s, r, Farewells(p), x), st) && st.x.poison
  {
    var t := Handle(OptionsOf(k, !ch.fromA), k.codec, r, Message(p), false, 0).side;
    st := At(ch, s, t, Farewells(p)[1..], Heard(ch, r, t, x));
    assert t.hist.delivered == r.hist.delivered + [p];
    hide CodecOk;
    ReceiverHearsOne(k, ch, s, r, Farewells(p), x, Message(p));
  }

  // ----- exactly when -----

  /**
   The sender must keep its end open: one that closes it with a chunk queued
   behind a chunk wider than the window sends both past the window, and the
   receiver then calls it a violator, whatever the options of the two ends.
   */
  lemma ClosingCanViolate(k: Terms, ch: Channel, p: Payload)
    requires TermsOk(k) && ChannelOk(k, ch) && Agreed(k) && Wide(k, ch, p) && Pipeline in Shared(k)
    ensures exists moves, st :: IsStreamRun(k, ch, StreamInit(k), moves, st) && st.x.poison
  {
    hide CodecOk, ChannelOk, Wide, Leaves, Farewells, Spilled, Holds;
    SendsTwo(k, ch, p);
    var s := Spilled(k, ch, p, []);
    var r, x := HearsFirst(k, ch, s, Farewells(p), p);
    var st := HearsSecond(k, ch, s, r, x, p);
    {
      hide Leads;
      LeadsOn(k, ch, StreamInit(k), At(ch, s, Settled(k, !ch.fromA), Leaves(k, ch, p) + Farewells(p), LISTENING), At(ch, s, r, Farewells(p), x));
      LeadsOn(k, ch, StreamInit(k), At(ch, s, r, Farewells(p), x), st);
    }
    assert Leads(k, ch, StreamInit(k), st);
  }

  /**
   A sender that follows `sendChunks` can be refused if and only if pipelining is
   agreed and some chunk the codec carries, and the receiver's cap lets through,
   costs more than the window.
   */
  lemma RefusedExactly(k: Terms, ch: Channel)
    requires TermsOk(k) && ChannelOk(k, ch) && Agreed(k)
    ensures (exists moves, st :: IsStreamRun(k, ch, StreamInit(k), moves, st) && st.x.poison)
            <==> Pipeline in Shared(k) && exists p :: Wide(k, ch, p)
  {
    hide CodecOk, ChannelOk, IsStreamRun, Wide;
    if moves, st :| IsStreamRun(k, ch, StreamInit(k), moves, st) && st.x.poison {
      RefusedTakesWide(k, ch, moves, st);
    }
    if Pipeline in Shared(k) {
      if p :| Wide(k, ch, p) { ClosingCanViolate(k, ch, p); }
    }
  }
}
