/**
 What the envelopes of one direction of a port amount to: the payloads they will
 deliver, the bytes they cost, and whether each framed message fits what the
 window leaves when it arrives.
 */
module PortWire {
  import opened Basics
  import opened PortSide

  // ----- projections of a pipe -----

  /** The port's traffic proper: everything but handshake and credit. */
  function Data(ch: seq<Envelope>): seq<Envelope> {
    if ch == [] then []
    else (if ch[0].Open? || ch[0].Credit? then [] else [ch[0]]) + Data(ch[1..])
  }

  /** Credit in flight, in bytes. */
  function Credits(ch: seq<Envelope>): nat {
    if ch == [] then 0
    else (if ch[0].Credit? then ch[0].bytes else 0) + Credits(ch[1..])
  }

  lemma {:induction false} DataAppend(x: seq<Envelope>, y: seq<Envelope>)
    ensures Data(x + y) == Data(x) + Data(y)
  {
    if x == [] {
      assert x + y == y;
    } else {
      assert (x + y)[1..] == x[1..] + y;
      DataAppend(x[1..], y);
    }
  }

  lemma {:induction false} CreditsAppend(x: seq<Envelope>, y: seq<Envelope>)
    ensures Credits(x + y) == Credits(x) + Credits(y)
  {
    if x == [] {
      assert x + y == y;
    } else {
      assert (x + y)[1..] == x[1..] + y;
      CreditsAppend(x[1..], y);
    }
  }

  lemma {:induction false} DataIn(ch: seq<Envelope>, e: Envelope)
    ensures e in Data(ch) <==> e in ch && !e.Open? && !e.Credit?
  {
    if ch != [] {
      assert ch == [ch[0]] + ch[1..];
      DataIn(ch[1..], e);
    }
  }

  predicate Plain(es: seq<Envelope>) {
    forall e :: e in es ==> !e.Open? && !e.Credit?
  }

  lemma {:induction false} DataPlain(es: seq<Envelope>)
    requires Plain(es)
    ensures Data(es) == es && Credits(es) == 0
  {
    if es != [] {
      DataPlain(es[1..]);
    }
  }

  // ----- the payloads the traffic delivers -----

  datatype Fed = Fed(msgs: seq<Payload>, buf: Bytes, closed: bool, ok: bool)

  /**
   What a receiver holding `buf` of a framed message makes of `d`: the payloads
   delivered, what is left of a framed message, whether a close came, and
   whether every framed message was one encoded whole and no other cut into it.
   */
  function Feed(c: Codec, buf: Bytes, d: seq<Envelope>): Fed
    decreases |d|
  {
    if d == [] then Fed([], buf, false, true)
    else match d[0]
      case Close => Fed([], buf, true, true)
      case Message(p) =>
        var f := Feed(c, buf, d[1..]);
        f.(msgs := [p] + f.msgs, ok := f.ok && buf == [])
      case Frame(x, last) =>
        if x == [] then Fed([], [], false, false)
        else if !last then Feed(c, buf + x, d[1..])
        else (match c.decode(buf + x)
              case None => Fed([], [], false, false)
              case Some(p) =>
                if c.encode(p) != buf + x then Fed([], [], false, false)
                else var f := Feed(c, [], d[1..]); f.(msgs := [p] + f.msgs))
      case _ => Feed(c, buf, d[1..])
  }

  lemma {:induction false} FeedAppend(c: Codec, buf: Bytes, d: seq<Envelope>, e: seq<Envelope>)
    requires Feed(c, buf, d).ok
    ensures Feed(c, buf, d).closed ==> Feed(c, buf, d + e) == Feed(c, buf, d)
    ensures !Feed(c, buf, d).closed ==>
              var f := Feed(c, buf, d);
              var g := Feed(c, f.buf, e);
              Feed(c, buf, d + e) == g.(msgs := f.msgs + g.msgs)
    decreases |d|
  {
    if d == [] {
      assert d + e == e;
    } else {
      assert (d + e)[1..] == d[1..] + e;
      match d[0]
      case Close =>
      case Frame(x, last) =>
        FeedAppend(c, if last then [] else buf + x, d[1..], e);
      case Message(_) => FeedAppend(c, buf, d[1..], e);
      case _ => FeedAppend(c, buf, d[1..], e);
    }
  }

  /** A closed ring item that never leaves changes nothing for the receiver. */
  lemma FeedSkipsEnd(c: Codec, buf: Bytes, d: seq<Envelope>, e: seq<Envelope>)
    requires Feed(c, buf, d + [End] + e).ok && Feed(c, buf, d).ok
    ensures Feed(c, buf, d + e) == Feed(c, buf, d + [End] + e)
  {
    assert d + [End] + e == d + ([End] + e);
    FeedAppend(c, buf, d, [End] + e);
    FeedAppend(c, buf, d, e);
    assert ([End] + e)[1..] == e;
  }

  lemma {:induction false} FeedPrefixOk(c: Codec, buf: Bytes, d: seq<Envelope>, e: seq<Envelope>)
    requires Feed(c, buf, d + e).ok
    ensures Feed(c, buf, d).ok
    decreases |d|
  {
    if d != [] {
      assert (d + e)[1..] == d[1..] + e;
      match d[0]
      case Close =>
      case Frame(x, last) =>
        FeedPrefixOk(c, if last then [] else buf + x, d[1..], e);
      case Message(_) => FeedPrefixOk(c, buf, d[1..], e);
      case _ => FeedPrefixOk(c, buf, d[1..], e);
    }
  }

  /** The frames of an encoded message deliver that message, whatever the frame size. */
  lemma {:induction false} FeedPieces(c: Codec, buf: Bytes, bytes: Bytes, frameSize: nat, p: Payload)
    requires frameSize >= 1 && |bytes| >= 1 && c.decode(buf + bytes) == Some(p) && c.encode(p) == buf + bytes
    ensures Feed(c, buf, Pieces(bytes, frameSize)) == Fed([p], [], false, true)
    decreases |bytes|
  {
    var d := Pieces(bytes, frameSize);
    if |bytes| <= frameSize {
      assert d[1..] == [];
    } else {
      assert d[1..] == Pieces(bytes[frameSize..], frameSize);
      assert buf + bytes == (buf + bytes[..frameSize]) + bytes[frameSize..];
      FeedPieces(c, buf + bytes[..frameSize], bytes[frameSize..], frameSize, p);
    }
  }

  function Payloads(q: seq<Item>): seq<Payload> {
    if q == [] then [] else (if q[0].Send? then [q[0].payload] else []) + Payloads(q[1..])
  }

  lemma {:induction false} PayloadsAppend(x: seq<Item>, y: seq<Item>)
    ensures Payloads(x + y) == Payloads(x) + Payloads(y)
  {
    if x == [] {
      assert x + y == y;
    } else {
      assert (x + y)[1..] == x[1..] + y;
      PayloadsAppend(x[1..], y);
      assert Payloads(x) == (if x[0].Send? then [x[0].payload] else []) + Payloads(x[1..]);
    }
  }

  function WithoutEnd(es: seq<Envelope>): seq<Envelope> {
    if es == [] then [] else (if es[0].End? then [] else [es[0]]) + WithoutEnd(es[1..])
  }

  /** What a closing end still sends delivers everything it had queued, then the close. */
  lemma {:induction false} FeedWhole(c: Codec, q: seq<Item>)
    ensures Feed(c, [], WholeItems(q) + [Close]) == Fed(Payloads(q), [], true, true)
    ensures Feed(c, [], WithoutEnd(WholeItems(q) + [Close])) == Fed(Payloads(q), [], true, true)
  {
    var es := WholeItems(q) + [Close];
    if q != [] {
      FeedWhole(c, q[1..]);
      assert es[1..] == WholeItems(q[1..]) + [Close];
      assert WithoutEnd(es) == (if es[0].End? then [] else [es[0]]) + WithoutEnd(es[1..]);
      assert es[0].End? ==> WithoutEnd(es) == WithoutEnd(es[1..]);
      assert !es[0].End? ==> WithoutEnd(es)[1..] == WithoutEnd(es[1..]);
    }
  }

  // ----- what the traffic costs -----

  function CostOf(c: Codec, mode: bool, e: Envelope): nat {
    match e
    case Message(p) => Size(c, mode, p)
    case Frame(x, _) => |x|
    case _ => 0
  }

  function Cost(c: Codec, mode: bool, d: seq<Envelope>): nat {
    if d == [] then 0 else CostOf(c, mode, d[0]) + Cost(c, mode, d[1..])
  }

  lemma {:induction false} CostAppend(c: Codec, mode: bool, x: seq<Envelope>, y: seq<Envelope>)
    ensures Cost(c, mode, x + y) == Cost(c, mode, x) + Cost(c, mode, y)
  {
    if x == [] {
      assert x + y == y;
    } else {
      assert (x + y)[1..] == x[1..] + y;
      CostAppend(c, mode, x[1..], y);
    }
  }

  lemma {:induction false} CostPieces(c: Codec, mode: bool, bytes: Bytes, frameSize: nat)
    requires frameSize >= 1
    ensures Cost(c, mode, Pieces(bytes, frameSize)) == |bytes|
    decreases |bytes|
  {
    if |bytes| > frameSize {
      assert Pieces(bytes, frameSize)[1..] == Pieces(bytes[frameSize..], frameSize);
      CostPieces(c, mode, bytes[frameSize..], frameSize);
    }
  }

  lemma {:induction false} PiecesAreFrames(bytes: Bytes, frameSize: nat)
    requires frameSize >= 1
    ensures forall e :: e in Pieces(bytes, frameSize) ==> e.Frame?
    decreases |bytes|
  {
    if |bytes| > frameSize {
      PiecesAreFrames(bytes[frameSize..], frameSize);
    }
  }

  // ----- whether it fits the window -----

  /** Where a receiver stands: between messages, or in a framed one with so much room left. */
  datatype Run = Idle | InRun(left: Option<int>)

  function RunOf(s: Side): Run {
    match s.partial
    case None => Idle
    case Some(pt) => InRun(if pt.room.Some? then Some(pt.room.value - pt.bytes) else None)
  }

  /** What a direction is measured with. */
  datatype Gauge = Gauge(codec: Codec, mode: bool, window: nat, chunk: Payload -> bool)

  /** The room a frame finds when `owed` bytes are owed; `None` without limit. */
  function Left(g: Gauge, run: Run, owed: nat): Option<int> {
    match run
    case Idle => if owed > 0 then Some(g.window - owed) else None
    case InRun(l) => l
  }

  /** Where an envelope leaves the receiver. */
  function NextRun(g: Gauge, run: Run, owed: nat, e: Envelope): Run {
    match e
    case Frame(x, last) =>
      var left := Left(g, run, owed);
      if last then Idle else InRun(if left.Some? then Some(left.value - |x|) else None)
    case Message(_) => Idle
    case _ => run
  }

  function After(g: Gauge, owed: nat, e: Envelope): nat {
    owed + CostOf(g.codec, g.mode, e)
  }

  /** A frame within its room; a whole message between framed ones, and marked ones within the window. */
  predicate Passes(g: Gauge, kept: bool, run: Run, owed: nat, e: Envelope) {
    match e
    case Message(p) =>
      run.Idle? && (kept && g.chunk(p) ==> owed == 0 || owed + Size(g.codec, g.mode, p) <= g.window)
    case Frame(x, _) => Left(g, run, owed).Some? ==> |x| <= Left(g, run, owed).value
    case _ => true
  }

  /**
   No frame of `d` passes the room its message began with, when `owed` bytes are
   owed as `d` starts to arrive and nothing more is consumed meanwhile. While
   `kept` holds, every whole message marked `chunk` fits as well.
   */
  predicate Fits(g: Gauge, kept: bool, run: Run, owed: nat, d: seq<Envelope>)
    decreases |d|
  {
    d != [] && !d[0].Close? ==>
      Passes(g, kept, run, owed, d[0]) && Fits(g, kept, NextRun(g, run, owed, d[0]), After(g, owed, d[0]), d[1..])
  }

  predicate Roomier(r: Run, s: Run) {
    match (r, s)
    case (Idle, Idle) => true
    case (InRun(x), InRun(y)) => x.Some? ==> y.Some? && y.value <= x.value
    case _ => false
  }

  /** Consuming only makes room, and a sender that leaves promises less. */
  lemma {:induction false} FitsMono(g: Gauge, kept: bool, kept': bool, run: Run, run': Run, owed: nat, owed': nat, d: seq<Envelope>)
    requires Fits(g, kept, run, owed, d)
    requires Roomier(run', run) && owed' <= owed && (kept' ==> kept)
    ensures Fits(g, kept', run', owed', d)
    decreases |d|
  {
    if d != [] && !d[0].Close? {
      FitsMono(g, kept, kept', NextRun(g, run, owed, d[0]), NextRun(g, run', owed', d[0]),
               After(g, owed, d[0]), After(g, owed', d[0]), d[1..]);
    }
  }

  /** Where a receiver stands after `d`. */
  function RunAfter(g: Gauge, run: Run, owed: nat, d: seq<Envelope>): Run
    decreases |d|
  {
    if d == [] then run else RunAfter(g, NextRun(g, run, owed, d[0]), After(g, owed, d[0]), d[1..])
  }

  lemma {:induction false} FitsAppend(g: Gauge, kept: bool, run: Run, owed: nat, d: seq<Envelope>, e: seq<Envelope>)
    requires Close !in d
    requires Fits(g, kept, run, owed, d)
    requires Fits(g, kept, RunAfter(g, run, owed, d), owed + Cost(g.codec, g.mode, d), e)
    ensures Fits(g, kept, run, owed, d + e)
    decreases |d|
  {
    if d == [] {
      assert d + e == e;
    } else {
      assert (d + e)[1..] == d[1..] + e;
      FitsAppend(g, kept, NextRun(g, run, owed, d[0]), After(g, owed, d[0]), d[1..], e);
    }
  }

  /** With no frame cut off at its end, a receiver is between messages again. */
  lemma {:induction false} IdleAfter(g: Gauge, run: Run, owed: nat, buf: Bytes, d: seq<Envelope>)
    requires Close !in d && Feed(g.codec, buf, d).ok && Feed(g.codec, buf, d).buf == []
    requires run.Idle? <==> buf == []
    ensures RunAfter(g, run, owed, d) == Idle
    decreases |d|
  {
    if d != [] {
      var buf' := if d[0].Frame? then (if d[0].last then [] else buf + d[0].data) else buf;
      IdleAfter(g, NextRun(g, run, owed, d[0]), After(g, owed, d[0]), buf', d[1..]);
    }
  }

  /** A framed message sent when it fits, or alone, passes no room. */
  lemma {:induction false} FitsPieces(g: Gauge, kept: bool, run: Run, owed: nat, bytes: Bytes, frameSize: nat)
    requires frameSize >= 1
    requires Left(g, run, owed).Some? ==> |bytes| <= Left(g, run, owed).value
    ensures Fits(g, kept, run, owed, Pieces(bytes, frameSize))
    decreases |bytes|
  {
    var d := Pieces(bytes, frameSize);
    if |bytes| <= frameSize {
      assert d[1..] == [];
    } else {
      assert d[1..] == Pieces(bytes[frameSize..], frameSize);
      FitsPieces(g, kept, NextRun(g, run, owed, d[0]), After(g, owed, d[0]), bytes[frameSize..], frameSize);
    }
  }

  /** Whole messages pass no frame's room; nothing at all passes the window. */
  lemma {:induction false} FitsWhole(g: Gauge, owed: nat, q: seq<Item>, kept: bool)
    requires kept ==> q == []
    ensures Fits(g, kept, Idle, owed, WholeItems(q) + [Close])
    ensures Fits(g, kept, Idle, owed, WithoutEnd(WholeItems(q) + [Close]))
    decreases |q|
  {
    var es := WholeItems(q) + [Close];
    if q != [] {
      assert es[1..] == WholeItems(q[1..]) + [Close];
      FitsWhole(g, After(g, owed, es[0]), q[1..], false);
      assert es[0].End? ==> WithoutEnd(es) == WithoutEnd(es[1..]);
      assert !es[0].End? ==> WithoutEnd(es)[1..] == WithoutEnd(es[1..]);
    }
  }

  lemma {:induction false} FitsSkipsEnd(g: Gauge, kept: bool, run: Run, owed: nat, d: seq<Envelope>, e: seq<Envelope>)
    requires Fits(g, kept, run, owed, d + [End] + e)
    ensures Fits(g, kept, run, owed, d + e)
    decreases |d|
  {
    if d == [] {
      assert d + [End] + e == [End] + e && d + e == e;
      assert ([End] + e)[1..] == e;
    } else {
      assert (d + [End] + e)[1..] == d[1..] + [End] + e;
      assert (d + e)[1..] == d[1..] + e;
      if !d[0].Close? {
        FitsSkipsEnd(g, kept, NextRun(g, run, owed, d[0]), After(g, owed, d[0]), d[1..], e);
      }
    }
  }
}
