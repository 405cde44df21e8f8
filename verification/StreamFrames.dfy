/** The two framings over a libp2p stream, and the reader that keeps its bytes in one growing buffer. */
module StreamFrames {
  import opened Basics
  import opened Cutter
  import V = Varint

  // ----- typed frames: a type byte, a varint length, a payload -----

  datatype Typed = Typed(kind: byte, payload: Bytes)

  predicate Fits32(f: Typed) { |f.payload| < V.TWO_32 }

  function WriteFrame(f: Typed): Bytes {
    [f.kind] + V.EncodeVarint(|f.payload|) + f.payload
  }

  /** A length that does not decode yet, or ever, is waited for. */
  function NextFrame(b: Bytes): Cut<Typed> {
    if |b| < 2 then Wait
    else match V.DecodeVarint(b, 1)
      case Value(n, o) => if |b| < o + n || o + n < 1 then Wait else Frame(Typed(b[0], if o + n <= |b| && o <= o + n then b[o..o + n] else []), o + n)
      case _ => Wait
  }

  lemma FramesSound()
    ensures Sound(NextFrame)
  {
  }

  lemma FramesStable()
    ensures Stable(NextFrame)
  {
    forall b: Bytes, more: Bytes | !NextFrame(b).Wait? ensures NextFrame(b + more) == NextFrame(b) {
      V.DecodeStable(b, more, 1, 0, 0);
      var d := V.DecodeVarint(b, 1);
      assert (b + more)[d.offset..d.offset + d.value] == b[d.offset..d.offset + d.value];
    }
  }

  lemma FramesInvert()
    ensures Inverts(NextFrame, WriteFrame, Fits32)
  {
    forall f: Typed, rest: Bytes | Fits32(f)
      ensures NextFrame(WriteFrame(f) + rest) == Frame(f, |WriteFrame(f)|) && |WriteFrame(f)| >= 1
    {
      V.RoundTrip(|f.payload|, [f.kind], f.payload + rest);
      var b := WriteFrame(f) + rest;
      assert b == [f.kind] + V.EncodeVarint(|f.payload|) + (f.payload + rest);
      var o := 1 + |V.EncodeVarint(|f.payload|)|;
      assert b[o..o + |f.payload|] == f.payload;
    }
  }

  /** Frames with payloads below 4 GiB, however the stream splits them, come out as they went in. */
  lemma FramesRoundTrip(frames: seq<Typed>, chunks: seq<Bytes>)
    requires (forall f :: f in frames ==> Fits32(f)) && Flatten(chunks) == Written(WriteFrame, frames)
    ensures FeedAll(NextFrame, Drained([], [], false), chunks) == Drained(frames, [], false)
  {
    FramesSound();
    FramesStable();
    FramesInvert();
    SplitFramesRoundTrip(NextFrame, WriteFrame, Fits32, frames, chunks);
  }

  /** Over any bytes at all, how they are split changes nothing. */
  lemma FramesSplitFreely(chunks: seq<Bytes>)
    ensures Agree(FeedAll(NextFrame, Drained([], [], false), chunks), Drain(NextFrame, Flatten(chunks)))
  {
    FramesSound();
    FramesStable();
    ChunksDoNotMatter(NextFrame, [], chunks);
    assert [] + Flatten(chunks) == Flatten(chunks);
  }

  // ----- messages: a varint length and the message -----

  function WriteMessage(m: Bytes): Bytes {
    V.EncodeVarint(|m|) + m
  }

  function NextMessage(max: nat, b: Bytes): Cut<Bytes> {
    match V.ReadLength(b)
    case Incomplete => Wait
    case Malformed => Fail
    case Known(n, o) =>
      if n > max then Fail else if |b| < o + n || o + n < 1 || o > |b| then Wait else Frame(b[o..o + n], o + n)
  }

  function NextWithin(max: nat): Bytes -> Cut<Bytes> {
    b => NextMessage(max, b)
  }

  lemma MessagesStable(max: nat)
    ensures Sound(NextWithin(max)) && Stable(NextWithin(max)) && NextWithin(max)([]).Wait?
  {
    forall b: Bytes, more: Bytes | !NextMessage(max, b).Wait? ensures NextMessage(max, b + more) == NextMessage(max, b) {
      V.LengthOutcome(b);
      V.LengthOutcome(b + more);
      V.DecodeOutcome(b, 0, 0, 0);
      if !V.DecodeVarint(b, 0).Truncated? {
        V.DecodeStable(b, more, 0, 0, 0);
        if V.ReadLength(b).Known? && V.ReadLength(b).value <= max {
          var o, n := V.ReadLength(b).offset, V.ReadLength(b).value;
          assert (b + more)[o..o + n] == b[o..o + n];
        }
      }
    }
    forall b: Bytes | NextMessage(max, b).Frame? ensures 1 <= NextMessage(max, b).size <= |b| {}
  }

  lemma MessagesInvert(max: nat)
    requires max < V.TWO_32
    ensures Inverts(NextWithin(max), WriteMessage, m => |m| <= max)
  {
    forall m: Bytes, rest: Bytes | |m| <= max
      ensures NextMessage(max, WriteMessage(m) + rest) == Frame(m, |WriteMessage(m)|) && |WriteMessage(m)| >= 1
    {
      V.RoundTrip(|m|, [], m + rest);
      var b := WriteMessage(m) + rest;
      assert b == [] + V.EncodeVarint(|m|) + (m + rest);
      var o := |V.EncodeVarint(|m|)|;
      assert b[o..o + |m|] == m;
    }
  }

  /** Messages within the limit, however the stream splits them, come out as they went in. */
  lemma MessagesRoundTrip(max: nat, messages: seq<Bytes>, chunks: seq<Bytes>)
    requires max < V.TWO_32 && (forall m :: m in messages ==> |m| <= max)
    requires Flatten(chunks) == Written(WriteMessage, messages)
    ensures FeedAll(NextWithin(max), Drained([], [], false), chunks) == Drained(messages, [], false)
  {
    MessagesStable(max);
    MessagesInvert(max);
    SplitFramesRoundTrip(NextWithin(max), WriteMessage, (m: Bytes) => |m| <= max, messages, chunks);
  }

  /** What a reader will have given, and what it will hold, once it has cut what it can. */
  function ToCome(max: nat, delivered: seq<Bytes>, unread: Bytes): Drained<Bytes> {
    var d := Drain(NextWithin(max), unread);
    Drained(delivered + d.items, d.rest, d.failed)
  }

  lemma CutMessage(max: nat, delivered: seq<Bytes>, b: Bytes, size: nat, message: Bytes)
    requires size <= |b|
    requires Drain(NextWithin(max), b) == Drained([message] + Drain(NextWithin(max), b[size..]).items,
                                                  Drain(NextWithin(max), b[size..]).rest, Drain(NextWithin(max), b[size..]).failed)
    ensures ToCome(max, delivered, b) == ToCome(max, delivered + [message], b[size..])
  {
    var rest := Drain(NextWithin(max), b[size..]).items;
    assert delivered + ([message] + rest) == (delivered + [message]) + rest;
  }

  lemma SliceOfSlice(all: Bytes, s: nat, e: nat, i: nat, j: nat)
    requires s <= e <= |all| && i <= j <= e - s
    ensures all[s..e][i..j] == all[s + i..s + j] && all[s..e][j..] == all[s + j..e]
  {
    var whole := all[s..e];
    var a, b := whole[i..j], all[s + i..s + j];
    forall k | 0 <= k < j - i ensures a[k] == b[k] {
      assert a[k] == whole[i + k];
      assert whole[i + k] == all[s + (i + k)];
    }
    assert a == b;
  }

  /** What the reader does with the length at the front of its unread bytes. */
  lemma DrainStep(max: nat, b: Bytes)
    ensures var d := Drain(NextWithin(max), b);
            match V.ReadLength(b)
            case Incomplete => d == Drained([], b, false)
            case Malformed => d == Drained([], b, true)
            case Known(n, o) =>
              && 1 <= o <= |b|
              && if n > max then d == Drained([], b, true)
                 else if |b| < o + n then d == Drained([], b, false)
                 else d == Drained([b[o..o + n]] + Drain(NextWithin(max), b[o + n..]).items,
                                   Drain(NextWithin(max), b[o + n..]).rest, Drain(NextWithin(max), b[o + n..]).failed)
  {
    V.DecodeOutcome(b, 0, 0, 0);
    V.LengthOutcome(b);
  }

  /** ... and what that means for the bytes it keeps in its buffer. */
  lemma Front(max: nat, delivered: seq<Bytes>, all: Bytes, s: nat, e: nat)
    requires s <= e <= |all|
    ensures match V.ReadLength(all[s..e])
            case Incomplete => ToCome(max, delivered, all[s..e]) == Drained(delivered, all[s..e], false)
            case Malformed => ToCome(max, delivered, all[s..e]) == Drained(delivered, all[s..e], true)
            case Known(n, o) =>
              && 1 <= o
              && if n > max then ToCome(max, delivered, all[s..e]) == Drained(delivered, all[s..e], true)
                 else if e < s + o + n then ToCome(max, delivered, all[s..e]) == Drained(delivered, all[s..e], false)
                 else ToCome(max, delivered, all[s..e]) == ToCome(max, delivered + [all[s + o..s + o + n]], all[s + o + n..e])
  {
    hide Drain, V.ReadLength, NextWithin;
    var b := all[s..e];
    DrainStep(max, b);
    assert delivered + [] == delivered;
    match V.ReadLength(b)
    case Known(n, o) =>
      if n <= max && s + o + n <= e {
        SliceOfSlice(all, s, e, o, o + n);
        CutMessage(max, delivered, b, o + n, all[s + o..s + o + n]);
      }
    case _ =>
  }

  /**
   The read loop: unread bytes are `buf[start..end]`. The buffer grows by doubling,
   and only when the incoming bytes do not fit behind what is there.
   */
  class MessageReader {
    const max: nat
    var buf: array<byte>
    var start: nat
    var end: nat
    var delivered: seq<Bytes>
    var failed: bool

    ghost predicate Valid()
      reads this, buf
    {
      start <= end <= buf.Length
    }

    ghost function State(): Drained<Bytes>
      reads this, buf
      requires Valid()
    {
      Drained(delivered, buf[start..end], failed)
    }

    constructor (max: nat)
      ensures Valid() && fresh(buf) && this.max == max && State() == Drained([], [], false)
    {
      this.max := max;
      buf := new byte[0](_ => 0);
      start, end, delivered, failed := 0, 0, [], false;
    }

    /** Room behind the unread bytes, moving them to the front of a larger buffer if need be. */
    method MakeRoom(size: nat)
      requires Valid()
      modifies this`buf, this`start, this`end
      ensures Valid() && (buf == old(buf) || fresh(buf)) && end + size <= buf.Length
      ensures buf[start..end] == old(buf[start..end])
      ensures buf != old(buf) ==> start == 0 && buf.Length >= 2 * old(buf).Length
    {
      if end + size > buf.Length {
        var held := end - start;
        var next := new byte[Max(held + size, 2 * buf.Length)](_ => 0);
        forall i | 0 <= i < held { next[i] := buf[start + i]; }
        assert next[..held] == buf[start..end];
        buf := next;
        end := end - start;
        start := 0;
      }
    }

    static method CopyIn(a: array<byte>, at: nat, bytes: Bytes)
      requires at + |bytes| <= a.Length
      modifies a
      ensures a[at..at + |bytes|] == bytes
      ensures forall i :: 0 <= i < a.Length && !(at <= i < at + |bytes|) ==> a[i] == old(a[i])
    {
      forall i | 0 <= i < |bytes| { a[at + i] := bytes[i]; }
    }

    method Append(incoming: Bytes)
      requires Valid()
      modifies this`buf, this`start, this`end, buf
      ensures Valid() && (buf == old(buf) || fresh(buf))
      ensures buf[start..end] == old(buf[start..end]) + incoming
    {
      MakeRoom(|incoming|);
      ghost var held := buf[start..end];
      CopyIn(buf, end, incoming);
      assert buf[start..end] == held;
      assert buf[start..end + |incoming|] == buf[start..end] + buf[end..end + |incoming|];
      end := end + |incoming|;
    }

    /** One turn of the loop: a message is delivered, or the bytes wait, or they are no message. */
    method CutOne() returns (more: bool)
      requires Valid() && !failed
      modifies this`start, this`delivered, this`failed
      ensures Valid()
      ensures more ==>
                !failed && end - start < old(end - start) && ToCome(max, delivered, buf[start..end]) == old(ToCome(max, delivered, buf[start..end]))
      ensures !more ==> old(ToCome(max, delivered, buf[start..end])) == State()
    {
      var header := V.ReadLength(buf[start..end]);
      ghost var all := buf[..];
      assert buf[start..end] == all[start..end];
      Front(max, delivered, all, start, end);
      hide ToCome, V.ReadLength;
      if header.Incomplete? { return false; }
      if header.Malformed? || header.value > max {
        failed := true;
        return false;
      }
      var from := start + header.offset;
      var stop := from + header.value;
      if end < stop { return false; }
      delivered := delivered + [buf[from..stop]];
      start := stop;
      assert buf[start..end] == all[start..end];
      return true;
    }

    /** A chunk arrives: every whole message is delivered, and the rest kept. */
    method Receive(incoming: Bytes)
      requires Valid()
      modifies this, buf
      ensures Valid() && (buf == old(buf) || fresh(buf))
      ensures State() == Feed(NextWithin(max), old(State()), incoming)
    {
      if failed { return; }
      ghost var fed := Feed(NextWithin(max), State(), incoming);
      Append(incoming);
      hide Drain, NextWithin;
      var more := true;
      while more
        invariant Valid() && (buf == old(buf) || fresh(buf))
        invariant if more then !failed && ToCome(max, delivered, buf[start..end]) == fed else State() == fed
        decreases more, end - start
      {
        hide ToCome;
        more := CutOne();
      }
    }
  }
}
