/** What the chunks decide: exactly which messages are read alike however their bytes arrive. */
module HttpArrivals {
  import opened Basics
  import opened HttpBytes
  import opened HttpText
  import opened HttpFraming
  import opened HttpChunked
  import opened HttpCodec

  // ----- when what is needed is buffered already -----

  /** The bytes not pulled yet. */
  function Far(f: Feed): nat { |Flatten(f.source)| }

  /** A line that is all there is read, however long, and nothing more is pulled. */
  lemma NearLine(f: Feed, max: int)
    requires !NextLine(AllOf(f), max).BadLine? && |NextLine(AllOf(f), max).rest| >= Far(f)
    ensures var r := LineOf(f, max);
            r.result == Got(NextLine(AllOf(f), max).text) && r.next.source == f.source && AllOf(r.next) == NextLine(AllOf(f), max).rest
  {
    var b := AllOf(f);
    FirstLfAppend(f.buffer, Flatten(f.source));
    var i := FirstLf(b);
    assert FirstLf(f.buffer) == i;
    assert b[..i - 1] == f.buffer[..i - 1];
    assert b[i + 1..] == f.buffer[i + 1..] + Flatten(f.source);
  }

  lemma NearTaken(f: Feed, n: nat)
    requires n <= |f.buffer|
    ensures Taken(f, n) == Some(Feed(f.buffer[n..], f.source))
  {
    assert f.buffer[0..] == f.buffer;
  }

  lemma {:induction false} TrailersRest(b: Bytes, max: int, used: int)
    ensures Trailers(b, max, used).Some? ==> |Trailers(b, max, used).value| <= |b|
    decreases |b|
  {
    LineIsPart(b, max - used);
    hide NextLine;
    match NextLine(b, max - used)
    case Line(text, rest) => if text != [] { TrailersRest(rest, max, used + |text| + 2); }
    case _ =>
  }

  lemma {:induction false} NearSkipped(f: Feed, max: int, used: int)
    requires Trailers(AllOf(f), max, used).Some? && |Trailers(AllOf(f), max, used).value| >= Far(f)
    ensures var s := Skipped(f, max, used);
            s.Some? && s.value.source == f.source && AllOf(s.value) == Trailers(AllOf(f), max, used).value
    decreases |AllOf(f)|
  {
    hide NextLine, LineOf, AllOf;
    var line := NextLine(AllOf(f), max - used);
    LineIsPart(AllOf(f), max - used);
    assert line.Line?;
    if line.text != [] { TrailersRest(line.rest, max, used + |line.text| + 2); }
    NearLine(f, max - used);
    GotLine(f, max - used);
    var next := LineOf(f, max - used).next;
    assert Far(next) == Far(f);
    hide Far;
    if line.text != [] { NearSkipped(next, max, used + |line.text| + 2); }
  }

  lemma NearData(f: Feed, size: nat)
    requires DataOf(AllOf(f), size).Some? && |DataOf(AllOf(f), size).value| >= Far(f)
    ensures Taken(f, size).Some?
    ensures var end := LineOf(Taken(f, size).value, 2);
            end.result == Got([]) && end.next.source == f.source && AllOf(end.next) == DataOf(AllOf(f), size).value
  {
    assert size <= |f.buffer|;
    NearTaken(f, size);
    var g := Feed(f.buffer[size..], f.source);
    assert AllOf(g) == AllOf(f)[size..];
    NearLine(g, 2);
    hide NextLine, LineOf;
  }

  /** A whole turn succeeds, size line past the bound or not. */
  lemma NearTook(f: Feed, max: int)
    requires var t := TurnOf(AllOf(f), max); !t.Stop? && |t.rest| >= Far(f)
    ensures var t, u := TurnOf(AllOf(f), max), TookOf(f, max);
            && u.ok && u.next.source == f.source && AllOf(u.next) == t.rest && u.more == t.Data?
            && u.data == (if t.Data? then t.data else [])
  {
    var line := NextLine(AllOf(f), max);
    var size := SizeOf(FromBytes(line.text)).value;
    if size == 0 { TrailersRest(line.rest, max, 0); }
    NearLine(f, max);
    var next := LineOf(f, max).next;
    hide NextLine, LineOf, AllOf, SizeOf;
    if size == 0 {
      NearSkipped(next, max, 0);
    } else {
      NearData(next, size);
      TakenAll(next, size);
    }
    hide Trailers, Skipped, DataOf, Taken;
  }

  lemma {:induction false} ChunksRest(b: Bytes, max: int)
    ensures ReadChunks(b, max).Whole? ==> |ReadChunks(b, max).rest| <= |b|
    decreases |b|
  {
    TurnRest(b, max);
    hide TurnOf;
    match TurnOf(b, max)
    case Data(_, rest, _) => ChunksRest(rest, max);
    case _ =>
  }

  lemma TurnRest(b: Bytes, max: int)
    ensures !TurnOf(b, max).Stop? ==> |TurnOf(b, max).rest| <= |b|
  {
    var line := NextLine(b, max);
    if !line.BadLine? {
      LineIsPart(b, max);
      TrailersRest(line.rest, max, 0);
    }
    hide NextLine, Trailers;
  }

  lemma {:induction false} NearChunks(f: Feed, max: int)
    requires ReadChunks(AllOf(f), max).Whole? && |ReadChunks(AllOf(f), max).rest| >= Far(f)
    ensures var d, r := ReadChunks(AllOf(f), max), ChunksOf(f, max);
            r.ok && r.out == d.body && r.next.source == f.source && AllOf(r.next) == d.rest
    decreases |AllOf(f)|
  {
    hide TurnOf, TookOf, AllOf;
    var t := TurnOf(AllOf(f), max);
    if t.Data? { ChunksRest(t.rest, max); }
    NearTook(f, max);
    if t.Data? { NearChunks(TookOf(f, max).next, max); }
  }

  /** A body in the buffer is drained well exactly when nothing else is in the buffer behind it. */
  lemma NearDrain(f: Feed, framing: Framing, max: int, untilEnd: bool)
    requires ReadBody(AllOf(f), framing, max, untilEnd).Whole? && |ReadBody(AllOf(f), framing, max, untilEnd).rest| >= Far(f)
    ensures DrainOf(f, framing, max, untilEnd).ok <==> |ReadBody(AllOf(f), framing, max, untilEnd).rest| == Far(f)
  {
    match framing
    case Chunked =>
      NearChunks(f, max);
      hide ReadChunks, ChunksOf;
    case Sized(n) => NearTaken(f, n);
    case Bare =>
  }

  // ----- when every byte arrives alone -----

  function Each(b: Bytes): (parts: seq<Bytes>)
    ensures |parts| == |b|
  {
    seq(|b|, i requires 0 <= i < |b| => [b[i]])
  }

  lemma {:induction false} EachFlat(b: Bytes)
    ensures Flatten(Each(b)) == b
  {
    if b != [] {
      assert Each(b)[1..] == Each(b[1..]);
      EachFlat(b[1..]);
    }
  }

  function Slow(b: Bytes): Feed { Feed([], Each(b)) }

  lemma SlowAll(b: Bytes)
    ensures AllOf(Slow(b)) == b
  {
    EachFlat(b);
  }

  /** Byte by byte, a line past the bound is refused, and any other leaves the buffer empty. */
  lemma {:induction false} SlowLineFrom(x: Bytes, y: Bytes, max: int)
    requires LF !in x
    ensures var r := LineOf(Feed(x, Each(y)), max);
            match NextLine(x + y, max)
            case Line(text, rest) => r == LineRead(Got(text), Slow(rest))
            case Loose(_, _) => r.result == TooLong
            case BadLine => true
    decreases |y|
  {
    FirstLfNone(x);
    FirstLfAppend(x, y);
    if |x| <= max && y != [] {
      assert Pulled(Feed(x, Each(y))) == Feed(x + [y[0]], Each(y[1..])) by { assert Each(y)[1..] == Each(y[1..]); }
      assert x + y == (x + [y[0]]) + y[1..];
      if y[0] != LF {
        SlowLineFrom(x + [y[0]], y[1..], max);
      } else {
        LastByte(x, y, max);
      }
    }
  }

  lemma LastByte(x: Bytes, y: Bytes, max: int)
    requires LF !in x && y != [] && y[0] == LF && |x| <= max
    ensures var r := LineOf(Feed(x + [LF], Each(y[1..])), max);
            match NextLine(x + y, max)
            case Line(text, rest) => r == LineRead(Got(text), Slow(rest))
            case Loose(_, _) => false
            case BadLine => true
  {
    FirstLfNone(x);
    FirstLfAppend(x, y);
    FirstLfAppend(x, [LF]);
    var z := x + [LF];
    assert z[|x| + 1..] == [];
    if |x| > 0 {
      assert z[..|x| - 1] == (x + y)[..|x| - 1];
      assert (x + y)[|x| + 1..] == y[1..];
    }
  }

  lemma SlowLine(b: Bytes, max: int)
    ensures var r := LineOf(Slow(b), max);
            match NextLine(b, max)
            case Line(text, rest) => r == LineRead(Got(text), Slow(rest))
            case Loose(_, _) => r.result == TooLong
            case BadLine => !r.result.Got?
  {
    assert [] + b == b;
    SlowLineFrom([], b, max);
    SlowAll(b);
    LineOfAll(Slow(b), max);
  }

  lemma {:induction false} SlowTaken(b: Bytes, n: nat)
    requires n <= |b|
    ensures Taken(Slow(b), n) == Some(Slow(b[n..]))
  {
    if n == 0 {
      assert b[0..] == b;
    } else {
      assert Each(b)[1..] == Each(b[1..]);
      assert Pulled(Slow(b)) == Feed([b[0]], Each(b[1..]));
      SlowTaken(b[1..], n - 1);
      assert b[1..][n - 1..] == b[n..];
      if n == 1 { assert [b[0]][1..] == []; }
    }
  }

  lemma {:induction false} SlowSkipped(b: Bytes, max: int, used: int)
    requires Trailers(b, max, used).Some?
    ensures Skipped(Slow(b), max, used) == Some(Slow(Trailers(b, max, used).value))
    decreases |b|
  {
    LineIsPart(b, max - used);
    SlowLine(b, max - used);
    GotLine(Slow(b), max - used);
    hide NextLine, LineOf, Slow, AllOf;
    match NextLine(b, max - used)
    case Line(text, rest) => if text != [] { SlowSkipped(rest, max, used + |text| + 2); }
    case _ =>
  }

  /** Byte by byte, a turn succeeds exactly when its size line is within the bound. */
  lemma SlowTook(b: Bytes, max: int)
    requires !TurnOf(b, max).Stop?
    ensures var t, u := TurnOf(b, max), TookOf(Slow(b), max);
            u.ok == t.sure && (u.ok ==> u.more == t.Data? && u.next == Slow(t.rest))
  {
    var line := NextLine(b, max);
    var size := SizeOf(FromBytes(line.text)).value;
    SlowLine(b, max);
    hide NextLine, LineOf, SizeOf;
    if line.Line? {
      SlowAll(line.rest);
      if size == 0 {
        SlowSkipped(line.rest, max, 0);
      } else {
        SlowTaken(line.rest, size);
        SlowLine(line.rest[size..], 2);
      }
    }
    hide Slow, AllOf, Skipped, Trailers, Taken;
  }

  lemma {:induction false} SlowChunks(b: Bytes, max: int)
    requires ReadChunks(b, max).Whole?
    ensures var d, r := ReadChunks(b, max), ChunksOf(Slow(b), max);
            r.ok == d.sure && (r.ok ==> r.next == Slow(d.rest))
    decreases |b|
  {
    SlowTook(b, max);
    hide TurnOf, TookOf, Slow;
    var t := TurnOf(b, max);
    if t.Data? { SlowChunks(t.rest, max); }
  }

  // ----- bodies -----

  /** Every chunking has the same outcome: a failure, or success with each size line in bounds and nothing behind. */
  predicate Settled(d: Drained) {
    match d case Broken => true case Whole(_, rest, sure) => sure && rest == []
  }

  /** Two arrivals of a body that is not settled, one read well and one refused. */
  lemma BodyDiffers(b: Bytes, framing: Framing, max: int, untilEnd: bool) returns (f: Feed, g: Feed)
    requires !Settled(ReadBody(b, framing, max, untilEnd))
    ensures AllOf(f) == AllOf(g) == b
    ensures DrainOf(f, framing, max, untilEnd).ok && !DrainOf(g, framing, max, untilEnd).ok
  {
    hide ReadChunks, ChunksOf, Taken, Each;
    var d := ReadBody(b, framing, max, untilEnd);
    BodyRest(b, framing, max, untilEnd);
    var front := b[..|b| - |d.rest|];
    f := Feed(front, [d.rest]);
    RestLast(b, framing, max, untilEnd);
    assert Flatten([d.rest]) == d.rest by { assert [d.rest][1..] == []; assert d.rest + [] == d.rest; }
    NearDrain(f, framing, max, untilEnd);
    if d.rest != [] {
      g := Feed(b, []);
      assert AllOf(g) == b + [] == b;
      NearDrain(g, framing, max, untilEnd);
    } else {
      g := Slow(b);
      SlowAll(b);
      SlowDrain(b, framing, max, untilEnd);
    }
  }

  /** Byte by byte, a chunked body with a size line past the bound is refused. */
  lemma SlowDrain(b: Bytes, framing: Framing, max: int, untilEnd: bool)
    requires ReadBody(b, framing, max, untilEnd).Whole? && !ReadBody(b, framing, max, untilEnd).sure
    ensures !DrainOf(Slow(b), framing, max, untilEnd).ok
  {
    BodyRest(b, framing, max, untilEnd);
    SlowChunks(b, max);
    hide ReadChunks, ChunksOf, Slow;
  }

  lemma BodyRest(b: Bytes, framing: Framing, max: int, untilEnd: bool)
    ensures var d := ReadBody(b, framing, max, untilEnd); d.Whole? ==> |d.rest| <= |b|
    ensures var d := ReadBody(b, framing, max, untilEnd); d.Whole? && !d.sure ==> framing.Chunked?
  {
    if framing.Chunked? { ChunksRest(b, max); }
    hide ReadChunks;
  }

  /** What is left of bytes read from the front. */
  predicate EndOf(b: Bytes, s: Bytes) {
    |s| <= |b| && b[|b| - |s|..] == s
  }

  lemma EndOfEnd(b: Bytes, r: Bytes, s: Bytes)
    requires EndOf(b, r) && EndOf(r, s)
    ensures EndOf(b, s)
  {
  }

  /** What is left of the bytes is their end. */
  lemma RestLast(b: Bytes, framing: Framing, max: int, untilEnd: bool)
    requires ReadBody(b, framing, max, untilEnd).Whole?
    ensures var rest := ReadBody(b, framing, max, untilEnd).rest; |rest| <= |b| && b[..|b| - |rest|] + rest == b
  {
    BodyRest(b, framing, max, untilEnd);
    if framing.Chunked? { ChunksSuffix(b, max); }
    hide ReadChunks;
  }

  lemma {:induction false} ChunksSuffix(b: Bytes, max: int)
    requires ReadChunks(b, max).Whole?
    ensures EndOf(b, ReadChunks(b, max).rest)
    decreases |b|
  {
    TurnSuffix(b, max);
    hide TurnOf, EndOf;
    var t := TurnOf(b, max);
    if t.Data? {
      ChunksSuffix(t.rest, max);
      EndOfEnd(b, t.rest, ReadChunks(b, max).rest);
    }
  }

  lemma TurnSuffix(b: Bytes, max: int)
    requires !TurnOf(b, max).Stop?
    ensures EndOf(b, TurnOf(b, max).rest)
  {
    var line := NextLine(b, max);
    LineSuffix(b, max);
    var size := SizeOf(FromBytes(line.text)).value;
    if size == 0 {
      TrailersSuffix(line.rest, max, 0);
    } else {
      LineSuffix(line.rest[size..], 2);
    }
    hide NextLine, Trailers;
  }

  lemma LineSuffix(b: Bytes, max: int)
    requires !NextLine(b, max).BadLine?
    ensures EndOf(b, NextLine(b, max).rest)
  {
  }

  lemma {:induction false} TrailersSuffix(b: Bytes, max: int, used: int)
    requires Trailers(b, max, used).Some?
    ensures EndOf(b, Trailers(b, max, used).value)
    decreases |b|
  {
    hide NextLine;
    LineIsPart(b, max - used);
    LineSuffix(b, max - used);
    var line := NextLine(b, max - used);
    if line.text != [] {
      TrailersSuffix(line.rest, max, used + |line.text| + 2);
      EndOfEnd(b, line.rest, Trailers(b, max, used).value);
    }
  }

  /** The outcome of a body is the same for every arrival of its bytes exactly when it is settled. */
  lemma BodyOutcome(b: Bytes, framing: Framing, max: int, untilEnd: bool)
    ensures (forall f, g :: AllOf(f) == b && AllOf(g) == b ==>
               DrainOf(f, framing, max, untilEnd).ok == DrainOf(g, framing, max, untilEnd).ok)
            <==> Settled(ReadBody(b, framing, max, untilEnd))
  {
    if Settled(ReadBody(b, framing, max, untilEnd)) {
      forall f, g | AllOf(f) == b && AllOf(g) == b
        ensures DrainOf(f, framing, max, untilEnd).ok == DrainOf(g, framing, max, untilEnd).ok
      {
        DrainAll(f, framing, max, untilEnd);
        DrainAll(g, framing, max, untilEnd);
        hide DrainOf, ReadBody;
      }
    } else {
      var f, g := BodyDiffers(b, framing, max, untilEnd);
    }
  }

  /** A chunk of size zero whose extension alone is past the bound. */
  function LongSizeLine(max: nat): Bytes {
    [48, 59] + seq(max, i => 120) + [CR, LF] + [CR, LF]
  }

  /** For every bound there is a chunked body that is read from one arrival and refused from another. */
  lemma LongLineDiffers(max: nat) returns (f: Feed, g: Feed)
    requires max >= 2
    ensures AllOf(f) == AllOf(g) == LongSizeLine(max)
    ensures DrainOf(f, Chunked, max, false) == Drain([], true) && !DrainOf(g, Chunked, max, false).ok
  {
    LongIsWhole(max);
    hide LongSizeLine, ReadChunks;
    f, g := BodyDiffers(LongSizeLine(max), Chunked, max, false);
    DrainAll(f, Chunked, max, false);
    hide DrainOf;
  }

  lemma LongIsWhole(max: nat)
    requires max >= 2
    ensures ReadChunks(LongSizeLine(max), max) == Whole([], [], false)
  {
    var line: Bytes := [48, 59] + seq(max, i => 120);
    LongLine(line, max);
    LastTrailer(max);
    LongIsZero(line);
    hide NextLine, SizeOf, Trailers;
  }

  lemma LongLine(line: Bytes, max: nat)
    requires LF !in line && |line| > max
    ensures NextLine(line + [CR, LF] + [CR, LF], max) == Loose(line, [CR, LF])
  {
    LineBack(line, [CR, LF], |line| + 1);
  }

  lemma LastTrailer(max: nat)
    requires max >= 2
    ensures Trailers([CR, LF], max, 0) == Some([])
  {
    assert [CR, LF] == [] + [CR, LF] + [];
    LineBack([], [], max);
  }

  lemma LongIsZero(line: Bytes)
    requires |line| >= 2 && line[0] == 48 && line[1] == 59
    ensures SizeOf(FromBytes(line)) == Some(0)
  {
    var s := FromBytes(line);
    assert s[..1] == ToHex(0) == "0";
    assert s == s[..1] + [';'] + s[2..];
    IndexOfAt(s[..1], ';', s[2..]);
    HexBack(0);
  }

  // ----- whole messages -----

  lemma {:induction false} HeadersRest(b: Bytes, max: int, used: int)
    requires ReadHeaders(b, max, used).Parsed?
    ensures EndOf(b, ReadHeaders(b, max, used).rest)
    decreases |b|
  {
    hide NextLine, ParseHeader;
    LineIsPart(b, max - used);
    LineSuffix(b, max - used);
    var line := NextLine(b, max - used);
    if line.text != [] {
      HeadersRest(line.rest, max, used + |line.text| + 2);
      EndOfEnd(b, line.rest, ReadHeaders(b, max, used).rest);
    }
  }

  lemma {:induction false} NearSection(f: Feed, max: int, used: int)
    requires ReadHeaders(AllOf(f), max, used).Parsed? && |ReadHeaders(AllOf(f), max, used).rest| >= Far(f)
    ensures SectionOf(f, max, used).Section? && SectionOf(f, max, used).next.source == f.source
    decreases |AllOf(f)|
  {
    hide NextLine, LineOf, AllOf, ParseHeader;
    var line := NextLine(AllOf(f), max - used);
    LineIsPart(AllOf(f), max - used);
    assert line.Line?;
    if line.text != [] { HeadersRest(line.rest, max, used + |line.text| + 2); }
    NearLine(f, max - used);
    GotLine(f, max - used);
    var next := LineOf(f, max - used).next;
    assert Far(next) == Far(f);
    hide Far;
    if line.text != [] { NearSection(next, max, used + |line.text| + 2); }
  }

  lemma NearOpening(f: Feed, max: int)
    requires ReadTop(AllOf(f), max).Top? && |ReadTop(AllOf(f), max).rest| >= Far(f)
    ensures OpeningOf(f, max).Opening? && OpeningOf(f, max).next.source == f.source
  {
    hide NextLine, LineOf, AllOf, ReadHeaders, SectionOf;
    var line := NextLine(AllOf(f), max);
    HeadersRest(line.rest, max, |line.text| + 2);
    NearLine(f, max);
    NearSection(LineOf(f, max).next, max, |line.text| + 2);
  }

  lemma {:induction false} SlowSection(b: Bytes, max: int, used: int)
    requires ReadHeaders(b, max, used).Parsed?
    ensures SectionOf(Slow(b), max, used).Section? && SectionOf(Slow(b), max, used).next == Slow(ReadHeaders(b, max, used).rest)
    decreases |b|
  {
    hide NextLine, LineOf, ParseHeader, Slow, AllOf;
    LineIsPart(b, max - used);
    SlowLine(b, max - used);
    GotLine(Slow(b), max - used);
    match NextLine(b, max - used)
    case Line(text, rest) => if text != [] { SlowSection(rest, max, used + |text| + 2); }
    case _ =>
  }

  lemma SlowOpening(b: Bytes, max: int)
    requires ReadTop(b, max).Top?
    ensures OpeningOf(Slow(b), max).Opening? && OpeningOf(Slow(b), max).next == Slow(ReadTop(b, max).rest)
  {
    hide NextLine, LineOf, Slow, ReadHeaders, SectionOf;
    SlowLine(b, max);
    var line := NextLine(b, max);
    SlowSection(line.rest, max, |line.text| + 2);
  }

  lemma LinePulled(x: Bytes, tail: seq<Bytes>, max: int)
    requires max >= 0
    ensures LineOf(Feed([], [x] + tail), max) == LineOf(Feed(x, tail), max)
  {
    assert Pulled(Feed([], [x] + tail)) == Feed(x, tail) by { assert ([x] + tail)[1..] == tail && [] + x == x; }
  }

  /** A message whose first chunk is pulled before anything is looked at. */
  lemma FirstChunk(x: Bytes, tail: seq<Bytes>, max: int)
    requires max >= 0
    ensures OpeningOf(Feed([], [x] + tail), max) == OpeningOf(Feed(x, tail), max)
  {
    LinePulled(x, tail, max);
    hide LineOf, SectionOf;
  }

  lemma TopBound(b: Bytes, max: int)
    requires ReadTop(b, max).Top?
    ensures max >= 0
    ensures EndOf(b, ReadTop(b, max).rest)
  {
    LineBound(b, max);
    hide ReadHeaders, NextLine, EndOf;
    LineSuffix(b, max);
    var line := NextLine(b, max);
    HeadersRest(line.rest, max, |line.text| + 2);
    EndOfEnd(b, line.rest, ReadTop(b, max).rest);
  }

  lemma LineBound(b: Bytes, max: int)
    ensures NextLine(b, max).Line? ==> max >= 0
  {
  }

  /** The two arrivals: what is behind in a chunk of its own, and either all at once or byte by byte. */
  function Apart(b: Bytes, rest: nat): seq<Bytes>
    requires rest <= |b|
  {
    [b[..|b| - rest], b[|b| - rest..]]
  }

  function Together(b: Bytes, rest: nat): seq<Bytes> {
    if rest > 0 then [b] else Each(b)
  }

  lemma ArrivalsFlat(b: Bytes, rest: nat)
    requires rest <= |b|
    ensures Flatten(Apart(b, rest)) == b && Flatten(Together(b, rest)) == b
    ensures Flatten([b[|b| - rest..]]) == b[|b| - rest..]
  {
    EachFlat(b);
    FlattenOne(b);
    FlattenOne(b[|b| - rest..]);
    assert Apart(b, rest)[1..] == [b[|b| - rest..]];
  }

  lemma FlattenOne(x: Bytes)
    ensures Flatten([x]) == x
  {
    assert [x][1..] == [];
    assert x + [] == x;
  }

  /** With the head there and the body's bytes behind it, the two arrivals part in the body, if it is not settled. */
  lemma ArrivalsPart(b: Bytes, max: int, framing: Framing, untilEnd: bool)
    requires ReadTop(b, max).Top?
    requires var d := ReadBody(ReadTop(b, max).rest, framing, max, untilEnd); !Settled(d)
    ensures var d := ReadBody(ReadTop(b, max).rest, framing, max, untilEnd);
            && |d.rest| <= |b|
            && var x, y := OpeningOf(Feed([], Apart(b, |d.rest|)), max), OpeningOf(Feed([], Together(b, |d.rest|)), max);
            x.Opening? && y.Opening? && DrainOf(x.next, framing, max, untilEnd).ok && !DrainOf(y.next, framing, max, untilEnd).ok
  {
    var body := ReadTop(b, max).rest;
    var d := ReadBody(body, framing, max, untilEnd);
    TopBound(b, max);
    BodyRest(body, framing, max, untilEnd);
    PartApart(b, max, framing, untilEnd);
    if d.rest != [] {
      PartWhole(b, max, framing, untilEnd);
    } else {
      SlowOpening(b, max);
      SlowDrain(body, framing, max, untilEnd);
      hide OpeningOf, ReadTop, ReadChunks, ChunksOf, Each;
    }
  }

  lemma PartApart(b: Bytes, max: int, framing: Framing, untilEnd: bool)
    requires ReadTop(b, max).Top? && ReadBody(ReadTop(b, max).rest, framing, max, untilEnd).Whole?
    ensures var d := ReadBody(ReadTop(b, max).rest, framing, max, untilEnd);
            && |d.rest| <= |b|
            && var x := OpeningOf(Feed([], Apart(b, |d.rest|)), max);
            x.Opening? && DrainOf(x.next, framing, max, untilEnd).ok
  {
    var body := ReadTop(b, max).rest;
    var d := ReadBody(body, framing, max, untilEnd);
    TopBound(b, max);
    BodyRest(body, framing, max, untilEnd);
    var n := |b| - |d.rest|;
    var f := Feed(b[..n], [b[n..]]);
    FirstChunk(b[..n], [b[n..]], max);
    ArrivalsFlat(b, |d.rest|);
    assert AllOf(f) == b;
    assert [b[..n]] + [b[n..]] == Apart(b, |d.rest|);
    hide OpeningOf, ReadTop, ReadBody, DrainOf, AllOf, Flatten;
    assert Far(f) == |d.rest|;
    PartNear(f, max, framing, untilEnd);
  }

  /** A message in the buffer, all but what is behind it. */
  lemma PartNear(f: Feed, max: int, framing: Framing, untilEnd: bool)
    requires ReadTop(AllOf(f), max).Top? && ReadBody(ReadTop(AllOf(f), max).rest, framing, max, untilEnd).Whole?
    requires |ReadBody(ReadTop(AllOf(f), max).rest, framing, max, untilEnd).rest| >= Far(f)
    ensures var o := OpeningOf(f, max);
            && o.Opening?
            && (DrainOf(o.next, framing, max, untilEnd).ok <==>
                  |ReadBody(ReadTop(AllOf(f), max).rest, framing, max, untilEnd).rest| == Far(f))
  {
    BodyRest(ReadTop(AllOf(f), max).rest, framing, max, untilEnd);
    hide OpeningOf, ReadTop, ReadBody, DrainOf, AllOf;
    NearOpening(f, max);
    OpeningAll(f, max);
    var next := OpeningOf(f, max).next;
    assert Far(next) == Far(f);
    NearDrain(next, framing, max, untilEnd);
  }

  lemma PartWhole(b: Bytes, max: int, framing: Framing, untilEnd: bool)
    requires ReadTop(b, max).Top? && ReadBody(ReadTop(b, max).rest, framing, max, untilEnd).Whole?
    requires ReadBody(ReadTop(b, max).rest, framing, max, untilEnd).rest != []
    ensures var y := OpeningOf(Feed([], [b]), max); y.Opening? && !DrainOf(y.next, framing, max, untilEnd).ok
  {
    TopBound(b, max);
    var f := Feed(b, []);
    FirstChunk(b, [], max);
    assert [b] + [] == [b];
    assert AllOf(f) == b + [] == b && Far(f) == 0;
    hide OpeningOf, ReadTop, ReadBody, DrainOf, AllOf;
    PartNear(f, max, framing, untilEnd);
  }

  /** A request is decoded to the same outcome from every chunking exactly when it is refused anyway or settled. */
  lemma RequestOutcome(b: Bytes, opts: Options, urlOk: string -> bool)
    ensures (forall x: seq<Bytes>, y: seq<Bytes> :: Flatten(x) == b && Flatten(y) == b ==>
               RequestOf(Feed([], x), opts, urlOk).body.ok == RequestOf(Feed([], y), opts, urlOk).body.ok)
            <==> (ReadRequest(b, opts, urlOk).Incoming? ==> Settled(ReadRequest(b, opts, urlOk).body))
  {
    hide RequestOf, ReadRequest;
    var i := ReadRequest(b, opts, urlOk);
    if i.Incoming? && !Settled(i.body) {
      RequestParts(b, opts, urlOk);
    } else {
      forall x: seq<Bytes>, y: seq<Bytes> | Flatten(x) == b && Flatten(y) == b
        ensures RequestOf(Feed([], x), opts, urlOk).body.ok == RequestOf(Feed([], y), opts, urlOk).body.ok
      {
        assert AllOf(Feed([], x)) == b && AllOf(Feed([], y)) == b;
        RequestAll(Feed([], x), opts, urlOk);
        RequestAll(Feed([], y), opts, urlOk);
        hide Flatten;
      }
    }
  }

  lemma RequestParts(b: Bytes, opts: Options, urlOk: string -> bool)
    requires ReadRequest(b, opts, urlOk).Incoming? && !Settled(ReadRequest(b, opts, urlOk).body)
    ensures var n := |ReadRequest(b, opts, urlOk).body.rest|;
            && n <= |b| && Flatten(Apart(b, n)) == b && Flatten(Together(b, n)) == b
            && RequestOf(Feed([], Apart(b, n)), opts, urlOk).body.ok && !RequestOf(Feed([], Together(b, n)), opts, urlOk).body.ok
  {
    var max := opts.maxHeaderBytes;
    var top := ReadTop(b, max);
    var (e, framing) := RequestFramed(top.line, top.headers, opts, urlOk).value;
    ArrivalsPart(b, max, framing, false);
    var n := |ReadRequest(b, opts, urlOk).body.rest|;
    ArrivalsFlat(b, n);
    hide OpeningOf, ReadTop, ReadBody, DrainOf, RequestFramed, Apart, Together, Flatten;
    assert AllOf(Feed([], Apart(b, n))) == b && AllOf(Feed([], Together(b, n))) == b;
    OpeningAll(Feed([], Apart(b, n)), max);
    OpeningAll(Feed([], Together(b, n)), max);
  }

  /** So is a response. */
  lemma ResponseOutcome(b: Bytes, opts: Options, verb: string)
    ensures (forall x: seq<Bytes>, y: seq<Bytes> :: Flatten(x) == b && Flatten(y) == b ==>
               ResponseOf(Feed([], x), opts, verb).body.ok == ResponseOf(Feed([], y), opts, verb).body.ok)
            <==> (ReadResponse(b, opts, verb).Incoming? ==> Settled(ReadResponse(b, opts, verb).body))
  {
    hide ResponseOf, ReadResponse;
    var i := ReadResponse(b, opts, verb);
    if i.Incoming? && !Settled(i.body) {
      ResponseParts(b, opts, verb);
    } else {
      forall x: seq<Bytes>, y: seq<Bytes> | Flatten(x) == b && Flatten(y) == b
        ensures ResponseOf(Feed([], x), opts, verb).body.ok == ResponseOf(Feed([], y), opts, verb).body.ok
      {
        assert AllOf(Feed([], x)) == b && AllOf(Feed([], y)) == b;
        ResponseAll(Feed([], x), opts, verb);
        ResponseAll(Feed([], y), opts, verb);
        hide Flatten;
      }
    }
  }

  lemma ResponseParts(b: Bytes, opts: Options, verb: string)
    requires ReadResponse(b, opts, verb).Incoming? && !Settled(ReadResponse(b, opts, verb).body)
    ensures var n := |ReadResponse(b, opts, verb).body.rest|;
            && n <= |b| && Flatten(Apart(b, n)) == b && Flatten(Together(b, n)) == b
            && ResponseOf(Feed([], Apart(b, n)), opts, verb).body.ok && !ResponseOf(Feed([], Together(b, n)), opts, verb).body.ok
  {
    var max := opts.maxHeaderBytes;
    var top := ReadTop(b, max);
    var (e, framing) := ResponseFramed(top.line, top.headers, verb).value;
    ArrivalsPart(b, max, framing, !Bodyless(e, verb));
    var n := |ReadResponse(b, opts, verb).body.rest|;
    ArrivalsFlat(b, n);
    hide OpeningOf, ReadTop, ReadBody, DrainOf, ResponseFramed, Apart, Together, Flatten, Bodyless;
    assert AllOf(Feed([], Apart(b, n))) == b && AllOf(Feed([], Together(b, n))) == b;
    OpeningAll(Feed([], Apart(b, n)), max);
    OpeningAll(Feed([], Together(b, n)), max);
  }
}
