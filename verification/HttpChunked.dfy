/** The chunked transfer coding of section 7.1 of RFC 9112: hexadecimal sizes, data, trailers. */
module HttpChunked {
  import opened Basics
  import opened HttpBytes
  import opened HttpText

  const MAX_SAFE: int := 0x1F_FFFF_FFFF_FFFF

  // ----- hexadecimal sizes -----

  predicate HexDigit(c: char) { Digit(c) || 'a' <= c <= 'f' || 'A' <= c <= 'F' }

  function DigitValue(c: char): (d: nat)
    requires HexDigit(c)
    ensures d < 16
  {
    if Digit(c) then c as int - '0' as int
    else if 'a' <= c <= 'f' then c as int - 'a' as int + 10
    else c as int - 'A' as int + 10
  }

  predicate AllHex(s: string) { forall i :: 0 <= i < |s| ==> HexDigit(s[i]) }

  /** `parseInt(s, 16)`, before rounding. */
  function HexValue(s: string): nat
    requires AllHex(s)
  {
    if s == [] then 0 else HexValue(s[..|s| - 1]) * 16 + DigitValue(s[|s| - 1])
  }

  function HexChar(d: nat): (c: char)
    requires d < 16
    ensures HexDigit(c) && DigitValue(c) == d && c != ';'
  {
    if d < 10 then ('0' as int + d) as char else ('a' as int + d - 10) as char
  }

  /** `n.toString(16)`. */
  function ToHex(n: nat): string {
    if n < 16 then [HexChar(n)] else ToHex(n / 16) + [HexChar(n % 16)]
  }

  function Sixteens(k: nat): nat { if k == 0 then 1 else 16 * Sixteens(k - 1) }

  /** A size written in hexadecimal is read as that size. */
  lemma {:induction false} HexBack(n: nat)
    ensures AllHex(ToHex(n)) && HexValue(ToHex(n)) == n && ToHex(n) != [] && ';' !in ToHex(n)
  {
    if n >= 16 {
      HexBack(n / 16);
      assert ToHex(n)[..|ToHex(n)| - 1] == ToHex(n / 16);
    } else {
      assert ToHex(n)[..0] == [];
    }
  }

  lemma {:induction false} HexLength(n: nat, k: nat)
    requires 1 <= k && n < Sixteens(k)
    ensures |ToHex(n)| <= k
  {
    if n >= 16 { HexLength(n / 16, k - 1); }
  }

  lemma SafeHex(n: nat)
    requires n <= MAX_SAFE
    ensures 1 <= |ToHex(n)| <= 14
  {
    assert Sixteens(7) == 0x1000_0000;
    assert Sixteens(14) == 0x100_0000_0000_0000;
    HexLength(n, 14);
  }

  /** The size a chunk's first line announces; an extension behind `;` is ignored. */
  function SizeOf(line: string): Option<nat> {
    var text := line[..IndexOf(line, ';')];
    if 1 <= |text| <= 32 && AllHex(text) && HexValue(text) <= MAX_SAFE then Some(HexValue(text)) else None
  }

  lemma SizeBack(n: nat)
    requires n <= MAX_SAFE
    ensures SizeOf(ToHex(n)) == Some(n)
  {
    HexBack(n);
    SafeHex(n);
    var at := IndexOf(ToHex(n), ';');
    assert ToHex(n)[..at] == ToHex(n);
  }

  // ----- writing -----

  function SizeLine(n: nat): (b: Bytes)
    ensures LF !in b && |b| == |ToHex(n)|
  {
    HexBack(n);
    ToBytes(ToHex(n))
  }

  /** A chunk on the wire; an empty one is skipped, since a zero size ends the body. */
  function OneChunk(chunk: Bytes): Bytes {
    if chunk == [] then [] else SizeLine(|chunk|) + [CR, LF] + chunk + [CR, LF]
  }

  const LAST_CHUNK: Bytes := [48, CR, LF, CR, LF]

  function ChunkedBytes(body: seq<Bytes>): Bytes {
    if body == [] then LAST_CHUNK else OneChunk(body[0]) + ChunkedBytes(body[1..])
  }

  method EncodeChunked(body: seq<Bytes>) returns (out: seq<Bytes>)
    ensures Flatten(out) == ChunkedBytes(body)
  {
    out := [];
    for i := 0 to |body|
      invariant Flatten(out) + ChunkedBytes(body[i..]) == ChunkedBytes(body)
    {
      var chunk := body[i];
      ghost var before := out;
      if chunk != [] {
        HexBack(|chunk|);
        out := out + [ToBytes(ToHex(|chunk|)) + [CR, LF], chunk, [CR, LF]];
      }
      ChunkAppended(before, out, chunk, ChunkedBytes(body[i + 1..]));
      assert body[i..][1..] == body[i + 1..];
    }
    FlattenSnoc(out, LAST_CHUNK);
    assert body[|body|..] == [];
    out := out + [LAST_CHUNK];
  }

  lemma ChunkAppended(before: seq<Bytes>, out: seq<Bytes>, chunk: Bytes, rest: Bytes)
    requires chunk == [] ==> out == before
    requires chunk != [] ==> out == before + [SizeLine(|chunk|) + [CR, LF], chunk, [CR, LF]]
    ensures Flatten(out) + rest == Flatten(before) + (OneChunk(chunk) + rest)
  {
    if chunk == [] {
      assert [] + rest == rest;
    } else {
      var head := SizeLine(|chunk|) + [CR, LF];
      FlattenSnoc(before, head);
      FlattenSnoc(before + [head], chunk);
      FlattenSnoc(before + [head] + [chunk], [CR, LF]);
      assert out == before + [head] + [chunk] + [[CR, LF]];
      assert Flatten(out) == Flatten(before) + head + chunk + [CR, LF];
      Regrouped(Flatten(before), head, chunk, rest);
    }
  }

  lemma Regrouped(f: Bytes, head: Bytes, chunk: Bytes, rest: Bytes)
    ensures f + head + chunk + [CR, LF] + rest == f + (head + chunk + [CR, LF] + rest)
  {
  }

  // ----- reading -----

  /** Reading a body out of the bytes to come. `sure`: every chunking of them is read to the end. */
  datatype Drained = Broken | Whole(body: Bytes, rest: Bytes, sure: bool)

  /** What is behind the trailer section, which one bound covers. */
  function Trailers(b: Bytes, max: int, used: int): Option<Bytes>
    decreases |b|
  {
    if max - used <= 0 then None
    else match NextLine(b, max - used)
      case BadLine => None
      case Loose(_, _) => None
      case Line(text, rest) =>
        if used + |text| + 2 > max then None
        else if text == [] then Some(rest)
        else Trailers(rest, max, used + |text| + 2)
  }

  function Before(body: Bytes, sure: bool, d: Drained): Drained {
    match d
    case Broken => Broken
    case Whole(more, rest, later) => Whole(body + more, rest, sure && later)
  }

  /** What is behind a chunk's data and the CRLF that ends it. */
  function DataOf(b: Bytes, size: nat): (r: Option<Bytes>)
    ensures r.Some? ==> |b| == size + 2 + |r.value|
  {
    if |b| < size then None
    else
      var end := NextLine(b[size..], 2);
      if end.Line? && end.text == [] then Some(end.rest) else None
  }

  /** One turn of the reading loop: a refusal, the end of the body, or the data of one chunk. */
  datatype Turn = Stop | Last(rest: Bytes, sure: bool) | Data(data: Bytes, rest: Bytes, sure: bool)

  function TurnOf(b: Bytes, max: int): (t: Turn)
    ensures t.Data? ==> |t.rest| < |b|
  {
    var line := NextLine(b, max);
    if line.BadLine? then Stop
    else
      LineIsPart(b, max);
      match SizeOf(FromBytes(line.text))
      case None => Stop
      case Some(size) =>
        if size == 0 then
          match Trailers(line.rest, max, 0)
          case None => Stop
          case Some(rest) => Last(rest, line.Line?)
        else match DataOf(line.rest, size)
          case None => Stop
          case Some(rest) => Data(line.rest[..size], rest, line.Line?)
  }

  function ReadChunks(b: Bytes, max: int): Drained
    decreases |b|
  {
    match TurnOf(b, max)
    case Stop => Broken
    case Last(rest, sure) => Whole([], rest, sure)
    case Data(data, rest, sure) => Before(data, sure, ReadChunks(rest, max))
  }

  // ----- reading as the chunks are pulled -----

  function Skipped(f: Feed, max: int, used: int): Option<Feed>
    decreases |AllOf(f)|
  {
    var r := LineOf(f, max - used);
    GotLine(f, max - used);
    if max - used <= 0 || !r.result.Got? || used + |r.result.line| + 2 > max then None
    else if r.result.line == [] then Some(r.next)
    else Skipped(r.next, max, used + |r.result.line| + 2)
  }

  /** One turn of the loop: the data it yields, whether more follows, and where it leaves the reader. */
  datatype Took = Took(data: Bytes, more: bool, ok: bool, next: Feed)

  function TookOf(f: Feed, max: int): (t: Took)
    ensures t.ok && t.more ==> |AllOf(t.next)| < |AllOf(f)|
  {
    var line := LineOf(f, max);
    GotLine(f, max);
    if !line.result.Got? then Took([], false, false, f)
    else match SizeOf(FromBytes(line.result.line))
      case None => Took([], false, false, f)
      case Some(size) =>
        if size == 0 then
          match Skipped(line.next, max, 0)
          case None => Took([], false, false, f)
          case Some(next) => Took([], false, true, next)
        else
          TakenAll(line.next, size);
          match Taken(line.next, size)
          case None => Took(AllOf(line.next), true, false, f)
          case Some(behind) =>
            var end := LineOf(behind, 2);
            GotLine(behind, 2);
            Took(AllOf(line.next)[..size], true, end.result == Got([]), if end.result == Got([]) then end.next else f)
  }

  /** Reading a body to its end or its failure: what was yielded, and where the reader stands. */
  datatype Run = Run(ok: bool, out: Bytes, next: Feed)

  function ChunksOf(f: Feed, max: int): Run
    decreases |AllOf(f)|
  {
    var t := TookOf(f, max);
    if !t.ok then Run(false, t.data, f)
    else if !t.more then Run(true, [], t.next)
    else After(t.data, ChunksOf(t.next, max))
  }

  function After(data: Bytes, r: Run): Run { r.(out := data + r.out) }

  /** Reads `n` bytes in whatever pieces arrive. */
  method ReadExactly(reader: ByteReader, n: nat) returns (out: seq<Bytes>, ok: bool)
    requires reader.Valid()
    modifies reader
    ensures reader.Valid() && old(reader.All()) == Flatten(out) + reader.All()
    ensures ok <==> |old(reader.All())| >= n
    ensures ok ==> |Flatten(out)| == n && Taken(old(reader.State()), n) == Some(reader.State())
    ensures !ok ==> reader.All() == []
  {
    hide AllOf;
    var remaining: nat := n;
    out := [];
    ghost var all, f := reader.All(), reader.State();
    assert [] + all == all;
    while remaining > 0
      invariant reader.Valid() && Flatten(out) + reader.All() == all && |Flatten(out)| + remaining == n
      invariant Taken(f, n) == Taken(reader.State(), remaining)
      decreases remaining
    {
      var part := reader.ReadSome(remaining);
      if part.None? {
        assert Flatten(out) + [] == Flatten(out);
        return out, false;
      }
      FlattenSnoc(out, part.value);
      assert Flatten(out) + (part.value + reader.All()) == Flatten(out) + part.value + reader.All();
      out := out + [part.value];
      remaining := remaining - |part.value|;
    }
    ok := true;
  }

  method SkipTrailers(reader: ByteReader, max: int) returns (ok: bool)
    requires reader.Valid()
    modifies reader
    ensures reader.Valid()
    ensures match Skipped(old(reader.State()), max, 0)
            case None => !ok
            case Some(next) => ok && reader.State() == next
  {
    hide LineOf, AllOf;
    var used := 0;
    ghost var whole := Skipped(reader.State(), max, 0);
    while true
      invariant reader.Valid() && Skipped(reader.State(), max, used) == whole
      decreases |AllOf(reader.State())|
    {
      if max - used <= 0 { return false; }
      GotLine(reader.State(), max - used);
      var got := reader.ReadLine(max - used);
      if !got.Got? { return false; }
      used := used + |got.line| + 2;
      if used > max { return false; }
      if got.line == [] { return true; }
    }
  }

  method TakeTurn(reader: ByteReader, max: int) returns (parts: seq<Bytes>, more: bool, ok: bool)
    requires reader.Valid()
    modifies reader
    ensures reader.Valid()
    ensures var t := TookOf(old(reader.State()), max);
            ok == t.ok && Flatten(parts) == t.data && (ok ==> more == t.more && reader.State() == t.next)
  {
    hide LineOf, Flatten, SizeOf, Skipped, Taken;
    FlattenNothing();
    parts, more, ok := [], false, false;
    var got := reader.ReadLine(max);
    if !got.Got? { return; }
    match SizeOf(FromBytes(got.line)) {
      case None => return;
      case Some(size) =>
        if size == 0 {
          ok := SkipTrailers(reader, max);
        } else {
          more := true;
          parts, ok := TakeData(reader, size);
        }
    }
  }

  method TakeData(reader: ByteReader, size: nat) returns (parts: seq<Bytes>, ok: bool)
    requires reader.Valid()
    modifies reader
    ensures reader.Valid()
    ensures match Taken(old(reader.State()), size)
            case None => !ok && Flatten(parts) == old(reader.All())
            case Some(behind) =>
              var end := LineOf(behind, 2);
              && size <= |old(reader.All())| && Flatten(parts) == old(reader.All())[..size] && ok == (end.result == Got([]))
              && (ok ==> reader.State() == end.next)
  {
    hide Flatten, LineOf, Taken;
    ghost var b := reader.All();
    TakenAll(reader.State(), size);
    parts, ok := ReadExactly(reader, size);
    if ok {
      assert b[..size] == Flatten(parts);
      var end := reader.ReadLine(2);
      ok := end == Got([]);
    } else {
      assert Flatten(parts) + [] == Flatten(parts);
    }
  }

  /** The loop yields exactly that, and leaves the reader there. */
  method DecodeChunked(reader: ByteReader, max: int) returns (out: seq<Bytes>, ok: bool)
    requires reader.Valid()
    modifies reader
    ensures reader.Valid()
    ensures var r := ChunksOf(old(reader.State()), max);
            ok == r.ok && Flatten(out) == r.out && (ok ==> reader.State() == r.next)
  {
    hide TookOf, Flatten;
    out := [];
    ghost var whole := ChunksOf(reader.State(), max);
    FlattenNothing();
    assert [] + whole.out == whole.out;
    while true
      invariant reader.Valid() && whole == After(Flatten(out), ChunksOf(reader.State(), max))
      decreases |AllOf(reader.State())|
    {
      ghost var t, f := TookOf(reader.State(), max), reader.State();
      var parts, more, fine := TakeTurn(reader, max);
      FlattenAppend(out, parts);
      if !fine { return out + parts, false; }
      if !more {
        assert Flatten(out) + [] == Flatten(out);
        return out, true;
      }
      AfterTwice(Flatten(out), Flatten(parts), ChunksOf(reader.State(), max));
      out := out + parts;
    }
  }

  lemma AfterTwice(x: Bytes, y: Bytes, r: Run)
    ensures After(x, After(y, r)) == After(x + y, r)
  {
    assert x + (y + r.out) == (x + y) + r.out;
  }

  lemma FlattenNothing()
    ensures Flatten<byte>([]) == []
  {
  }

  // ----- what does not depend on the chunks -----

  lemma {:induction false} SkippedAll(f: Feed, max: int, used: int)
    ensures match Trailers(AllOf(f), max, used)
            case None => Skipped(f, max, used) == None
            case Some(rest) => Skipped(f, max, used).Some? && AllOf(Skipped(f, max, used).value) == rest
    decreases |AllOf(f)|
  {
    hide NextLine, AllOf, LineOf;
    if max - used > 0 {
      LineOfAll(f, max - used);
      LineIsPart(AllOf(f), max - used);
      GotLine(f, max - used);
      var r := LineOf(f, max - used);
      if r.result.Got? && r.result.line != [] && used + |r.result.line| + 2 <= max {
        SkippedAll(r.next, max, used + |r.result.line| + 2);
      }
    }
  }

  /** A turn reads what all the bytes make of it, unless its size line is past the bound. */
  lemma TookAll(f: Feed, max: int)
    ensures var t := TookOf(f, max);
            match TurnOf(AllOf(f), max)
            case Stop => !t.ok
            case Last(rest, sure) => (sure ==> t.ok) && (t.ok ==> !t.more && AllOf(t.next) == rest)
            case Data(data, rest, sure) => (sure ==> t.ok) && (t.ok ==> t.more && t.data == data && AllOf(t.next) == rest)
  {
    LineOfAll(f, max);
    var line := LineOf(f, max);
    if line.result.Got? {
      match SizeOf(FromBytes(line.result.line))
      case None =>
      case Some(size) =>
        SkippedAll(line.next, max, 0);
        TakenAll(line.next, size);
        if Taken(line.next, size).Some? { DataAll(line.next, size); }
    }
    hide NextLine, LineOf, AllOf, Skipped, Taken, Trailers, SizeOf;
  }

  lemma DataAll(f: Feed, size: nat)
    requires Taken(f, size).Some?
    ensures var end := LineOf(Taken(f, size).value, 2);
            match DataOf(AllOf(f), size)
            case None => end.result != Got([])
            case Some(rest) => end.result == Got([]) && AllOf(end.next) == rest
  {
    TakenAll(f, size);
    LineOfAll(Taken(f, size).value, 2);
    LineIsPart(AllOf(f)[size..], 2);
    hide LineOf, Taken, NextLine, AllOf;
  }

  predicate Fulfils(d: Drained, r: Run) {
    match d
    case Broken => !r.ok
    case Whole(body, rest, sure) => (sure ==> r.ok) && (r.ok ==> r.out == body && AllOf(r.next) == rest)
  }

  /** So does the loop. */
  lemma {:induction false} ChunksAll(f: Feed, max: int)
    ensures Fulfils(ReadChunks(AllOf(f), max), ChunksOf(f, max))
    decreases |AllOf(f)|
  {
    hide TookOf, TurnOf, AllOf;
    TookAll(f, max);
    var t := TookOf(f, max);
    if t.ok && t.more { ChunksAll(t.next, max); }
  }

  // ----- round trip -----

  lemma LastBack(rest: Bytes, max: int)
    requires max >= 2
    ensures ReadChunks(LAST_CHUNK + rest, max) == Whole([], rest, true)
  {
    assert LAST_CHUNK + rest == [48] + [CR, LF] + ([CR, LF] + rest);
    LineBack([48], [CR, LF] + rest, max);
    assert FromBytes([48]) == "0" == ToHex(0);
    SizeBack(0);
    assert [CR, LF] + rest == [] + [CR, LF] + rest;
    LineBack([], rest, max);
  }

  lemma DataBack(chunk: Bytes, rest: Bytes)
    ensures DataOf(chunk + [CR, LF] + rest, |chunk|) == Some(rest)
  {
    var b := chunk + [CR, LF] + rest;
    assert b[|chunk|..] == [] + [CR, LF] + rest;
    LineBack([], rest, 2);
  }

  lemma SizeLineBack(n: nat, rest: Bytes, max: int)
    requires n <= MAX_SAFE && max >= 15
    ensures NextLine(SizeLine(n) + [CR, LF] + rest, max) == Line(SizeLine(n), rest)
    ensures SizeOf(FromBytes(SizeLine(n))) == Some(n)
  {
    SafeHex(n);
    SizeBack(n);
    HexBack(n);
    TextBack(ToHex(n));
    LineBack(SizeLine(n), rest, max);
  }

  lemma ChunkBack(chunk: Bytes, rest: Bytes, max: int)
    requires chunk != [] && |chunk| <= MAX_SAFE && max >= 15
    ensures ReadChunks(OneChunk(chunk) + rest, max) == Before(chunk, true, ReadChunks(rest, max))
  {
    hide NextLine, SizeOf, DataOf, SizeLine, Trailers;
    var data := chunk + [CR, LF] + rest;
    assert OneChunk(chunk) + rest == SizeLine(|chunk|) + [CR, LF] + data;
    SizeLineBack(|chunk|, data, max);
    DataBack(chunk, rest);
    assert data[..|chunk|] == chunk;
  }

  predicate SafeSizes(body: seq<Bytes>) { forall i :: 0 <= i < |body| ==> |body[i]| <= MAX_SAFE }

  /** A chunked body is read back whole, whatever its chunks were and however it arrives. */
  lemma {:induction false} ChunkedBack(body: seq<Bytes>, rest: Bytes, max: int)
    requires SafeSizes(body) && max >= 15
    ensures ReadChunks(ChunkedBytes(body) + rest, max) == Whole(Flatten(body), rest, true)
  {
    hide ReadChunks, OneChunk;
    if body == [] {
      LastBack(rest, max);
    } else {
      ChunkedBack(body[1..], rest, max);
      var more := ChunkedBytes(body[1..]) + rest;
      assert ChunkedBytes(body) + rest == OneChunk(body[0]) + more;
      if body[0] != [] {
        ChunkBack(body[0], more, max);
      } else {
        EmptyChunk(more);
        assert Flatten(body) == Flatten(body[1..]);
      }
    }
  }

  lemma EmptyChunk(more: Bytes)
    ensures OneChunk([]) + more == more
  {
  }
}
