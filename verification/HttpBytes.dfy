/** The pull reader over a byte source, and what each of its reads means for the bytes to come. */
module HttpBytes {
  import opened Basics

  const CR: byte := 13
  const LF: byte := 10

  /** Where the first LF stands, or the length if there is none. */
  function FirstLf(b: Bytes): (i: nat)
    ensures i <= |b|
    ensures i < |b| ==> b[i] == LF
    ensures LF !in b[..i]
  {
    if b == [] || b[0] == LF then 0 else 1 + FirstLf(b[1..])
  }

  /** `Loose`: the line is over the bound, and only chunking decides whether it is read. */
  datatype Line = Line(text: Bytes, rest: Bytes) | BadLine | Loose(text: Bytes, rest: Bytes)

  /** One CRLF-terminated line of the bytes to come, under a bound. */
  function NextLine(b: Bytes, max: int): Line {
    var i := FirstLf(b);
    if i == |b| || i == 0 || b[i - 1] != CR then BadLine
    else if i > max then Loose(b[..i - 1], b[i + 1..])
    else Line(b[..i - 1], b[i + 1..])
  }

  lemma {:induction false} FirstLfAppend(b: Bytes, more: Bytes)
    ensures FirstLf(b) < |b| ==> FirstLf(b + more) == FirstLf(b)
    ensures FirstLf(b) == |b| ==> FirstLf(b + more) == |b| + FirstLf(more)
  {
    if b == [] {
      assert b + more == more;
    } else if b[0] != LF {
      assert (b + more)[1..] == b[1..] + more;
      FirstLfAppend(b[1..], more);
    }
  }

  lemma {:induction false} FirstLfNone(b: Bytes)
    requires LF !in b
    ensures FirstLf(b) == |b|
  {
    if b != [] { FirstLfNone(b[1..]); }
  }

  /** A line without LF, written with its CRLF, is the next line. */
  lemma LineBack(line: Bytes, rest: Bytes, max: int)
    requires LF !in line && |line| + 1 <= max
    ensures NextLine(line + [CR, LF] + rest, max) == Line(line, rest)
  {
    var b := line + [CR, LF] + rest;
    FirstLfNone(line + [CR]);
    FirstLfAppend(line + [CR], [LF] + rest);
    assert b == (line + [CR]) + ([LF] + rest);
    assert b[..|line|] == line && b[|line| + 2..] == rest;
  }

  /** Searching on from where earlier bytes held no LF finds the same one. */
  lemma FirstLfFrom(b: Bytes, searched: nat)
    requires searched <= |b| && LF !in b[..searched]
    ensures FirstLf(b) == searched + FirstLf(b[searched..])
  {
    assert b == b[..searched] + b[searched..];
    FirstLfNone(b[..searched]);
    FirstLfAppend(b[..searched], b[searched..]);
  }

  // ----- reading from chunks as they are pulled -----

  /** `buffer`: pulled and not consumed. `source`: the chunks not pulled yet. */
  datatype Feed = Feed(buffer: Bytes, source: seq<Bytes>)

  function AllOf(f: Feed): Bytes { f.buffer + Flatten(f.source) }

  /** One more chunk in the buffer. */
  function Pulled(f: Feed): Feed
    requires f.source != []
  {
    Feed(f.buffer + f.source[0], f.source[1..])
  }

  lemma PulledAll(f: Feed)
    requires f.source != []
    ensures AllOf(Pulled(f)) == AllOf(f)
  {
    assert f.buffer + (f.source[0] + Flatten(f.source[1..])) == (f.buffer + f.source[0]) + Flatten(f.source[1..]);
  }

  datatype ReadLineResult = Got(line: Bytes) | BareLf | TooLong | Ended

  datatype LineRead = LineRead(result: ReadLineResult, next: Feed)

  /** `readLine`: the bound is tested on what is buffered each time no LF is there. */
  function LineOf(f: Feed, max: int): LineRead
    decreases |f.source|
  {
    var i := FirstLf(f.buffer);
    if i < |f.buffer| then
      if i == 0 || f.buffer[i - 1] != CR then LineRead(BareLf, f)
      else LineRead(Got(f.buffer[..i - 1]), Feed(f.buffer[i + 1..], f.source))
    else if |f.buffer| > max then LineRead(TooLong, f)
    else if f.source == [] then LineRead(Ended, f)
    else LineOf(Pulled(f), max)
  }

  /** The bytes buffered once `n` more chunks are pulled. */
  function Prefix(f: Feed, n: nat): Bytes
    requires n <= |f.source|
  {
    f.buffer + Flatten(f.source[..n])
  }

  lemma PrefixPulled(f: Feed, n: nat)
    requires 1 <= n <= |f.source|
    ensures Prefix(f, n) == Prefix(Pulled(f), n - 1)
  {
    assert f.source[..n][0] == f.source[0] && f.source[..n][1..] == f.source[1..][..n - 1];
    var rest := Flatten(f.source[1..][..n - 1]);
    assert f.buffer + (f.source[0] + rest) == (f.buffer + f.source[0]) + rest;
  }

  /** A line is refused as too long exactly when some buffer of it, LF not yet in it, is longer than the bound. */
  lemma {:induction false} TooLongExactly(f: Feed, max: int)
    ensures LineOf(f, max).result.TooLong? <==>
              exists n :: 0 <= n <= |f.source| && LF !in Prefix(f, n) && |Prefix(f, n)| > max
    decreases |f.source|
  {
    var i := FirstLf(f.buffer);
    assert Prefix(f, 0) == f.buffer + [] == f.buffer;
    if i < |f.buffer| {
      forall n | 0 <= n <= |f.source| ensures LF in Prefix(f, n) { assert Prefix(f, n)[i] == LF; }
    } else if |f.buffer| <= max {
      if f.source != [] {
        TooLongExactly(Pulled(f), max);
        LaterPrefix(f, max);
      }
    } else {
      assert f.buffer[..i] == f.buffer;
    }
  }

  lemma LaterPrefix(f: Feed, max: int)
    requires f.source != [] && |f.buffer| <= max
    ensures (exists n :: 0 <= n <= |f.source| && LF !in Prefix(f, n) && |Prefix(f, n)| > max) <==>
              exists n :: 0 <= n <= |Pulled(f).source| && LF !in Prefix(Pulled(f), n) && |Prefix(Pulled(f), n)| > max
  {
    assert Prefix(f, 0) == f.buffer;
    forall n | 1 <= n <= |f.source| ensures Prefix(f, n) == Prefix(Pulled(f), n - 1) { PrefixPulled(f, n); }
    hide Prefix;
    if n :| 0 <= n <= |Pulled(f).source| && LF !in Prefix(Pulled(f), n) && |Prefix(Pulled(f), n)| > max {
      assert Prefix(f, n + 1) == Prefix(Pulled(f), n);
    }
  }

  /** Whatever the chunks: the next line of all the bytes, unless it is past the bound. */
  lemma {:induction false} LineOfAll(f: Feed, max: int)
    ensures var r := LineOf(f, max);
            match NextLine(AllOf(f), max)
            case Line(l, rest) => r.result == Got(l) && AllOf(r.next) == rest
            case BadLine => !r.result.Got?
            case Loose(l, rest) => r.result == TooLong || (r.result == Got(l) && AllOf(r.next) == rest)
    decreases |f.source|
  {
    var i := FirstLf(f.buffer);
    FirstLfAppend(f.buffer, Flatten(f.source));
    var all := AllOf(f);
    if i < |f.buffer| {
      if i > 0 {
        assert all[..i - 1] == f.buffer[..i - 1];
        assert all[i + 1..] == f.buffer[i + 1..] + Flatten(f.source);
      }
    } else if |f.buffer| <= max && f.source != [] {
      PulledAll(f);
      LineOfAll(Pulled(f), max);
    }
  }

  /** The reader behind `n` bytes, however many chunks they came in; `None` if there are fewer. */
  function Taken(f: Feed, n: nat): Option<Feed>
    decreases n, |f.source|
  {
    if n == 0 then Some(f)
    else if f.buffer == [] then if f.source == [] then None else Taken(Pulled(f), n)
    else if n <= |f.buffer| then Some(Feed(f.buffer[n..], f.source))
    else Taken(Feed([], f.source), n - |f.buffer|)
  }

  lemma {:induction false} TakenAll(f: Feed, n: nat)
    ensures Taken(f, n).Some? <==> n <= |AllOf(f)|
    ensures Taken(f, n).Some? ==> AllOf(Taken(f, n).value) == AllOf(f)[n..]
    decreases n, |f.source|
  {
    if n > 0 {
      if f.buffer == [] {
        if f.source != [] {
          PulledAll(f);
          TakenAll(Pulled(f), n);
        }
      } else if n <= |f.buffer| {
        assert AllOf(f)[n..] == f.buffer[n..] + Flatten(f.source);
      } else {
        TakenAll(Feed([], f.source), n - |f.buffer|);
        assert AllOf(Feed([], f.source)) == Flatten(f.source);
        if n <= |AllOf(f)| { assert AllOf(f)[n..] == Flatten(f.source)[n - |f.buffer|..]; }
      }
    }
  }

  /** What `#pull` leaves: one more chunk that is not empty. */
  function Next(f: Feed): Option<Feed>
    decreases |f.source|
  {
    if f.source == [] then None else if f.source[0] == [] then Next(Pulled(f)) else Some(Pulled(f))
  }

  /** Pulling is what the line waited for. */
  lemma {:induction false} NextLineOf(f: Feed, max: int)
    requires FirstLf(f.buffer) == |f.buffer| <= max
    ensures match Next(f)
            case None => LineOf(f, max).result == Ended
            case Some(g) => LineOf(f, max) == LineOf(g, max)
    decreases |f.source|
  {
    if f.source != [] && f.source[0] == [] {
      assert f.buffer + [] == f.buffer;
      NextLineOf(Pulled(f), max);
    }
  }

  lemma {:induction false} NextTaken(f: Feed, n: nat)
    requires f.buffer == [] && n > 0
    ensures match Next(f)
            case None => Taken(f, n) == None
            case Some(g) => Taken(f, n) == Taken(g, n)
    decreases |f.source|
  {
    if f.source != [] && f.source[0] == [] {
      NextTaken(Pulled(f), n);
    }
  }

  lemma {:induction false} NextAll(f: Feed)
    ensures match Next(f)
            case None => AllOf(f) == f.buffer
            case Some(g) => AllOf(g) == AllOf(f) && |g.buffer| > |f.buffer| && |g.source| < |f.source|
    decreases |f.source|
  {
    if f.source != [] {
      PulledAll(f);
      if f.source[0] == [] {
        assert f.buffer + [] == f.buffer;
        NextAll(Pulled(f));
      }
    }
  }

  lemma {:induction false} NextKeeps(f: Feed)
    ensures Next(f).Some? ==> |Next(f).value.buffer| >= |f.buffer| && Next(f).value.buffer[..|f.buffer|] == f.buffer
    decreases |f.source|
  {
    if f.source != [] && f.source[0] == [] {
      assert f.buffer + [] == f.buffer;
      NextKeeps(Pulled(f));
    }
  }

  class ByteReader {
    var buffer: Bytes
    var source: seq<Bytes>
    var done: bool

    function State(): Feed
      reads this
    {
      Feed(buffer, source)
    }

    /** All the bytes to come. */
    function All(): Bytes
      reads this
    {
      AllOf(State())
    }

    predicate Valid()
      reads this
    {
      done ==> source == []
    }

    constructor (input: seq<Bytes>)
      ensures Valid() && State() == Feed([], input) && All() == Flatten(input)
    {
      buffer, source, done := [], input, false;
      new;
      assert [] + Flatten(input) == Flatten(input);
    }

    function BufferedLength(): nat
      reads this
    {
      |buffer|
    }

    /** One more chunk that is not empty; `false` at the end. */
    method Pull() returns (more: bool)
      requires Valid()
      modifies this
      ensures Valid()
      ensures match Next(old(State()))
              case None => !more && buffer == old(buffer) && source == []
              case Some(g) => more && State() == g
    {
      if done { return false; }
      while source != []
        invariant Valid() && !done && buffer == old(buffer) && Next(State()) == Next(old(State()))
        decreases |source|
      {
        var chunk := source[0];
        assert buffer + [] == buffer;
        source := source[1..];
        if chunk != [] {
          buffer := buffer + chunk;
          return true;
        }
      }
      done := true;
      return false;
    }

    /** Up to `max` bytes, never none while there are any; `None` at the end. */
    method ReadSome(max: nat) returns (r: Option<Bytes>)
      requires Valid() && max >= 1
      modifies this
      ensures Valid()
      ensures r.None? <==> old(All()) == []
      ensures r.None? ==> All() == [] && Taken(old(State()), max) == None
      ensures r.Some? ==>
                && 1 <= |r.value| <= max && old(All()) == r.value + All()
                && Taken(old(State()), max) == Taken(State(), max - |r.value|)
    {
      ghost var f := State();
      while buffer == []
        invariant Valid() && All() == old(All()) && Taken(State(), max) == Taken(f, max)
        decreases |source|
      {
        NextAll(State());
        NextTaken(State(), max);
        var more := Pull();
        if !more { return None; }
      }
      var take := Min(max, |buffer|);
      var out := buffer[..take];
      assert out + (buffer[take..] + Flatten(source)) == buffer + Flatten(source);
      if max > |buffer| { assert buffer[take..] == []; }
      buffer := buffer[take..];
      return Some(out);
    }

    /** One line; its bound is tested only while the line is not all there. */
    method ReadLine(max: int) returns (r: ReadLineResult)
      requires Valid()
      modifies this
      ensures Valid()
      ensures r == LineOf(old(State()), max).result && (r.Got? ==> State() == LineOf(old(State()), max).next)
    {
      hide Flatten, Next;
      var searched: nat := 0;
      ghost var f := State();
      while true
        invariant Valid() && LineOf(State(), max) == LineOf(f, max) && searched <= |buffer| && LF !in buffer[..searched]
        decreases |source|, |buffer| - searched
      {
        FirstLfFrom(buffer, searched);
        var idx := searched + FirstLf(buffer[searched..]);
        if idx < |buffer| {
          if idx == 0 || buffer[idx - 1] != CR { return BareLf; }
          var line := buffer[..idx - 1];
          buffer := buffer[idx + 1..];
          return Got(line);
        }
        searched := |buffer|;
        if searched > max { return TooLong; }
        NextLineOf(State(), max);
        NextAll(State());
        NextKeeps(State());
        var more := Pull();
        if !more { return Ended; }
      }
    }

    /** Everything not yet consumed. */
    method Rest() returns (out: seq<Bytes>)
      requires Valid()
      modifies this
      ensures Valid() && Flatten(out) == old(All()) && All() == []
    {
      out := [];
      ghost var all := All();
      assert Flatten([]) + all == all;
      while true
        invariant Valid() && Flatten(out) + All() == all
        decreases |source|, |buffer|
      {
        if buffer != [] {
          FlattenSnoc(out, buffer);
          assert Flatten(out) + (buffer + Flatten(source)) == (Flatten(out) + buffer) + Flatten(source);
          assert [] + Flatten(source) == Flatten(source);
          out := out + [buffer];
          buffer := [];
        } else {
          NextAll(State());
          var more := Pull();
          if !more { break; }
        }
      }
      assert Flatten(out) + [] == Flatten(out);
    }
  }
}
