/** Cutting frames off a byte stream that arrives in pieces. */
module Cutter {
  import opened Basics

  /** What a parser sees at the front of what it holds. */
  datatype Cut<T> = Wait | Frame(item: T, size: nat) | Fail

  /** Frames cut, what is left, and whether the parser gave up. */
  datatype Drained<T> = Drained(items: seq<T>, rest: Bytes, failed: bool)

  /** A frame takes at least one byte of those held. */
  ghost predicate Sound<T(!new)>(next: Bytes -> Cut<T>) {
    forall b: Bytes :: next(b).Frame? ==> 1 <= next(b).size <= |b|
  }

  /** A decision once made does not depend on what has not arrived. */
  ghost predicate Stable<T(!new)>(next: Bytes -> Cut<T>) {
    forall b: Bytes, more: Bytes :: !next(b).Wait? ==> next(b + more) == next(b)
  }

  /** The inner loop: frames are cut while there are any. */
  function Drain<T>(next: Bytes -> Cut<T>, buf: Bytes): Drained<T>
    decreases |buf|
  {
    match next(buf)
    case Wait => Drained([], buf, false)
    case Fail => Drained([], buf, true)
    case Frame(item, size) =>
      if 1 <= size <= |buf| then
        var d := Drain(next, buf[size..]);
        Drained([item] + d.items, d.rest, d.failed)
      else Drained([], buf, false)
  }

  /** One chunk arrives; nothing is read after a failure. */
  function Feed<T>(next: Bytes -> Cut<T>, p: Drained<T>, chunk: Bytes): Drained<T> {
    if p.failed then p
    else
      var d := Drain(next, p.rest + chunk);
      Drained(p.items + d.items, d.rest, d.failed)
  }

  function FeedAll<T>(next: Bytes -> Cut<T>, p: Drained<T>, chunks: seq<Bytes>): Drained<T>
    decreases |chunks|
  {
    if chunks == [] then p else FeedAll(next, Feed(next, p, chunks[0]), chunks[1..])
  }

  /** Two parsers agree on what they gave and whether they gave up, and on what they hold while they have not. */
  predicate Agree<T(==)>(a: Drained<T>, b: Drained<T>) {
    a.items == b.items && a.failed == b.failed && (a.failed || a.rest == b.rest)
  }

  lemma {:induction false} DrainMore<T(!new)>(next: Bytes -> Cut<T>, buf: Bytes, more: Bytes)
    requires Sound(next) && Stable(next)
    ensures Agree(Drain(next, buf + more), Feed(next, Drain(next, buf), more))
    decreases |buf|
  {
    match next(buf)
    case Wait =>
      assert [] + Drain(next, buf + more).items == Drain(next, buf + more).items;
    case Fail => assert next(buf + more).Fail?;
    case Frame(item, size) =>
      assert next(buf + more) == Frame(item, size);
      assert (buf + more)[size..] == buf[size..] + more;
      DrainMore(next, buf[size..], more);
      FrameFirst(next, item, Drain(next, buf[size..]), Drain(next, buf[size..] + more), more);
  }

  lemma FrameFirst<T>(next: Bytes -> Cut<T>, item: T, d: Drained<T>, e: Drained<T>, more: Bytes)
    requires Agree(e, Feed(next, d, more))
    ensures Agree(Drained([item] + e.items, e.rest, e.failed), Feed(next, Drained([item] + d.items, d.rest, d.failed), more))
  {
    if !d.failed {
      var f := Drain(next, d.rest + more);
      assert [item] + (d.items + f.items) == ([item] + d.items) + f.items;
    }
  }

  lemma {:induction false} FeedsFail<T>(next: Bytes -> Cut<T>, p: Drained<T>, chunks: seq<Bytes>)
    requires p.failed
    ensures FeedAll(next, p, chunks) == p
  {
    if chunks != [] { FeedsFail(next, p, chunks[1..]); }
  }

  /**
   However a byte string is cut into chunks, the parser gives the same frames,
   fails at the same one if it fails, and holds the same bytes if it does not.
   */
  lemma {:induction false} ChunksDoNotMatter<T(!new)>(next: Bytes -> Cut<T>, buf: Bytes, chunks: seq<Bytes>)
    requires Sound(next) && Stable(next)
    ensures Agree(FeedAll(next, Drain(next, buf), chunks), Drain(next, buf + Flatten(chunks)))
    decreases |chunks|
  {
    if chunks == [] {
      assert buf + [] == buf;
    } else {
      var d := Drain(next, buf);
      DrainMore(next, buf, chunks[0]);
      if d.failed {
        FeedsFail(next, d, chunks);
        DrainMore(next, buf, Flatten(chunks));
      } else {
        var fed, whole := Feed(next, d, chunks[0]), Drain(next, buf + chunks[0]);
        ChunksDoNotMatter(next, buf + chunks[0], chunks[1..]);
        assert buf + chunks[0] + Flatten(chunks[1..]) == buf + Flatten(chunks);
        if fed.failed {
          FeedsFail(next, fed, chunks[1..]);
          FeedsFail(next, whole, chunks[1..]);
        } else {
          assert fed == whole;
        }
      }
    }
  }

  // ----- frames that were encoded -----

  /** A writer whose frames the cutter takes off whole, whatever follows. */
  ghost predicate Inverts<T(!new)>(next: Bytes -> Cut<T>, write: T -> Bytes, good: T -> bool) {
    forall x: T, rest: Bytes :: good(x) ==> next(write(x) + rest) == Frame(x, |write(x)|) && |write(x)| >= 1
  }

  function Written<T>(write: T -> Bytes, items: seq<T>): Bytes {
    if items == [] then [] else write(items[0]) + Written(write, items[1..])
  }

  lemma {:induction false} DrainWritten<T(!new)>(next: Bytes -> Cut<T>, write: T -> Bytes, good: T -> bool, items: seq<T>)
    requires Inverts(next, write, good) && next([]).Wait? && forall x :: x in items ==> good(x)
    ensures Drain(next, Written(write, items)) == Drained(items, [], false)
  {
    if items != [] {
      var x, tail := items[0], Written(write, items[1..]);
      assert next(write(x) + tail) == Frame(x, |write(x)|);
      assert (write(x) + tail)[|write(x)|..] == tail;
      DrainWritten(next, write, good, items[1..]);
    }
  }

  /** Any split of a concatenation of frames gives exactly the original list. */
  lemma SplitFramesRoundTrip<T(!new)>(next: Bytes -> Cut<T>, write: T -> Bytes, good: T -> bool, items: seq<T>, chunks: seq<Bytes>)
    requires Sound(next) && Stable(next) && Inverts(next, write, good) && next([]).Wait? && forall x :: x in items ==> good(x)
    requires Flatten(chunks) == Written(write, items)
    ensures FeedAll(next, Drained([], [], false), chunks) == Drained(items, [], false)
  {
    ChunksDoNotMatter(next, [], chunks);
    DrainWritten(next, write, good, items);
    assert [] + Flatten(chunks) == Flatten(chunks);
  }

  /** The reading loop: chunks are appended to what is held, then frames are cut off its front. */
  method Parse<T(!new)>(next: Bytes -> Cut<T>, chunks: seq<Bytes>) returns (items: seq<T>, failed: bool)
    requires Sound(next) && Stable(next) && next([]).Wait?
    ensures items == Drain(next, Flatten(chunks)).items && failed == Drain(next, Flatten(chunks)).failed
  {
    var buf: Bytes := [];
    items, failed := [], false;
    ghost var start: Drained<T> := Drained([], [], false);
    assert [] + Flatten(chunks) == Flatten(chunks);
    ChunksDoNotMatter(next, [], chunks);
    for n := 0 to |chunks|
      invariant FeedAll(next, Drained(items, buf, failed), chunks[n..]) == FeedAll(next, start, chunks)
      invariant !failed
    {
      assert chunks[n..][1..] == chunks[n + 1..];
      ghost var p := Drained(items, buf, false);
      buf := buf + chunks[n];
      assert items + Drain(next, buf).items == Feed(next, p, chunks[n]).items;
      while next(buf).Frame?
        invariant Drained(items + Drain(next, buf).items, Drain(next, buf).rest, Drain(next, buf).failed) == Feed(next, p, chunks[n])
        decreases |buf|
      {
        var cut := next(buf);
        ghost var rest := Drain(next, buf[cut.size..]);
        assert items + ([cut.item] + rest.items) == (items + [cut.item]) + rest.items;
        items := items + [cut.item];
        buf := buf[cut.size..];
      }
      assert items + [] == items;
      if next(buf).Fail? {
        FeedsFail(next, Feed(next, p, chunks[n]), chunks[n + 1..]);
        return items, true;
      }
    }
  }
}
