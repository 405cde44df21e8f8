/** Header text: latin-1, tokens, hosts and targets, header lines, and the framing they ask for. */
module HttpText {
  import opened Basics
  import opened HttpBytes

  // ----- latin-1 -----

  predicate Latin1(s: string) { forall i :: 0 <= i < |s| ==> s[i] as int < 256 }

  function ToBytes(s: string): (r: Bytes)
    requires Latin1(s)
    ensures |r| == |s|
  {
    seq(|s|, i requires 0 <= i < |s| => s[i] as int)
  }

  function FromBytes(b: Bytes): (s: string)
    ensures |s| == |b| && Latin1(s)
  {
    seq(|b|, i requires 0 <= i < |b| => b[i] as char)
  }

  lemma TextBack(s: string)
    requires Latin1(s)
    ensures FromBytes(ToBytes(s)) == s
  {
  }

  lemma ToBytesAppend(s: string, t: string)
    requires Latin1(s) && Latin1(t)
    ensures Latin1(s + t) && ToBytes(s + t) == ToBytes(s) + ToBytes(t)
  {
  }

  // ----- characters -----

  predicate Digit(c: char) { '0' <= c <= '9' }
  predicate Alpha(c: char) { 'a' <= c <= 'z' || 'A' <= c <= 'Z' }
  predicate TokenChar(c: char) { Digit(c) || Alpha(c) || c in "!#$%&'*+-.^_`|~" }
  predicate Visible(c: char) { ' ' < c < 0x7f as char }
  predicate Blank(c: char) { c == ' ' || c == '\t' }

  predicate IsToken(s: string) { s != [] && forall i :: 0 <= i < |s| ==> TokenChar(s[i]) }

  predicate ValidTarget(s: string) { forall i :: 0 <= i < |s| ==> Visible(s[i]) }

  /** No CR, LF, other control character, DEL, or character past latin-1. */
  predicate Plain(s: string) {
    forall i :: 0 <= i < |s| ==> (s[i] >= ' ' || s[i] == '\t') && s[i] as int != 0x7f && s[i] as int < 256
  }

  predicate AllDigits(s: string) { forall i :: 0 <= i < |s| ==> Digit(s[i]) }

  /** `:port`, or nothing. */
  predicate PortPart(s: string) { s == [] || (s[0] == ':' && 2 <= |s| <= 6 && AllDigits(s[1..])) }

  predicate HostChar(c: char) { Alpha(c) || Digit(c) || c in "._~-" }
  predicate LiteralChar(c: char) { Digit(c) || 'A' <= c <= 'F' || 'a' <= c <= 'f' || c == ':' || c == '.' }

  /** A registered name or a bracketed IP literal, with an optional port; no user information. */
  predicate ValidHost(s: string) {
    || (exists n :: 1 <= n <= |s| && (forall i :: 0 <= i < n ==> HostChar(s[i])) && PortPart(s[n..]))
    || (exists n :: 3 <= n <= |s| && s[0] == '[' && s[n - 1] == ']' && (forall i :: 1 <= i < n - 1 ==> LiteralChar(s[i])) && PortPart(s[n..]))
  }

  function LowerChar(c: char): char { if 'A' <= c <= 'Z' then (c as int + 32) as char else c }

  function Lower(s: string): (r: string)
    ensures |r| == |s|
  {
    seq(|s|, i requires 0 <= i < |s| => LowerChar(s[i]))
  }

  // ----- header lists -----

  datatype Header = Header(name: string, value: string)

  function GetAll(hs: seq<Header>, name: string): seq<string> {
    if hs == [] then [] else (if Lower(hs[0].name) == Lower(name) then [hs[0].value] else []) + GetAll(hs[1..], name)
  }

  predicate Named(h: Header, names: seq<string>) {
    exists i :: 0 <= i < |names| && Lower(h.name) == Lower(names[i])
  }

  function Without(hs: seq<Header>, names: seq<string>): seq<Header> {
    if hs == [] then [] else (if Named(hs[0], names) then [] else [hs[0]]) + Without(hs[1..], names)
  }

  lemma {:induction false} GetAllAppend(x: seq<Header>, y: seq<Header>, name: string)
    ensures GetAll(x + y, name) == GetAll(x, name) + GetAll(y, name)
  {
    if x == [] {
      assert x + y == y;
    } else {
      assert (x + y)[1..] == x[1..] + y;
      GetAllAppend(x[1..], y, name);
    }
  }

  /** Dropped names are gone, the others keep their values in order. */
  lemma {:induction false} WithoutGets(hs: seq<Header>, names: seq<string>, name: string)
    ensures GetAll(Without(hs, names), name) ==
              if exists i :: 0 <= i < |names| && Lower(name) == Lower(names[i]) then [] else GetAll(hs, name)
  {
    if hs != [] {
      WithoutGets(hs[1..], names, name);
      var kept := if Named(hs[0], names) then [] else [hs[0]];
      GetAllAppend(kept, Without(hs[1..], names), name);
      if kept != [] { assert kept[1..] == []; }
      if Lower(hs[0].name) == Lower(name) {
        assert Named(hs[0], names) <==> exists i :: 0 <= i < |names| && Lower(name) == Lower(names[i]);
      }
    }
  }

  // ----- header lines -----

  predicate GoodHeader(h: Header) { IsToken(h.name) && Plain(h.value) }

  function HeaderLine(h: Header): string { h.name + ": " + h.value + "\r\n" }

  function HeaderLines(hs: seq<Header>): string {
    if hs == [] then "" else HeaderLine(hs[0]) + HeaderLines(hs[1..])
  }

  /** `encodeHeaderLines`: a name that is no token or a value that is not plain is refused. */
  function EncodeHeaderLines(hs: seq<Header>): Option<string> {
    if forall i :: 0 <= i < |hs| ==> GoodHeader(hs[i]) then Some(HeaderLines(hs)) else None
  }

  method PrintHeaderLines(hs: seq<Header>) returns (r: Option<string>)
    ensures r == EncodeHeaderLines(hs)
  {
    hide GoodHeader, HeaderLine;
    var out := "";
    assert "" + HeaderLines(hs) == HeaderLines(hs);
    for i := 0 to |hs|
      invariant (forall j :: 0 <= j < i ==> GoodHeader(hs[j])) && out + HeaderLines(hs[i..]) == HeaderLines(hs)
    {
      if !GoodHeader(hs[i]) { return None; }
      assert hs[i..][1..] == hs[i + 1..];
      assert out + (HeaderLine(hs[i]) + HeaderLines(hs[i + 1..])) == out + HeaderLine(hs[i]) + HeaderLines(hs[i + 1..]);
      out := out + HeaderLine(hs[i]);
    }
    assert hs[|hs|..] == [] && out + "" == out;
    return Some(out);
  }

  function TrimLeft(s: string): string { if s != [] && Blank(s[0]) then TrimLeft(s[1..]) else s }
  function TrimRight(s: string): string { if s != [] && Blank(s[|s| - 1]) then TrimRight(s[..|s| - 1]) else s }

  function IndexOf(s: string, c: char): (i: nat)
    ensures i <= |s| && c !in s[..i] && (i < |s| ==> s[i] == c)
  {
    if s == [] || s[0] == c then 0 else 1 + IndexOf(s[1..], c)
  }

  /** One header line of the wire. */
  function ParseHeader(line: string): Option<Header> {
    if line != [] && Blank(line[0]) then None
    else
      var colon := IndexOf(line, ':');
      if colon == |line| || colon == 0 then None
      else
        var h := Header(line[..colon], TrimRight(TrimLeft(line[colon + 1..])));
        if GoodHeader(h) then Some(h) else None
  }

  /** What is left after a part of the head, or a refusal. */
  datatype Parsed<T> = Parsed(value: T, rest: Bytes) | Refused

  /** The header section under one bound for the whole head, `used` of which is gone. */
  function ReadHeaders(b: Bytes, max: int, used: int): Parsed<seq<Header>>
    decreases |b|
  {
    if max - used <= 0 then Refused
    else match NextLine(b, max - used)
      case BadLine => Refused
      case Loose(_, _) => Refused
      case Line(line, rest) =>
        if used + |line| + 2 > max then Refused
        else if line == [] then Parsed([], rest)
        else match ParseHeader(FromBytes(line))
          case None => Refused
          case Some(h) =>
            match ReadHeaders(rest, max, used + |line| + 2)
            case Refused => Refused
            case Parsed(hs, last) => Parsed([h] + hs, last)
  }

  // ----- the header section as its chunks are pulled -----

  datatype Section = NoSection | Section(headers: seq<Header>, next: Feed)

  lemma GotLine(f: Feed, max: int)
    ensures var r := LineOf(f, max); r.result.Got? ==> |r.result.line| + 2 + |AllOf(r.next)| == |AllOf(f)|
  {
    LineOfAll(f, max);
    LineIsPart(AllOf(f), max);
    hide NextLine;
  }

  function SectionOf(f: Feed, max: int, used: int): Section
    decreases |AllOf(f)|
  {
    var r := LineOf(f, max - used);
    GotLine(f, max - used);
    if max - used <= 0 || !r.result.Got? || used + |r.result.line| + 2 > max then NoSection
    else if r.result.line == [] then Section([], r.next)
    else match ParseHeader(FromBytes(r.result.line))
      case None => NoSection
      case Some(h) => WithHeader(h, SectionOf(r.next, max, used + |r.result.line| + 2))
  }

  function WithHeader(h: Header, s: Section): Section {
    match s case NoSection => NoSection case Section(hs, next) => Section([h] + hs, next)
  }

  /** However the head arrives, it is the one its bytes make, and the reader stands behind it. */
  lemma {:induction false} SectionAll(f: Feed, max: int, used: int)
    ensures match ReadHeaders(AllOf(f), max, used)
            case Refused => SectionOf(f, max, used) == NoSection
            case Parsed(hs, rest) =>
              var s := SectionOf(f, max, used); s.Section? && s.headers == hs && AllOf(s.next) == rest
    decreases |AllOf(f)|
  {
    hide NextLine, ParseHeader, AllOf, LineOf;
    if max - used > 0 {
      LineOfAll(f, max - used);
      LineIsPart(AllOf(f), max - used);
      GotLine(f, max - used);
      var r := LineOf(f, max - used);
      if r.result.Got? && r.result.line != [] && used + |r.result.line| + 2 <= max {
        SectionAll(r.next, max, used + |r.result.line| + 2);
      }
    }
  }

  /** The loop reads exactly that. */
  method ReadHeaderSection(reader: ByteReader, max: int, used: int) returns (r: Option<seq<Header>>)
    requires reader.Valid()
    modifies reader
    ensures reader.Valid()
    ensures match SectionOf(old(reader.State()), max, used)
            case NoSection => r == None
            case Section(hs, next) => r == Some(hs) && reader.State() == next
  {
    hide LineOf, ParseHeader, AllOf;
    var headers: seq<Header> := [];
    var total := used;
    ghost var whole := SectionOf(reader.State(), max, used);
    assert whole.Section? ==> [] + whole.headers == whole.headers;
    while true
      invariant reader.Valid()
      invariant Onward(headers, SectionOf(reader.State(), max, total)) == whole
      decreases |AllOf(reader.State())|
    {
      if max - total <= 0 { return None; }
      GotLine(reader.State(), max - total);
      var got := reader.ReadLine(max - total);
      if !got.Got? { return None; }
      var line := got.line;
      total := total + |line| + 2;
      if total > max { return None; }
      if line == [] {
        assert headers + [] == headers;
        return Some(headers);
      }
      match ParseHeader(FromBytes(line)) {
        case None => return None;
        case Some(h) =>
          ghost var more := SectionOf(reader.State(), max, total);
          assert more.Section? ==> headers + ([h] + more.headers) == (headers + [h]) + more.headers;
          headers := headers + [h];
      }
    }
  }

  function Onward(sofar: seq<Header>, s: Section): Section {
    match s case NoSection => NoSection case Section(hs, next) => Section(sofar + hs, next)
  }

  lemma LineIsPart(b: Bytes, max: int)
    ensures match NextLine(b, max)
            case BadLine => true
            case Line(text, rest) => |text| + 2 + |rest| == |b|
            case Loose(text, rest) => |text| + 2 + |rest| == |b| && |text| + 2 > max
  {
  }

  function WithFirst(h: Header, p: Parsed<seq<Header>>): Parsed<seq<Header>> {
    match p case Refused => Refused case Parsed(hs, rest) => Parsed([h] + hs, rest)
  }

  lemma ReadOne(b: Bytes, max: int, used: int, line: Bytes, rest: Bytes)
    requires used + |line| + 2 <= max && line != []
    requires NextLine(b, max - used) == Line(line, rest)
    requires ParseHeader(FromBytes(line)).Some?
    requires |rest| < |b|
    ensures ReadHeaders(b, max, used) ==
              WithFirst(ParseHeader(FromBytes(line)).value, ReadHeaders(rest, max, used + |line| + 2))
  {
    hide NextLine, ParseHeader;
  }

  // ----- round trip of header lines -----

  predicate NoOuterBlank(s: string) {
    s == [] || (!Blank(s[0]) && !Blank(s[|s| - 1]))
  }

  lemma {:induction false} IndexOfAt(s: string, c: char, rest: string)
    requires c !in s
    ensures IndexOf(s + [c] + rest, c) == |s|
  {
    var t := s + [c] + rest;
    if s != [] {
      assert t[1..] == s[1..] + [c] + rest;
      IndexOfAt(s[1..], c, rest);
    }
  }

  lemma HeaderBack(h: Header)
    requires GoodHeader(h) && NoOuterBlank(h.value)
    ensures ParseHeader(h.name + ": " + h.value) == Some(h)
  {
    hide IndexOf, TrimLeft, TrimRight, NoOuterBlank, Plain;
    var line := h.name + ": " + h.value;
    NameAlone(h.name);
    assert line == h.name + [':'] + (" " + h.value);
    IndexOfAt(h.name, ':', " " + h.value);
    assert line[..|h.name|] == h.name && line[|h.name| + 1..] == " " + h.value;
    TrimmedBack(h.value);
    hide IsToken;
    assert line[0] == h.name[0];
  }

  lemma NameAlone(name: string)
    requires IsToken(name)
    ensures name != [] && ':' !in name && !Blank(name[0])
  {
    assert TokenChar(name[0]);
    assert !TokenChar(':');
  }

  lemma TrimmedBack(s: string)
    requires NoOuterBlank(s)
    ensures TrimRight(TrimLeft(" " + s)) == s
  {
    assert (" " + s)[1..] == s;
    assert TrimLeft(" " + s) == TrimLeft(s) == s;
  }

  lemma PlainLatin1(s: string)
    requires Plain(s)
    ensures Latin1(s) && LF !in ToBytes(s)
  {
  }

  lemma TokenPlain(s: string)
    requires IsToken(s)
    ensures Plain(s)
  {
    forall i | 0 <= i < |s| ensures (s[i] >= ' ' || s[i] == '\t') && s[i] as int != 0x7f && s[i] as int < 256 {
      assert TokenChar(s[i]);
    }
  }

  /** What a list of header lines takes of the bound. */
  function LinesSize(hs: seq<Header>): nat {
    if hs == [] then 0 else |HeaderLine(hs[0])| + LinesSize(hs[1..])
  }

  predicate AllGood(hs: seq<Header>) {
    hs == [] || (GoodHeader(hs[0]) && NoOuterBlank(hs[0].value) && AllGood(hs[1..]))
  }

  lemma {:induction false} LinesLatin1(hs: seq<Header>)
    requires AllGood(hs)
    ensures Latin1(HeaderLines(hs))
  {
    if hs != [] {
      TokenPlain(hs[0].name);
      LinesLatin1(hs[1..]);
    }
  }

  /** Header lines and the blank line behind them read back, within the bound. */
  lemma {:induction false} HeadersBack(hs: seq<Header>, rest: Bytes, max: int, used: int)
    requires AllGood(hs) && used + LinesSize(hs) + 2 <= max
    ensures Latin1(HeaderLines(hs))
    ensures ReadHeaders(ToBytes(HeaderLines(hs)) + [CR, LF] + rest, max, used) == Parsed(hs, rest)
    decreases |hs|
  {
    LinesLatin1(hs);
    if hs == [] {
      assert HeaderLines(hs) == [] && ToBytes([]) + [CR, LF] + rest == [CR, LF] + rest;
      NoHeaders(rest, max, used);
    } else {
      hide ReadHeaders, ToBytes, NextLine, ParseHeader;
      LinesLatin1(hs[1..]);
      HeadersBack(hs[1..], rest, max, used + |HeaderLine(hs[0])|);
      OneMoreHeader(hs, rest, max, used);
    }
  }

  lemma OneMoreHeader(hs: seq<Header>, rest: Bytes, max: int, used: int)
    requires AllGood(hs) && hs != [] && used + LinesSize(hs) + 2 <= max
    requires Latin1(HeaderLines(hs)) && Latin1(HeaderLines(hs[1..]))
    requires ReadHeaders(ToBytes(HeaderLines(hs[1..])) + [CR, LF] + rest, max, used + |HeaderLine(hs[0])|)
             == Parsed(hs[1..], rest)
    ensures ReadHeaders(ToBytes(HeaderLines(hs)) + [CR, LF] + rest, max, used) == Parsed(hs, rest)
  {
    hide NextLine, ParseHeader, ReadHeaders, ToBytes, FromBytes, LineBytes, GoodHeader, HeaderLine, NoOuterBlank;
    var line := LineBytes(hs[0]);
    var after := ToBytes(HeaderLines(hs[1..])) + [CR, LF] + rest;
    FirstLine(hs, rest);
    LineBytesBack(hs[0], after, max - used);
    ReadOne(line + [CR, LF] + after, max, used, line, after);
    assert [hs[0]] + hs[1..] == hs;
  }


  ghost function LineText(h: Header): string { h.name + ": " + h.value }

  ghost function LineBytes(h: Header): Bytes
    requires GoodHeader(h)
  {
    TokenPlain(h.name);
    PlainText(h);
    ToBytes(LineText(h))
  }

  lemma LineBytesBack(h: Header, after: Bytes, max: int)
    requires GoodHeader(h) && NoOuterBlank(h.value) && |LineBytes(h)| + 1 <= max
    ensures NextLine(LineBytes(h) + [CR, LF] + after, max) == Line(LineBytes(h), after)
    ensures ParseHeader(FromBytes(LineBytes(h))) == Some(h) && LineBytes(h) != []
  {
    TokenPlain(h.name);
    PlainText(h);
    LineBack(LineBytes(h), after, max);
    TextBack(LineText(h));
    HeaderBack(h);
  }

  lemma FirstLine(hs: seq<Header>, rest: Bytes)
    requires AllGood(hs) && hs != []
    ensures Latin1(HeaderLines(hs)) && Latin1(HeaderLines(hs[1..]))
    ensures ToBytes(HeaderLines(hs)) + [CR, LF] + rest
            == LineBytes(hs[0]) + [CR, LF] + (ToBytes(HeaderLines(hs[1..])) + [CR, LF] + rest)
    ensures |LineBytes(hs[0])| + 2 == |HeaderLine(hs[0])|
  {
    LinesLatin1(hs);
    LinesLatin1(hs[1..]);
    TokenPlain(hs[0].name);
    PlainText(hs[0]);
    ToBytesAppend(HeaderLine(hs[0]), HeaderLines(hs[1..]));
    assert HeaderLine(hs[0]) == LineText(hs[0]) + "\r\n";
    ToBytesAppend(LineText(hs[0]), "\r\n");
    assert ToBytes("\r\n") == [CR, LF];
    Regroup(LineBytes(hs[0]), ToBytes(HeaderLines(hs[1..])), [CR, LF], rest);
  }

  lemma Regroup(x: Bytes, y: Bytes, end: Bytes, rest: Bytes)
    ensures (x + end) + y + end + rest == x + end + (y + end + rest)
  {
  }

  lemma NoHeaders(rest: Bytes, max: int, used: int)
    requires used + 2 <= max
    ensures ReadHeaders([CR, LF] + rest, max, used) == Parsed([], rest)
  {
    assert [CR, LF] + rest == [] + [CR, LF] + rest;
    LineBack([], rest, max - used);
  }

  lemma PlainText(h: Header)
    requires Plain(h.name) && Plain(h.value)
    ensures Plain(h.name + ": " + h.value) && Latin1(h.name + ": " + h.value) && LF !in ToBytes(h.name + ": " + h.value)
  {
    PlainLatin1(h.name + ": " + h.value);
  }
}
