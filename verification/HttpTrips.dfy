/** What an encoder printed is read back, under all three framings and every re-chunking. */
module HttpTrips {
  import opened Basics
  import opened HttpBytes
  import opened HttpText
  import opened HttpFraming
  import opened HttpNames
  import opened HttpChunked
  import opened HttpCodec

  // ----- the head as a start line and a list of headers -----

  ghost predicate Trimmable(hs: seq<Header>) { forall i :: 0 <= i < |hs| ==> NoOuterBlank(hs[i].value) }

  lemma {:induction false} AllAreGood(hs: seq<Header>)
    requires forall i :: 0 <= i < |hs| ==> GoodHeader(hs[i]) && NoOuterBlank(hs[i].value)
    ensures AllGood(hs)
  {
    if hs != [] { AllAreGood(hs[1..]); }
  }

  lemma {:induction false} LinesAppend(x: seq<Header>, y: seq<Header>)
    ensures HeaderLines(x + y) == HeaderLines(x) + HeaderLines(y)
  {
    if x == [] {
      assert x + y == y;
    } else {
      assert (x + y)[1..] == x[1..] + y;
      LinesAppend(x[1..], y);
      assert HeaderLine(x[0]) + (HeaderLines(x[1..]) + HeaderLines(y)) == HeaderLine(x[0]) + HeaderLines(x[1..]) + HeaderLines(y);
    }
  }

  lemma OneLine(h: Header)
    ensures HeaderLines([h]) == HeaderLine(h)
  {
    var one := [h];
    assert one[1..] == [];
    assert HeaderLine(h) + "" == HeaderLine(h);
  }

  lemma {:induction false} LinesAreSize(hs: seq<Header>)
    ensures |HeaderLines(hs)| == LinesSize(hs)
  {
    if hs != [] { LinesAreSize(hs[1..]); }
  }

  lemma HostIsGood(v: string)
    requires ValidHost(v)
    ensures GoodHeader(Header("Host", v)) && NoOuterBlank(v)
  {
    hide ValidHost;
    HostIsPlain(v);
  }

  lemma OwnedAreGood()
    ensures GoodHeader(CLOSE) && GoodHeader(CHUNKED) && NoOuterBlank(CLOSE.value) && NoOuterBlank(CHUNKED.value)
  {
  }

  lemma PortIsPlain(s: string)
    requires PortPart(s)
    ensures forall i :: 0 <= i < |s| ==> '!' <= s[i] <= '~'
  {
    forall i | 0 <= i < |s| ensures '!' <= s[i] <= '~' {
      if i > 0 { assert Digit(s[1..][i - 1]); }
    }
  }

  lemma NameIsPlain(v: string, n: nat)
    requires n <= |v| && PortPart(v[n..])
    requires forall i :: 0 <= i < n ==> '!' <= v[i] <= '~'
    ensures forall i :: 0 <= i < |v| ==> '!' <= v[i] <= '~'
  {
    hide PortPart;
    PortIsPlain(v[n..]);
    forall i | n <= i < |v| ensures '!' <= v[i] <= '~' {
      assert v[i] == v[n..][i - n];
    }
  }

  lemma HostIsPlain(v: string)
    requires ValidHost(v)
    ensures v != [] && forall i :: 0 <= i < |v| ==> '!' <= v[i] <= '~'
  {
    hide PortPart;
    if n :| 1 <= n <= |v| && (forall i :: 0 <= i < n ==> HostChar(v[i])) && PortPart(v[n..]) {
      NameIsPlain(v, n);
    } else {
      var n :| 3 <= n <= |v| && v[0] == '[' && v[n - 1] == ']' && (forall i :: 1 <= i < n - 1 ==> LiteralChar(v[i])) && PortPart(v[n..]);
      NameIsPlain(v, n);
    }
  }

  /** A start line, its headers and the blank line are read back whatever is behind them. */
  lemma TopBack(start: string, hs: seq<Header>, rest: Bytes, max: int)
    requires Plain(start) && AllGood(hs) && |start| + 2 + LinesSize(hs) + 2 <= max
    ensures Latin1(start + "\r\n" + HeaderLines(hs) + "\r\n")
    ensures ReadTop(ToBytes(start + "\r\n" + HeaderLines(hs) + "\r\n") + rest, max) == Top(start, hs, rest)
  {
    hide NextLine, ReadHeaders, HeaderLines, LinesSize, AllGood;
    PlainLatin1(start);
    LinesLatin1(hs);
    HeadersBack(hs, rest, max, |start| + 2);
    TextBack(start);
    var behind := ToBytes(HeaderLines(hs)) + [CR, LF] + rest;
    LineBack(ToBytes(start), behind, max);
    HeadBytes(start, HeaderLines(hs), rest);
  }

  lemma HeadBytes(start: string, lines: string, rest: Bytes)
    requires Latin1(start) && Latin1(lines)
    ensures Latin1(start + "\r\n" + lines + "\r\n")
    ensures ToBytes(start + "\r\n" + lines + "\r\n") + rest
            == ToBytes(start) + [CR, LF] + (ToBytes(lines) + [CR, LF] + rest)
  {
    var end := "\r\n";
    assert ToBytes(end) == [CR, LF];
    ToBytesAppend(start, end);
    ToBytesAppend(start + end, lines);
    ToBytesAppend(start + end + lines, end);
    hide ToBytes;
    Regrouped(ToBytes(start), ToBytes(lines), rest);
  }

  lemma Regrouped(s: Bytes, lines: Bytes, rest: Bytes)
    ensures s + [CR, LF] + lines + [CR, LF] + rest == s + [CR, LF] + (lines + [CR, LF] + rest)
  {
  }

  // ----- the framing a written head asks for -----

  lemma Names()
    ensures Lower("Host") == "host" && Lower("Connection") == "connection"
    ensures Lower("Transfer-Encoding") == "transfer-encoding"
    ensures Lower("host") == "host" && Lower("connection") == "connection"
    ensures Lower("transfer-encoding") == "transfer-encoding" && Lower("content-length") == "content-length"
  {
  }

  /** The headers on the wire: what the codec derives around what it carries. */
  function Sent(front: seq<Header>, carried: seq<Header>, chunked: bool): seq<Header> {
    front + carried + [CLOSE] + (if chunked then [CHUNKED] else [])
  }

  lemma SentGets(front: seq<Header>, carried: seq<Header>, chunked: bool, name: string)
    requires Lower(name) != "connection"
    ensures GetAll(Sent(front, carried, chunked), name)
            == GetAll(front, name) + GetAll(carried, name) + (if chunked && Lower(name) == "transfer-encoding" then ["chunked"] else [])
  {
    hide Lower;
    Names();
    var tail := if chunked then [CHUNKED] else [];
    GetAllAppend(front + carried + [CLOSE], tail, name);
    GetAllAppend(front + carried, [CLOSE], name);
    GetAllAppend(front, carried, name);
    OneGet("Connection", "close", name);
    OneGet("Transfer-Encoding", "chunked", name);
  }

  function FramingOf(declared: Option<nat>, chunked: bool): Framing {
    if chunked then Chunked else if declared.Some? then Sized(declared.value) else Bare
  }

  /** The written headers resolve to the framing the body was written under. */
  lemma SentFraming(front: seq<Header>, headers: seq<Header>, owned: seq<string>, chunked: bool, declared: Option<nat>)
    requires GetAll(front, "transfer-encoding") == [] && GetAll(front, "content-length") == []
    requires "transfer-encoding" in owned
    requires Declared(Without(headers, owned)) == Some(declared) && (chunked ==> declared == None)
    ensures ResolveFraming(Sent(front, Without(headers, owned), chunked), "HTTP/1.1") == Some(FramingOf(declared, chunked))
  {
    hide Lower, GetAll, Without, Sent, Codings, Pieces;
    var carried := Without(headers, owned);
    Names();
    ChunkedIsChunked();
    SentGets(front, carried, chunked, "transfer-encoding");
    SentGets(front, carried, chunked, "content-length");
    var i :| 0 <= i < |owned| && owned[i] == "transfer-encoding";
    WithoutGets(headers, owned, "transfer-encoding");
    var te: seq<string> := if chunked then ["chunked"] else [];
    assert [] + [] + te == te;
    assert [] + GetAll(carried, "content-length") + [] == GetAll(carried, "content-length");
  }

  lemma SentIsGood(front: seq<Header>, headers: seq<Header>, owned: seq<string>, chunked: bool)
    requires forall i :: 0 <= i < |front| ==> GoodHeader(front[i]) && NoOuterBlank(front[i].value)
    requires EncodeHeaderLines(Without(headers, owned)).Some? && Trimmable(Without(headers, owned))
    ensures AllGood(Sent(front, Without(headers, owned), chunked))
  {
    OwnedAreGood();
    hide GoodHeader, NoOuterBlank, Without;
    AllAreGood(Sent(front, Without(headers, owned), chunked));
  }

  lemma SentLines(front: seq<Header>, carried: seq<Header>, chunked: bool)
    ensures HeaderLines(Sent(front, carried, chunked))
            == HeaderLines(front) + HeaderLines(carried) + "Connection: close\r\n" + (if chunked then "Transfer-Encoding: chunked\r\n" else "")
  {
    var tail := if chunked then [CHUNKED] else [];
    LinesAppend(front + carried + [CLOSE], tail);
    LinesAppend(front + carried, [CLOSE]);
    LinesAppend(front, carried);
    OneLine(CLOSE);
    OneLine(CHUNKED);
    assert HeaderLine(CLOSE) == "Connection: close\r\n";
    assert HeaderLine(CHUNKED) == "Transfer-Encoding: chunked\r\n";
  }

  // ----- bodies -----

  function BodyOf(body: Option<seq<Bytes>>): Bytes { if body.None? then [] else Flatten(body.value) }

  /** A body is read back whole, and surely, under the framing it was written in. */
  lemma BodyBack(body: Option<seq<Bytes>>, declared: Option<nat>, max: int, untilEnd: bool)
    requires BodyBytes(body, declared).Some? && max >= 15
    requires body.Some? ==> SafeSizes(body.value)
    ensures ReadBody(BodyBytes(body, declared).value, FramingOf(declared, body.Some? && declared.None?), max, untilEnd)
            == Whole(BodyOf(body), [], true)
  {
    hide ReadChunks, ChunkedBytes;
    var b := BodyBytes(body, declared).value;
    if body.Some? && declared.None? {
      ChunkedBack(body.value, [], max);
      assert ChunkedBytes(body.value) + [] == ChunkedBytes(body.value);
    } else if declared.Some? {
      assert b[..declared.value] == b && b[declared.value..] == [];
    }
  }

  // ----- requests -----

  function StartOf(env: Request, target: string): string { env.verb + " " + target + " HTTP/1.1" }

  lemma {:induction false} SplitNone(s: string, c: char)
    requires c !in s
    ensures Split(s, c) == [s]
  {
    assert IndexOf(s, c) == |s|;
  }

  lemma SplitThree(x: string, y: string, z: string, c: char)
    requires c !in x && c !in y && c !in z
    ensures Split(x + [c] + (y + [c] + z), c) == [x, y, z]
  {
    SplitAppend(x, y + [c] + z, c);
    SplitAppend(y, z, c);
    SplitNone(x, c);
    SplitNone(y, c);
    SplitNone(z, c);
  }

  lemma TargetIsSlash(url: string, opts: Options)
    requires SplitTarget(url, opts).Some?
    ensures var t := SplitTarget(url, opts).value.target; t != [] && t[0] == '/' && ValidTarget(t)
  {
  }

  lemma StartIsPlain(env: Request, target: string)
    requires IsToken(env.verb) && ValidTarget(target)
    ensures Plain(StartOf(env, target)) && ' ' !in env.verb
  {
    TokenPlain(env.verb);
    assert !TokenChar(' ');
    hide TokenChar;
  }

  lemma StartBack(env: Request, target: string)
    requires IsToken(env.verb) && ValidTarget(target) && target != [] && target[0] == '/'
    ensures Plain(StartOf(env, target))
    ensures ParseRequestLine(StartOf(env, target)) == Some(RequestLine(env.verb, target, "HTTP/1.1"))
  {
    hide Split, IsToken, Plain;
    StartIsPlain(env, target);
    var version := "HTTP/1.1";
    assert ' ' !in target && ' ' !in version;
    hide ValidTarget;
    SplitThree(env.verb, target, version, ' ');
    assert StartOf(env, target) == env.verb + [' '] + (target + [' '] + version);
  }

  function Carried(env: Request): seq<Header> { Without(env.headers, REQUEST_OWNED) }

  function SentRequest(env: Request, authority: string, chunked: bool): seq<Header> {
    Sent([Header("Host", authority)], Carried(env), chunked)
  }

  /** The printed head is the start line, the derived headers around the carried ones, and a blank line. */
  lemma RequestText(env: Request, hasBody: bool, opts: Options)
    requires RequestHead(env, hasBody, opts).Some?
    ensures var h := RequestHead(env, hasBody, opts).value; var t := SplitTarget(env.url, opts).value;
            var text := StartOf(env, t.target) + "\r\n" + HeaderLines(SentRequest(env, t.authority, hasBody && h.declared.None?)) + "\r\n";
            Latin1(text) && h.bytes == ToBytes(text)
  {
    hide SplitTarget, Without, Declared, HeaderLines, Sent, IsToken;
    var h := RequestHead(env, hasBody, opts).value;
    var t := SplitTarget(env.url, opts).value;
    var chunked := hasBody && h.declared.None?;
    SentLines([Header("Host", t.authority)], Carried(env), chunked);
    OneLine(Header("Host", t.authority));
    var tail := if chunked then "Transfer-Encoding: chunked\r\n" else "";
    HeadJoins(env.verb + " " + t.target, t.authority, HeaderLines(Carried(env)), "Connection: close\r\n", tail);
  }

  lemma HeadJoins(start: string, authority: string, lines: string, close: string, tail: string)
    ensures start + " HTTP/1.1\r\n" + ("Host: " + authority + "\r\n") + lines + close + tail + "\r\n"
            == start + " HTTP/1.1" + "\r\n" + (HeaderLine(Header("Host", authority)) + lines + close + tail) + "\r\n"
  {
  }

  lemma UrlBack(env: Request, t: Target, chunked: bool, opts: Options, urlOk: string -> bool)
    requires t.target != [] && t.target[0] == '/' && ValidHost(t.authority)
    requires urlOk(opts.scheme + "://" + t.authority + t.target)
    ensures UrlOf(RequestLine(env.verb, t.target, "HTTP/1.1"), SentRequest(env, t.authority, chunked), opts, urlOk)
            == Some(opts.scheme + "://" + t.authority + t.target)
  {
    hide ValidHost, Sent, Without, GetAll, Lower;
    Names();
    SentGets([Header("Host", t.authority)], Carried(env), chunked, "host");
    WithoutGets(env.headers, REQUEST_OWNED, "host");
    assert REQUEST_OWNED[0] == "host";
    OneGet("Host", t.authority, "host");
    assert [t.authority] + [] + [] == [t.authority];
  }

  lemma RequestFraming(env: Request, authority: string, chunked: bool, declared: Option<nat>)
    requires Declared(Carried(env)) == Some(declared) && (chunked ==> declared == None)
    ensures ResolveFraming(SentRequest(env, authority, chunked), "HTTP/1.1") == Some(FramingOf(declared, chunked))
  {
    hide Lower, ResolveFraming, Sent, Declared;
    Names();
    OneGet("Host", authority, "transfer-encoding");
    OneGet("Host", authority, "content-length");
    assert REQUEST_OWNED[2] == "transfer-encoding";
    SentFraming([Header("Host", authority)], env.headers, REQUEST_OWNED, chunked, declared);
  }

  lemma RequestTop(env: Request, hasBody: bool, opts: Options, rest: Bytes)
    requires RequestHead(env, hasBody, opts).Some? && Trimmable(Carried(env))
    requires ValidHost(SplitTarget(env.url, opts).value.authority)
    requires |RequestHead(env, hasBody, opts).value.bytes| <= opts.maxHeaderBytes
    ensures var h := RequestHead(env, hasBody, opts).value; var t := SplitTarget(env.url, opts).value;
            ReadTop(h.bytes + rest, opts.maxHeaderBytes)
            == Top(StartOf(env, t.target), SentRequest(env, t.authority, hasBody && h.declared.None?), rest)
  {
    var h := RequestHead(env, hasBody, opts).value;
    var t := SplitTarget(env.url, opts).value;
    var sent := SentRequest(env, t.authority, hasBody && h.declared.None?);
    hide ReadTop, HeaderLines, LinesSize, Sent, AllGood, GoodHeader, NoOuterBlank, Trimmable, ValidHost, SplitTarget, IsToken, Without, Declared;
    RequestText(env, hasBody, opts);
    TargetIsSlash(env.url, opts);
    StartIsPlain(env, t.target);
    HostIsGood(t.authority);
    SentIsGood([Header("Host", t.authority)], env.headers, REQUEST_OWNED, hasBody && h.declared.None?);
    LinesAreSize(sent);
    TopBack(StartOf(env, t.target), sent, rest, opts.maxHeaderBytes);
  }

  /** What a caller sees to before a request can come back: a host that is one, trimmed values, a head within the bound. */
  ghost predicate Returnable(env: Request, body: Option<seq<Bytes>>, opts: Options, urlOk: string -> bool)
    requires RequestHead(env, body.Some?, opts).Some?
  {
    var t := SplitTarget(env.url, opts).value;
    && Trimmable(Carried(env)) && ValidHost(t.authority)
    && |RequestHead(env, body.Some?, opts).value.bytes| <= opts.maxHeaderBytes
    && urlOk(opts.scheme + "://" + t.authority + t.target)
    && (body.Some? ==> SafeSizes(body.value))
  }

  /** The request the other end decodes: same method and target, the headers re-derived. */
  ghost function Returned(env: Request, hasBody: bool, opts: Options): Request
    requires RequestHead(env, hasBody, opts).Some?
  {
    var h := RequestHead(env, hasBody, opts).value;
    var t := SplitTarget(env.url, opts).value;
    Request(env.verb, opts.scheme + "://" + t.authority + t.target, SentRequest(env, t.authority, hasBody && h.declared.None?))
  }

  lemma RequestHeadBack(env: Request, body: Option<seq<Bytes>>, opts: Options, urlOk: string -> bool, rest: Bytes)
    requires RequestHead(env, body.Some?, opts).Some? && Returnable(env, body, opts, urlOk)
    ensures var h := RequestHead(env, body.Some?, opts).value;
            ReadRequest(h.bytes + rest, opts, urlOk)
            == Incoming(Returned(env, body.Some?, opts),
                        ReadBody(rest, FramingOf(h.declared, body.Some? && h.declared.None?), opts.maxHeaderBytes, false))
  {
    var h := RequestHead(env, body.Some?, opts).value;
    var t := SplitTarget(env.url, opts).value;
    var chunked := body.Some? && h.declared.None?;
    RequestTop(env, body.Some?, opts, rest);
    RequestFramedBack(env, body, opts, urlOk);
    hide RequestHead, SplitTarget, ReadTop, ReadBody, RequestFramed, Returned, Returnable, FramingOf;
  }

  lemma RequestFramedBack(env: Request, body: Option<seq<Bytes>>, opts: Options, urlOk: string -> bool)
    requires RequestHead(env, body.Some?, opts).Some? && Returnable(env, body, opts, urlOk)
    ensures var h := RequestHead(env, body.Some?, opts).value;
            var t := SplitTarget(env.url, opts).value;
            var chunked := body.Some? && h.declared.None?;
            RequestFramed(StartOf(env, t.target), SentRequest(env, t.authority, chunked), opts, urlOk)
            == Some((Returned(env, body.Some?, opts), FramingOf(h.declared, chunked)))
  {
    var h := RequestHead(env, body.Some?, opts).value;
    var t := SplitTarget(env.url, opts).value;
    var chunked := body.Some? && h.declared.None?;
    TargetIsSlash(env.url, opts);
    hide SplitTarget, Without, Declared, Sent, ParseRequestLine, UrlOf, ResolveFraming, ValidHost, IsToken, ValidTarget, EncodeHeaderLines, Trimmable;
    StartBack(env, t.target);
    UrlBack(env, t, chunked, opts, urlOk);
    RequestFraming(env, t.authority, chunked, h.declared);
  }

  lemma RequestHeadSize(env: Request, hasBody: bool, opts: Options)
    requires RequestHead(env, hasBody, opts).Some?
    ensures |RequestHead(env, hasBody, opts).value.bytes| >= 15
  {
    hide SplitTarget, Without, Declared, Sent, IsToken, HeaderLines;
    RequestText(env, hasBody, opts);
  }

  /** For every re-chunking of what the encoder sent, the decoder yields the same request and the same body. */
  lemma RequestRoundTrip(env: Request, body: Option<seq<Bytes>>, opts: Options, urlOk: string -> bool, wire: seq<Bytes>)
    requires RequestBytes(env, body, opts) == Some(Flatten(wire)) && Returnable(env, body, opts, urlOk)
    ensures ReadRequest(Flatten(wire), opts, urlOk)
            == Incoming(Returned(env, body.Some?, opts), Whole(BodyOf(body), [], true))
  {
    hide RequestHead, ReadRequest, Returned, BodyBytes, ReadBody, FramingOf, BodyOf, Trimmable, ValidHost, SplitTarget;
    var h := RequestHead(env, body.Some?, opts).value;
    RequestHeadBack(env, body, opts, urlOk, BodyBytes(body, h.declared).value);
    RequestHeadSize(env, body.Some?, opts);
    BodyBack(body, h.declared, opts.maxHeaderBytes, false);
  }

  /** The same over the two methods: what one end encoded, the other decodes to its end. */
  method ReceiveRequest(env: Request, body: Option<seq<Bytes>>, opts: Options, urlOk: string -> bool, wire: seq<Bytes>)
    returns (envelope: Option<Request>, got: seq<Bytes>, ok: bool)
    requires RequestBytes(env, body, opts) == Some(Flatten(wire)) && Returnable(env, body, opts, urlOk)
    ensures ok && envelope == Some(Returned(env, body.Some?, opts)) && Flatten(got) == BodyOf(body)
  {
    hide RequestBytes, ReadRequest, Returned, BodyOf, Returnable, RequestOf;
    envelope, got, ok := DecodeRequest(wire, opts, urlOk);
    assert AllOf(Feed([], wire)) == Flatten(wire);
    RequestAll(Feed([], wire), opts, urlOk);
    RequestRoundTrip(env, body, opts, urlOk, wire);
  }

  // ----- responses -----

  function StatusStart(env: Response): string
    requires 100 <= env.status <= 599
  {
    "HTTP/1.1 " + StatusDigits(env.status) + " " + env.statusText
  }

  function SentResponse(env: Response, chunked: bool): seq<Header> {
    Sent([], Without(env.headers, ResponseOwned(env.status)), chunked)
  }

  predicate SendsChunked(env: Response, hasBody: bool, verb: string, declared: Option<nat>) {
    !(BodylessStatus(env.status) || HeadMethod(verb)) && hasBody && declared.None?
  }

  lemma ResponseText(env: Response, hasBody: bool, verb: string)
    requires ResponseHead(env, hasBody, verb).Some?
    ensures var h := ResponseHead(env, hasBody, verb).value;
            var text := StatusStart(env) + "\r\n" + HeaderLines(SentResponse(env, SendsChunked(env, hasBody, verb, h.declared))) + "\r\n";
            Latin1(text) && h.bytes == ToBytes(text)
  {
    hide Without, Declared, HeaderLines, Sent, BodylessStatus, HeadMethod, StatusDigits, Plain;
    var h := ResponseHead(env, hasBody, verb).value;
    var chunked := SendsChunked(env, hasBody, verb, h.declared);
    var carried := Without(env.headers, ResponseOwned(env.status));
    SentLines([], carried, chunked);
    NoLines();
    var tail := if chunked then "Transfer-Encoding: chunked\r\n" else "";
    assert "" + HeaderLines(carried) == HeaderLines(carried);
    ResponseJoins(StatusStart(env), HeaderLines(carried), "Connection: close\r\n", tail);
  }

  lemma NoLines()
    ensures HeaderLines([]) == ""
  {
  }

  lemma ResponseJoins(start: string, lines: string, close: string, tail: string)
    ensures start + "\r\n" + lines + close + tail + "\r\n" == start + "\r\n" + (lines + close + tail) + "\r\n"
  {
  }

  lemma StatusBack(status: int)
    requires 100 <= status <= 599
    ensures var d := StatusDigits(status); |d| == 3 && AllDigits(d) && DecimalValue(d) == status && ' ' !in d
  {
    var d := StatusDigits(status);
    assert d[..2] == [d[0], d[1]] && d[..2][..1] == [d[0]] && d[..2][..1][..0] == [];
    assert DecimalValue([d[0]]) == status / 100 by { assert [d[0]][..0] == []; }
    assert DecimalValue(d[..2]) == status / 10;
  }

  lemma StatusLineBack(env: Response)
    requires 100 <= env.status <= 599 && Plain(env.statusText)
    ensures Plain(StatusStart(env))
    ensures ParseStatusLine(StatusStart(env)) == Some(StatusLine("HTTP/1.1", env.status, env.statusText))
  {
    var line := StatusStart(env);
    var version := "HTTP/1.1";
    var d := StatusDigits(env.status);
    StatusBack(env.status);
    var behind := d + [' '] + env.statusText;
    assert line == version + [' '] + behind;
    assert ' ' !in version;
    hide StatusDigits, DecimalValue;
    IndexOfAt(version, ' ', behind);
    IndexOfAt(d, ' ', env.statusText);
    assert line[..8] == version && line[9..] == behind;
    assert behind[..3] == d && behind[4..] == env.statusText;
    hide IndexOf;
  }

  lemma ResponseFraming(env: Response, chunked: bool, declared: Option<nat>)
    requires Declared(Without(env.headers, ResponseOwned(env.status))) == Some(declared) && (chunked ==> declared == None)
    ensures ResolveFraming(SentResponse(env, chunked), "HTTP/1.1") == Some(FramingOf(declared, chunked))
  {
    hide Lower, ResolveFraming, Sent, Declared, BodylessStatus;
    assert RESPONSE_OWNED[1] == "transfer-encoding" && ResponseOwned(env.status)[1] == "transfer-encoding";
    SentFraming([], env.headers, ResponseOwned(env.status), chunked, declared);
  }

  lemma ResponseTop(env: Response, hasBody: bool, opts: Options, verb: string, rest: Bytes)
    requires ResponseHead(env, hasBody, verb).Some? && Trimmable(Without(env.headers, ResponseOwned(env.status)))
    requires |ResponseHead(env, hasBody, verb).value.bytes| <= opts.maxHeaderBytes
    ensures var h := ResponseHead(env, hasBody, verb).value;
            ReadTop(h.bytes + rest, opts.maxHeaderBytes)
            == Top(StatusStart(env), SentResponse(env, SendsChunked(env, hasBody, verb, h.declared)), rest)
  {
    var h := ResponseHead(env, hasBody, verb).value;
    var chunked := SendsChunked(env, hasBody, verb, h.declared);
    hide ReadTop, HeaderLines, LinesSize, Sent, AllGood, GoodHeader, NoOuterBlank, Trimmable, Without, Declared, Plain, SendsChunked, StatusStart, BodylessStatus, HeadMethod;
    ResponseText(env, hasBody, verb);
    StatusLineBack(env);
    SentIsGood([], env.headers, ResponseOwned(env.status), chunked);
    LinesAreSize(SentResponse(env, chunked));
    TopBack(StatusStart(env), SentResponse(env, chunked), rest, opts.maxHeaderBytes);
  }

  ghost predicate ResponseReturnable(env: Response, body: Option<seq<Bytes>>, opts: Options, verb: string)
    requires ResponseHead(env, body.Some?, verb).Some?
  {
    && Trimmable(Without(env.headers, ResponseOwned(env.status)))
    && |ResponseHead(env, body.Some?, verb).value.bytes| <= opts.maxHeaderBytes
    && (body.Some? ==> SafeSizes(body.value))
  }

  ghost function ReturnedResponse(env: Response, hasBody: bool, verb: string): Response
    requires ResponseHead(env, hasBody, verb).Some?
  {
    Response(env.status, env.statusText,
             SentResponse(env, SendsChunked(env, hasBody, verb, ResponseHead(env, hasBody, verb).value.declared)))
  }

  lemma ResponseHeadBack(env: Response, body: Option<seq<Bytes>>, opts: Options, verb: string, rest: Bytes)
    requires ResponseHead(env, body.Some?, verb).Some? && ResponseReturnable(env, body, opts, verb)
    ensures var h := ResponseHead(env, body.Some?, verb).value;
            var framing := if Bodyless(env, verb) then Bare else FramingOf(h.declared, body.Some? && h.declared.None?);
            ReadResponse(h.bytes + rest, opts, verb)
            == Incoming(ReturnedResponse(env, body.Some?, verb), ReadBody(rest, framing, opts.maxHeaderBytes, !Bodyless(env, verb)))
  {
    ResponseTop(env, body.Some?, opts, verb, rest);
    ResponseFramedBack(env, body, opts, verb);
    hide ResponseHead, ReadTop, ReadBody, ResponseFramed, FramingOf, SendsChunked, StatusStart, BodylessStatus, HeadMethod;
  }

  lemma ResponseFramedBack(env: Response, body: Option<seq<Bytes>>, opts: Options, verb: string)
    requires ResponseHead(env, body.Some?, verb).Some? && ResponseReturnable(env, body, opts, verb)
    ensures var h := ResponseHead(env, body.Some?, verb).value;
            var framing := if Bodyless(env, verb) then Bare else FramingOf(h.declared, body.Some? && h.declared.None?);
            ResponseFramed(StatusStart(env), SentResponse(env, SendsChunked(env, body.Some?, verb, h.declared)), verb)
            == Some((ReturnedResponse(env, body.Some?, verb), framing))
  {
    var h := ResponseHead(env, body.Some?, verb).value;
    hide Without, Declared, Sent, ParseStatusLine, ResolveFraming, EncodeHeaderLines, Plain, StatusStart, BodylessStatus, HeadMethod, Trimmable;
    StatusLineBack(env);
    ResponseFraming(env, SendsChunked(env, body.Some?, verb, h.declared), h.declared);
  }

  lemma ResponseHeadSize(env: Response, hasBody: bool, verb: string)
    requires ResponseHead(env, hasBody, verb).Some?
    ensures |ResponseHead(env, hasBody, verb).value.bytes| >= 15
  {
    hide Without, Declared, Sent, HeaderLines, BodylessStatus, HeadMethod, Plain;
    ResponseText(env, hasBody, verb);
    assert |StatusStart(env)| >= 13;
  }

  function AnswerOf(env: Response, body: Option<seq<Bytes>>, verb: string): Bytes {
    if Silent(env.status, verb) then [] else BodyOf(body)
  }

  /** For every re-chunking of a response, the decoder yields the same status, reason, headers and body. */
  lemma ResponseRoundTrip(env: Response, body: Option<seq<Bytes>>, opts: Options, verb: string, wire: seq<Bytes>)
    requires ResponseBytes(env, body, verb) == Some(Flatten(wire)) && ResponseReturnable(env, body, opts, verb)
    ensures ReadResponse(Flatten(wire), opts, verb)
            == Incoming(ReturnedResponse(env, body.Some?, verb), Whole(AnswerOf(env, body, verb), [], true))
  {
    hide ResponseHead, ReadResponse, ReturnedResponse, BodyBytes, FramingOf, BodyOf, Trimmable, BodylessStatus, HeadMethod, ReadChunks;
    var h := ResponseHead(env, body.Some?, verb).value;
    SilentExactly(env, verb);
    hide Silent;
    ResponseHeadSize(env, body.Some?, verb);
    if Bodyless(env, verb) {
      ResponseHeadBack(env, body, opts, verb, []);
      assert h.bytes + [] == h.bytes;
    } else {
      ResponseHeadBack(env, body, opts, verb, BodyBytes(body, h.declared).value);
      BodyBack(body, h.declared, opts.maxHeaderBytes, true);
    }
  }

  method ReceiveResponse(env: Response, body: Option<seq<Bytes>>, opts: Options, verb: string, wire: seq<Bytes>)
    returns (envelope: Option<Response>, got: seq<Bytes>, ok: bool)
    requires ResponseBytes(env, body, verb) == Some(Flatten(wire)) && ResponseReturnable(env, body, opts, verb)
    ensures ok && envelope == Some(ReturnedResponse(env, body.Some?, verb)) && Flatten(got) == AnswerOf(env, body, verb)
  {
    hide ResponseBytes, ReadResponse, ReturnedResponse, AnswerOf, ResponseReturnable, ResponseOf;
    envelope, got, ok := DecodeResponse(wire, opts, verb);
    assert AllOf(Feed([], wire)) == Flatten(wire);
    ResponseAll(Feed([], wire), opts, verb);
    ResponseRoundTrip(env, body, opts, verb, wire);
  }
}
