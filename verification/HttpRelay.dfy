/** Targets cut verbatim out of URLs, and relays: what was decoded is clean, and can be sent on. */
module HttpRelay {
  import opened Basics
  import opened HttpBytes
  import opened HttpText
  import opened HttpFraming
  import opened HttpChunked
  import opened HttpCodec
  import opened HttpTrips

  // ----- targets -----

  predicate Scheme(s: string) { s != [] && Alpha(s[0]) && forall i :: 0 <= i < |s| ==> SchemeChar(s[i]) }

  lemma {:induction false} FirstOfAt(s: string, stops: string, rest: string)
    requires forall i :: 0 <= i < |s| ==> s[i] !in stops
    requires rest != [] ==> rest[0] in stops
    ensures FirstOf(s + rest, stops) == |s|
  {
    if s == [] {
      assert s + rest == rest;
    } else {
      assert (s + rest)[1..] == s[1..] + rest;
      FirstOfAt(s[1..], stops, rest);
    }
  }

  /** A host is letters, digits and a little punctuation: nothing that ends an authority. */
  lemma HostStops(v: string)
    requires ValidHost(v)
    ensures forall i :: 0 <= i < |v| ==> v[i] !in "/?#" && v[i] != '@'
  {
    hide PortPart;
    if n :| 1 <= n <= |v| && (forall i :: 0 <= i < n ==> HostChar(v[i])) && PortPart(v[n..]) {
      PortStops(v, n);
    } else {
      var n :| 3 <= n <= |v| && v[0] == '[' && v[n - 1] == ']' && (forall i :: 1 <= i < n - 1 ==> LiteralChar(v[i])) && PortPart(v[n..]);
      PortStops(v, n);
    }
  }

  lemma PortStops(v: string, n: nat)
    requires n <= |v| && PortPart(v[n..])
    ensures forall i :: n <= i < |v| ==> v[i] !in "/?#" && v[i] != '@'
  {
    var port := v[n..];
    forall i | n <= i < |v| ensures v[i] !in "/?#" && v[i] != '@' {
      assert v[i] == port[i - n];
      if i > n { assert Digit(port[1..][i - n - 1]); }
    }
  }

  lemma {:induction false} AfterAtNone(s: string)
    requires '@' !in s
    ensures AfterAt(s) == s
  {
    assert IndexOf(s, '@') == |s|;
  }

  /** Credentials, whatever they hold, are left behind. */
  lemma {:induction false} AfterAtBack(user: string, host: string)
    requires '@' !in host
    ensures AfterAt(user + ['@'] + host) == host
    decreases |user|
  {
    var s := user + ['@'] + host;
    var at := IndexOf(user, '@');
    if at == |user| {
      IndexOfAt(user, '@', host);
      assert s[|user| + 1..] == host;
      AfterAtNone(host);
    } else {
      var left, right := user[..at], user[at + 1..];
      assert s == left + ['@'] + (right + ['@'] + host);
      IndexOfAt(left, '@', right + ['@'] + host);
      assert s[at + 1..] == right + ['@'] + host;
      AfterAtBack(right, host);
    }
  }

  lemma SchemeFirst(scheme: string, behind: string)
    requires Scheme(scheme)
    ensures var url := scheme + "://" + behind;
            AbsoluteForm(url) && IndexOf(url, ':') == |scheme| && url[|scheme| + 3..] == behind && url[0] != '/'
  {
    var url := scheme + "://" + behind;
    assert ':' !in scheme by { assert !SchemeChar(':'); }
    assert url == scheme + [':'] + ("//" + behind);
    IndexOfAt(scheme, ':', "//" + behind);
    assert url[|scheme| + 1] == '/' && url[|scheme| + 2] == '/';
    assert url[0] == scheme[0];
  }

  /** `user@`, or nothing. */
  function UserPart(user: Option<string>): string { if user.Some? then user.value + "@" else "" }

  lemma AuthorityBack(user: Option<string>, host: string, target: string)
    requires ValidHost(host) && target != [] && target[0] == '/'
    requires user.Some? ==> forall i :: 0 <= i < |user.value| ==> user.value[i] !in "/?#"
    ensures FirstOf(UserPart(user) + host + target, "/?#") == |UserPart(user) + host|
    ensures AfterAt(UserPart(user) + host) == host
  {
    hide ValidHost;
    HostStops(host);
    FirstOfAt(UserPart(user) + host, "/?#", target);
    if user.Some? {
      assert UserPart(user) + host == user.value + ['@'] + host;
      AfterAtBack(user.value, host);
    } else {
      assert "" + host == host;
      AfterAtNone(host);
    }
  }

  /** Path and query are a verbatim slice of the URL; the host is named without credentials, the fragment dropped. */
  lemma AbsoluteSplits(scheme: string, user: Option<string>, host: string, target: string, fragment: string, opts: Options)
    requires Scheme(scheme) && ValidHost(host)
    requires user.Some? ==> forall i :: 0 <= i < |user.value| ==> user.value[i] !in "/?#"
    requires ValidTarget(target) && target != [] && target[0] == '/' && '#' !in target
    requires fragment != [] ==> fragment[0] == '#'
    ensures SplitTarget(scheme + "://" + (UserPart(user) + host + (target + fragment)), opts) == Some(Target(target, host))
  {
    hide ValidHost, AbsoluteForm;
    var front := UserPart(user) + host;
    var behind := front + (target + fragment);
    SchemeFirst(scheme, behind);
    AuthorityBack(user, host, target + fragment);
    assert behind[..|front|] == front && behind[|front|..] == target + fragment;
    FirstOfAt(target, "#", fragment);
    assert (target + fragment)[..|target|] == target;
    HostNotEmpty(host);
    hide FirstOf, AfterAt, IndexOf, ValidTarget, UserPart;
  }

  lemma HostNotEmpty(host: string)
    requires ValidHost(host)
    ensures host != []
  {
  }

  /** So a URL of the configured scheme comes back as it was given. */
  lemma UrlComesBack(opts: Options, host: string, target: string)
    requires Scheme(opts.scheme) && ValidHost(host) && ValidTarget(target) && target != [] && target[0] == '/' && '#' !in target
    ensures SplitTarget(opts.scheme + "://" + host + target, opts) == Some(Target(target, host))
  {
    hide ValidHost, ValidTarget, SplitTarget, Scheme;
    AbsoluteSplits(opts.scheme, None, host, target, "", opts);
    assert opts.scheme + "://" + ("" + host + (target + "")) == opts.scheme + "://" + host + target;
  }

  /**
   Whatever the URL and the method, an accepted request puts one request line on
   the wire, of exactly three fields: neither can add a space or end the line.
   */
  lemma OneRequestLine(env: Request, hasBody: bool, opts: Options, rest: Bytes)
    requires RequestHead(env, hasBody, opts).Some?
    ensures var h, line := RequestHead(env, hasBody, opts).value.bytes, NextLine(RequestHead(env, hasBody, opts).value.bytes + rest,
                                                                                 |RequestHead(env, hasBody, opts).value.bytes|);
            line.Line? && Split(FromBytes(line.text), ' ') == [env.verb, SplitTarget(env.url, opts).value.target, "HTTP/1.1"]
  {
    var t := SplitTarget(env.url, opts).value;
    var h := RequestHead(env, hasBody, opts).value;
    var start := StartOf(env, t.target);
    var lines := HeaderLines(SentRequest(env, t.authority, hasBody && h.declared.None?));
    RequestText(env, hasBody, opts);
    TargetIsSlash(env.url, opts);
    hide SplitTarget, Without, Declared, HeaderLines, Sent, IsToken, NextLine;
    StartBack(env, t.target);
    PlainLatin1(start);
    LinesAreLatin1(start, lines);
    HeadBytes(start, lines, rest);
    TextBack(start);
    LineBack(ToBytes(start), ToBytes(lines) + [CR, LF] + rest, |h.bytes|);
  }

  lemma LinesAreLatin1(start: string, lines: string)
    requires Latin1(start + "\r\n" + lines + "\r\n")
    ensures Latin1(lines)
  {
    var all := start + "\r\n" + lines + "\r\n";
    forall i | 0 <= i < |lines| ensures lines[i] as int < 256 {
      assert all[|start| + 2 + i] == lines[i];
    }
  }

  // ----- relays -----

  lemma {:induction false} TrimLeftFirst(s: string)
    ensures var t := TrimLeft(s); t == [] || !Blank(t[0])
  {
    if s != [] && Blank(s[0]) { TrimLeftFirst(s[1..]); }
  }

  lemma {:induction false} TrimRightLast(s: string)
    ensures var t := TrimRight(s); t == [] || (!Blank(t[|t| - 1]) && t[0] == s[0])
  {
    if s != [] && Blank(s[|s| - 1]) { TrimRightLast(s[..|s| - 1]); }
  }

  lemma ParsedIsTrim(line: string)
    requires ParseHeader(line).Some?
    ensures GoodHeader(ParseHeader(line).value) && NoOuterBlank(ParseHeader(line).value.value)
  {
    var value := line[IndexOf(line, ':') + 1..];
    TrimLeftFirst(value);
    TrimRightLast(TrimLeft(value));
    hide IsToken, Plain, TrimLeft, TrimRight, IndexOf;
  }

  lemma {:induction false} ReadIsClean(b: Bytes, max: int, used: int)
    requires ReadHeaders(b, max, used).Parsed?
    ensures AllGood(ReadHeaders(b, max, used).value)
    decreases |b|
  {
    hide NextLine, ParseHeader, GoodHeader, NoOuterBlank;
    LineIsPart(b, max - used);
    match NextLine(b, max - used)
    case Line(line, rest) =>
      if line != [] {
        ParsedIsTrim(FromBytes(line));
        ReadIsClean(rest, max, used + |line| + 2);
        var h, more := ParseHeader(FromBytes(line)).value, ReadHeaders(rest, max, used + |line| + 2).value;
        assert ([h] + more)[1..] == more;
      }
    case _ =>
  }

  /**
   Whatever bytes arrive, a decoded request's method is a token, its headers are
   tokens with trimmed values free of control characters.
   */
  lemma DecodedIsClean(b: Bytes, opts: Options, urlOk: string -> bool)
    requires ReadRequest(b, opts, urlOk).Incoming?
    ensures var e := ReadRequest(b, opts, urlOk).envelope; IsToken(e.verb) && AllGood(e.headers) && urlOk(e.url)
  {
    hide NextLine, ReadHeaders, AllGood, ResolveFraming, ReadBody, IsToken, ValidTarget, ValidHost, GetAll, AbsoluteForm;
    var max := opts.maxHeaderBytes;
    match NextLine(b, max)
    case Line(text, rest) => ReadIsClean(rest, max, |text| + 2);
    case _ =>
  }

  lemma {:induction false} CarriedIsGood(hs: seq<Header>, names: seq<string>)
    requires AllGood(hs)
    ensures AllGood(Without(hs, names))
  {
    hide GoodHeader, NoOuterBlank, Named;
    if hs != [] {
      CarriedIsGood(hs[1..], names);
      var rest := Without(hs[1..], names);
      assert ([hs[0]] + rest)[1..] == rest;
      assert [] + rest == rest;
    }
  }

  lemma {:induction false} GoodEach(hs: seq<Header>)
    requires AllGood(hs)
    ensures EncodeHeaderLines(hs).Some? && Trimmable(hs)
  {
    hide GoodHeader, NoOuterBlank, HeaderLines;
    if hs != [] {
      GoodEach(hs[1..]);
      forall i | 0 <= i < |hs| ensures GoodHeader(hs[i]) && NoOuterBlank(hs[i].value) {
        if i > 0 { assert hs[i] == hs[1..][i - 1]; }
      }
    }
  }

  /** The header a decoder framed a body by is one an encoder can declare. */
  lemma StillDeclares(headers: seq<Header>, version: string)
    requires ResolveFraming(headers, version).Some?
    ensures Declared(Without(headers, REQUEST_OWNED)).Some?
  {
    hide Lower, GetAll, Without, Codings, Pieces;
    Names();
    WithoutGets(headers, REQUEST_OWNED, "content-length");
  }

  /** A decoded request in origin form, as its bytes show it. */
  ghost predicate Originated(b: Bytes, opts: Options, urlOk: string -> bool, target: string, host: string) {
    && ReadRequest(b, opts, urlOk).Incoming?
    && ReadRequest(b, opts, urlOk).envelope.url == opts.scheme + "://" + host + target
    && ValidHost(host) && ValidTarget(target) && target != [] && target[0] == '/' && '#' !in target
  }

  /** That is every decoded request with a path for a target, its host given or configured, and no fragment. */
  lemma OriginIs(b: Bytes, opts: Options, urlOk: string -> bool)
    requires ReadRequest(b, opts, urlOk).Incoming?
    requires var top := ReadTop(b, opts.maxHeaderBytes); var t := ParseRequestLine(top.line).value.target;
             && t != [] && t[0] == '/' && '#' !in t && (GetAll(top.headers, "host") == [] ==> ValidHost(opts.host))
    ensures var top := ReadTop(b, opts.maxHeaderBytes); var hosts := GetAll(top.headers, "host");
            Originated(b, opts, urlOk, ParseRequestLine(top.line).value.target, if hosts == [] then opts.host else hosts[0])
  {
    hide ReadTop, ResolveFraming, ReadBody, GetAll, ValidHost, ValidTarget, IsToken, Split;
  }

  /** What was decoded in origin form can be sent on: the head is accepted, with target and host as they came. */
  lemma RelayAccepts(b: Bytes, opts: Options, urlOk: string -> bool, target: string, host: string, hasBody: bool)
    requires Originated(b, opts, urlOk, target, host) && Scheme(opts.scheme)
    ensures var e := ReadRequest(b, opts, urlOk).envelope;
            && SplitTarget(e.url, opts) == Some(Target(target, host))
            && RequestHead(e, hasBody, opts).Some? && Trimmable(Carried(e))
  {
    var e := ReadRequest(b, opts, urlOk).envelope;
    DecodedIsClean(b, opts, urlOk);
    UrlComesBack(opts, host, target);
    RelayDeclares(b, opts, urlOk);
    CarriedIsGood(e.headers, REQUEST_OWNED);
    GoodEach(Carried(e));
    LinesLatin1(Carried(e));
    HostIsPlain(host);
    HeadIsLatin1(e.verb, target, host, HeaderLines(Carried(e)));
    hide ReadRequest, SplitTarget, Declared, Without, ValidHost, ValidTarget, IsToken, GoodHeader, NoOuterBlank, HeaderLines, AllGood, Scheme, Latin1;
  }

  lemma RelayDeclares(b: Bytes, opts: Options, urlOk: string -> bool)
    requires ReadRequest(b, opts, urlOk).Incoming?
    ensures Declared(Carried(ReadRequest(b, opts, urlOk).envelope)).Some?
  {
    hide ReadTop, ParseRequestLine, UrlOf, ResolveFraming, ReadBody, Declared, Without;
    var top := ReadTop(b, opts.maxHeaderBytes);
    StillDeclares(top.headers, ParseRequestLine(top.line).value.version);
  }

  lemma HeadIsLatin1(verb: string, target: string, host: string, lines: string)
    requires IsToken(verb) && ValidTarget(target) && Latin1(lines)
    requires forall i :: 0 <= i < |host| ==> '!' <= host[i] <= '~'
    ensures Latin1(verb + " " + target + " HTTP/1.1\r\n" + ("Host: " + host + "\r\n") + lines
                   + "Connection: close\r\n" + "Transfer-Encoding: chunked\r\n" + "\r\n")
    ensures Latin1(verb + " " + target + " HTTP/1.1\r\n" + ("Host: " + host + "\r\n") + lines + "Connection: close\r\n" + "" + "\r\n")
  {
    TokenPlain(verb);
    PlainLatin1(verb);
    hide IsToken, Plain;
  }

  /**
   A relay that decodes a request and sends it on, under a body of its own
   framing, delivers the same method and URL and every header the codec does
   not own, for every re-chunking on the way.
   */
  lemma RelayKeeps(b: Bytes, opts: Options, urlOk: string -> bool, target: string, host: string, body: Option<seq<Bytes>>, wire: seq<Bytes>, name: string)
    requires Originated(b, opts, urlOk, target, host) && Scheme(opts.scheme)
    requires RequestBytes(ReadRequest(b, opts, urlOk).envelope, body, opts) == Some(Flatten(wire))
    requires |RequestHead(ReadRequest(b, opts, urlOk).envelope, body.Some?, opts).value.bytes| <= opts.maxHeaderBytes
    requires body.Some? ==> SafeSizes(body.value)
    requires Lower(name) !in REQUEST_OWNED
    ensures var e, again := ReadRequest(b, opts, urlOk).envelope, ReadRequest(Flatten(wire), opts, urlOk);
            && again.Incoming? && again.body == Whole(BodyOf(body), [], true)
            && again.envelope.verb == e.verb && again.envelope.url == e.url
            && GetAll(again.envelope.headers, name) == GetAll(e.headers, name)
  {
    hide ReadRequest, RequestHead, SplitTarget, Without, GetAll, Sent, Lower, ValidHost, Scheme, Trimmable, BodyOf, BodyBytes, SafeSizes;
    var e := ReadRequest(b, opts, urlOk).envelope;
    DecodedIsClean(b, opts, urlOk);
    RelayAccepts(b, opts, urlOk, target, host, body.Some?);
    RequestRoundTrip(e, body, opts, urlOk, wire);
    var h := RequestHead(e, body.Some?, opts).value;
    KeptGets(e, host, body.Some? && h.declared.None?, name);
  }

  lemma KeptGets(e: Request, host: string, chunked: bool, name: string)
    requires Lower(name) !in REQUEST_OWNED
    ensures GetAll(SentRequest(e, host, chunked), name) == GetAll(e.headers, name)
  {
    Names();
    hide Lower, GetAll, Without, Sent;
    assert Lower(name) != "host" && Lower(name) != "connection" && Lower(name) != "transfer-encoding" by {
      assert REQUEST_OWNED[0] == "host" && REQUEST_OWNED[1] == "connection" && REQUEST_OWNED[2] == "transfer-encoding";
    }
    SentGets([Header("Host", host)], Carried(e), chunked, name);
    OneGet("Host", host, name);
    WithoutGets(e.headers, REQUEST_OWNED, name);
    assert [] + GetAll(e.headers, name) + [] == GetAll(e.headers, name);
  }
}
