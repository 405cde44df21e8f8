/** Printing and reading whole messages: one head, then one body under the framing the head asks for. */
module HttpCodec {
  import opened Basics
  import opened HttpBytes
  import opened HttpText
  import opened HttpFraming
  import opened HttpNames
  import opened HttpChunked

  datatype Options = Options(scheme: string, host: string, maxHeaderBytes: int)

  datatype Request = Request(verb: string, url: string, headers: seq<Header>)
  datatype Response = Response(status: int, statusText: string, headers: seq<Header>)

  const REQUEST_OWNED: seq<string> := ["host", "connection", "transfer-encoding"]
  const RESPONSE_OWNED: seq<string> := ["connection", "transfer-encoding"]

  const CLOSE := Header("Connection", "close")
  const CHUNKED := Header("Transfer-Encoding", "chunked")

  // ----- targets -----

  predicate SchemeChar(c: char) { Alpha(c) || Digit(c) || c in "+.-" }

  /** `scheme://` at the front. */
  predicate AbsoluteForm(s: string) {
    var c := IndexOf(s, ':');
    1 <= c && c + 2 < |s| && s[c + 1] == '/' && s[c + 2] == '/' && Alpha(s[0]) && forall i :: 0 <= i < c ==> SchemeChar(s[i])
  }

  function FirstOf(s: string, stops: string): (i: nat)
    ensures i <= |s|
  {
    if s == [] || s[0] in stops then 0 else 1 + FirstOf(s[1..], stops)
  }

  /** Without the user information. */
  function AfterAt(s: string): string
    decreases |s|
  {
    var at := IndexOf(s, '@');
    if at == |s| then s else AfterAt(s[at + 1..])
  }

  datatype Target = Target(target: string, authority: string)

  /** A verbatim slice of the URL, and the host it names. */
  function SplitTarget(url: string, opts: Options): Option<Target> {
    if url != [] && url[0] == '/' then
      if ValidTarget(url) then Some(Target(url, opts.host)) else None
    else if !AbsoluteForm(url) then None
    else
      var behind := url[IndexOf(url, ':') + 3..];
      var end := FirstOf(behind, "/?#");
      var authority := AfterAt(behind[..end]);
      var raw := behind[end..][..FirstOf(behind[end..], "#")];
      var target := if raw != [] && raw[0] == '/' then raw else "/" + raw;
      if end == 0 || !ValidHost(authority) || !ValidTarget(target) then None
      else Some(Target(target, authority))
  }

  // ----- printing -----

  /** The head's bytes and the length it declares. */
  datatype Head = Head(bytes: Bytes, declared: Option<nat>)

  function Declared(carried: seq<Header>): Option<Option<nat>> {
    match ParseContentLength(GetAll(carried, "content-length"))
    case Absent => Some(None)
    case Exactly(n) => Some(Some(n))
    case Unreadable => None
  }

  function RequestHead(env: Request, hasBody: bool, opts: Options): Option<Head> {
    if !IsToken(env.verb) then None
    else match SplitTarget(env.url, opts)
      case None => None
      case Some(t) =>
        if t.authority == "" then None
        else
          var carried := Without(env.headers, REQUEST_OWNED);
          match Declared(carried)
          case None => None
          case Some(declared) =>
            match EncodeHeaderLines(carried)
            case None => None
            case Some(lines) =>
              var text := env.verb + " " + t.target + " HTTP/1.1\r\n" + ("Host: " + t.authority + "\r\n") + lines
                + "Connection: close\r\n" + (if hasBody && declared.None? then "Transfer-Encoding: chunked\r\n" else "") + "\r\n";
              if Latin1(text) then Some(Head(ToBytes(text), declared)) else None
  }

  function StatusDigits(status: int): string
    requires 100 <= status <= 599
  {
    [('0' as int + status / 100) as char, ('0' as int + status / 10 % 10) as char, ('0' as int + status % 10) as char]
  }

  predicate HeadMethod(verb: string) { Lower(verb) == "head" }

  predicate Bodyless(env: Response, verb: string) { BodylessStatus(env.status) || HeadMethod(verb) }

  /** Informational, 204 and 304 never have a body, and neither does an answer to HEAD. */
  predicate Silent(status: int, verb: string) {
    status <= 199 || status == 204 || status == 304 || SameName(verb, "HEAD")
  }

  lemma SilentExactly(env: Response, verb: string)
    ensures Bodyless(env, verb) <==> Silent(env.status, verb)
  {
    MatchedExactly(verb, "HEAD");
    assert Lower("HEAD") == "head";
  }

  function ResponseHead(env: Response, hasBody: bool, verb: string): Option<Head> {
    if !(100 <= env.status <= 599) || !Plain(env.statusText) then None
    else
      var bodyless := BodylessStatus(env.status) || HeadMethod(verb);
      var carried := Without(env.headers, ResponseOwned(env.status));
      match Declared(carried)
      case None => None
      case Some(declared) =>
        match EncodeHeaderLines(carried)
        case None => None
        case Some(lines) =>
          var text := "HTTP/1.1 " + StatusDigits(env.status) + " " + env.statusText + "\r\n" + lines + "Connection: close\r\n"
            + (if !bodyless && hasBody && declared.None? then "Transfer-Encoding: chunked\r\n" else "") + "\r\n";
          if Latin1(text) then Some(Head(ToBytes(text), declared)) else None
  }

  function ResponseOwned(status: int): seq<string> {
    if BodylessStatus(status) then RESPONSE_OWNED + ["content-length"] else RESPONSE_OWNED
  }

  /** The body's bytes; `None` where the head's promise is not kept. */
  function BodyBytes(body: Option<seq<Bytes>>, declared: Option<nat>): Option<Bytes> {
    match body
    case None => if declared.None? || declared == Some(0) then Some([]) else None
    case Some(chunks) =>
      if declared.None? then Some(ChunkedBytes(chunks))
      else if |Flatten(chunks)| == declared.value then Some(Flatten(chunks))
      else None
  }

  function Joined(head: Option<Head>, bodyless: bool, body: Option<seq<Bytes>>): Option<Bytes> {
    match head
    case None => None
    case Some(h) =>
      if bodyless then Some(h.bytes)
      else match BodyBytes(body, h.declared)
        case None => None
        case Some(b) => Some(h.bytes + b)
  }

  function RequestBytes(env: Request, body: Option<seq<Bytes>>, opts: Options): Option<Bytes> {
    Joined(RequestHead(env, body.Some?, opts), false, body)
  }

  function ResponseBytes(env: Response, body: Option<seq<Bytes>>, verb: string): Option<Bytes> {
    Joined(ResponseHead(env, body.Some?, verb), BodylessStatus(env.status) || HeadMethod(verb), body)
  }

  /** What is sent so far, the next chunk, and the rest. */
  lemma NextChunk(out: seq<Bytes>, body: seq<Bytes>, i: nat)
    requires i < |body|
    ensures Flatten(out) + Flatten(body[i..]) == Flatten(out) + body[i] + Flatten(body[i + 1..])
    ensures |Flatten(body[i..])| == |body[i]| + |Flatten(body[i + 1..])|
    ensures body[i] == [] ==> Flatten(body[i..]) == Flatten(body[i + 1..])
  {
    assert body[i..][1..] == body[i + 1..];
    assert Flatten(body[i..]) == body[i] + Flatten(body[i + 1..]);
    hide Flatten;
  }

  /** Counts what it sends against the declared length, and fails as soon as it is passed. */
  method EmitBody(body: seq<Bytes>, declared: Option<nat>) returns (out: seq<Bytes>, ok: bool)
    ensures match BodyBytes(Some(body), declared)
            case None => !ok && Flatten(out) <= Flatten(body) && |Flatten(out)| <= declared.value
            case Some(b) => ok && Flatten(out) == b
  {
    if declared.None? {
      out := EncodeChunked(body);
      return out, true;
    }
    var sent: nat := 0;
    out := [];
    assert [] + Flatten(body) == Flatten(body);
    for i := 0 to |body|
      invariant Flatten(out) + Flatten(body[i..]) == Flatten(body) && |Flatten(out)| == sent <= declared.value
    {
      var chunk := body[i];
      NextChunk(out, body, i);
      hide Flatten;
      if chunk == [] { continue; }
      sent := sent + |chunk|;
      if sent > declared.value { return out, false; }
      FlattenSnoc(out, chunk);
      out := out + [chunk];
    }
    assert body[|body|..] == [] && Flatten(out) + [] == Flatten(out);
    ok := sent == declared.value;
  }

  method SendHead(head: Option<Head>, bodyless: bool, body: Option<seq<Bytes>>) returns (out: seq<Bytes>, ok: bool)
    ensures match Joined(head, bodyless, body)
            case None => !ok && (out == [] <==> head == None)
            case Some(b) => ok && Flatten(out) == b
  {
    if head.None? { return [], false; }
    out := [head.value.bytes];
    assert Flatten(out) == head.value.bytes;
    if bodyless { return out, true; }
    if body.None? {
      assert head.value.bytes + [] == head.value.bytes;
      return out, head.value.declared.None? || head.value.declared == Some(0);
    }
    var more, fine := EmitBody(body.value, head.value.declared);
    FlattenAppend(out, more);
    return out + more, fine;
  }

  /** Builds the head piece by piece; a refusal leaves nothing to send. */
  method PrintRequestHead(env: Request, hasBody: bool, opts: Options) returns (r: Option<Head>)
    ensures r == RequestHead(env, hasBody, opts)
  {
    hide SplitTarget, Without, Declared, HeaderLines, ToBytes, Latin1, GoodHeader, IsToken;
    if !IsToken(env.verb) { return None; }
    var t := SplitTarget(env.url, opts);
    if t.None? || t.value.authority == "" { return None; }
    var carried := Without(env.headers, REQUEST_OWNED);
    var declared := Declared(carried);
    if declared.None? { return None; }
    var head := env.verb + " " + t.value.target + " HTTP/1.1\r\n";
    head := head + ("Host: " + t.value.authority + "\r\n");
    var lines := PrintHeaderLines(carried);
    if lines.None? { return None; }
    head := head + lines.value;
    head := head + "Connection: close\r\n";
    head := head + (if hasBody && declared.value.None? then "Transfer-Encoding: chunked\r\n" else "");
    head := head + "\r\n";
    return if Latin1(head) then Some(Head(ToBytes(head), declared.value)) else None;
  }

  method PrintResponseHead(env: Response, hasBody: bool, verb: string) returns (r: Option<Head>)
    ensures r == ResponseHead(env, hasBody, verb)
  {
    hide Without, Declared, HeaderLines, ToBytes, Latin1, GoodHeader, Plain, StatusDigits, BodylessStatus, HeadMethod;
    if !(100 <= env.status <= 599) || !Plain(env.statusText) { return None; }
    var bodyless := BodylessStatus(env.status) || HeadMethod(verb);
    var carried := Without(env.headers, ResponseOwned(env.status));
    var declared := Declared(carried);
    if declared.None? { return None; }
    var head := "HTTP/1.1 " + StatusDigits(env.status) + " " + env.statusText + "\r\n";
    var lines := PrintHeaderLines(carried);
    if lines.None? { return None; }
    head := head + lines.value;
    head := head + "Connection: close\r\n";
    head := head + (if !bodyless && hasBody && declared.value.None? then "Transfer-Encoding: chunked\r\n" else "");
    head := head + "\r\n";
    return if Latin1(head) then Some(Head(ToBytes(head), declared.value)) else None;
  }

  method EncodeRequest(env: Request, body: Option<seq<Bytes>>, opts: Options) returns (out: seq<Bytes>, ok: bool)
    ensures match RequestBytes(env, body, opts)
            case None => !ok && (out == [] <==> RequestHead(env, body.Some?, opts) == None)
            case Some(b) => ok && Flatten(out) == b
  {
    var head := PrintRequestHead(env, body.Some?, opts);
    out, ok := SendHead(head, false, body);
  }

  method EncodeResponse(env: Response, body: Option<seq<Bytes>>, verb: string) returns (out: seq<Bytes>, ok: bool)
    ensures match ResponseBytes(env, body, verb)
            case None => !ok && (out == [] <==> ResponseHead(env, body.Some?, verb) == None)
            case Some(b) => ok && Flatten(out) == b
    ensures ok ==> ResponseHead(env, body.Some?, verb).Some?
    ensures ok ==>
              var h := ResponseHead(env, body.Some?, verb).value;
              if Silent(env.status, verb) then Flatten(out) == h.bytes
              else BodyBytes(body, h.declared).Some? && Flatten(out) == h.bytes + BodyBytes(body, h.declared).value
  {
    SilentExactly(env, verb);
    var head := PrintResponseHead(env, body.Some?, verb);
    out, ok := SendHead(head, BodylessStatus(env.status) || HeadMethod(verb), body);
  }

  // ----- reading -----

  /** A message as it comes in: refused at the head, or its envelope and what draining its body gives. */
  datatype Incoming<E> = Unread | Incoming(envelope: E, body: Drained)

  datatype RequestLine = RequestLine(verb: string, target: string, version: string)

  function ParseRequestLine(line: string): Option<RequestLine> {
    var parts := Split(line, ' ');
    if |parts| != 3 || !IsToken(parts[0]) || !Version(parts[2]) || parts[1] == "*" || !ValidTarget(parts[1]) then None
    else Some(RequestLine(parts[0], parts[1], parts[2]))
  }

  /** The URL a request names; `urlOk` says which strings parse as one. */
  function UrlOf(line: RequestLine, headers: seq<Header>, opts: Options, urlOk: string -> bool): Option<string> {
    var hosts := GetAll(headers, "host");
    if |hosts| > 1 then None
    else if line.target != [] && line.target[0] == '/' then
      if hosts == [] && line.version == "HTTP/1.1" then None
      else if hosts != [] && !ValidHost(hosts[0]) then None
      else
        var url := opts.scheme + "://" + (if hosts == [] then opts.host else hosts[0]) + line.target;
        if urlOk(url) then Some(url) else None
    else if AbsoluteForm(line.target) && urlOk(line.target) then Some(line.target)
    else None
  }

  datatype StatusLine = StatusLine(version: string, status: int, text: string)

  function ParseStatusLine(line: string): Option<StatusLine> {
    var sp := IndexOf(line, ' ');
    if sp == |line| || !Version(line[..sp]) then None
    else
      var behind := line[sp + 1..];
      var next := IndexOf(behind, ' ');
      if next != 3 || !AllDigits(behind[..3]) then None
      else Some(StatusLine(line[..sp], DecimalValue(behind[..3]), if next == |behind| then "" else behind[4..]))
  }

  /** A start line and the header section behind it. */
  datatype Top = NoTop | Top(line: string, headers: seq<Header>, rest: Bytes)

  function ReadTop(b: Bytes, max: int): Top {
    match NextLine(b, max)
    case BadLine => NoTop
    case Loose(_, _) => NoTop
    case Line(text, rest) =>
      match ReadHeaders(rest, max, |text| + 2)
      case Refused => NoTop
      case Parsed(hs, last) => Top(FromBytes(text), hs, last)
  }

  function ReadBody(b: Bytes, framing: Framing, max: int, untilEnd: bool): Drained {
    match framing
    case Chunked => ReadChunks(b, max)
    case Sized(n) => if |b| < n then Broken else Whole(b[..n], b[n..], true)
    case Bare => if untilEnd then Whole(b, [], true) else Whole([], b, true)
  }

  /** The envelope and the body's framing, from a request's head. */
  function RequestFramed(text: string, headers: seq<Header>, opts: Options, urlOk: string -> bool): Option<(Request, Framing)> {
    match ParseRequestLine(text)
    case None => None
    case Some(line) =>
      match UrlOf(line, headers, opts, urlOk)
      case None => None
      case Some(url) =>
        match ResolveFraming(headers, line.version)
        case None => None
        case Some(framing) => Some((Request(line.verb, url, headers), framing))
  }

  /** ... and from a response's. */
  function ResponseFramed(text: string, headers: seq<Header>, verb: string): Option<(Response, Framing)> {
    match ParseStatusLine(text)
    case None => None
    case Some(line) =>
      var env := Response(line.status, line.text, headers);
      match if Bodyless(env, verb) then Some(Bare) else ResolveFraming(headers, line.version)
      case None => None
      case Some(framing) => Some((env, framing))
  }

  function ReadRequest(b: Bytes, opts: Options, urlOk: string -> bool): Incoming<Request> {
    match ReadTop(b, opts.maxHeaderBytes)
    case NoTop => Unread
    case Top(text, headers, rest) =>
      match RequestFramed(text, headers, opts, urlOk)
      case None => Unread
      case Some((e, framing)) => Incoming(e, ReadBody(rest, framing, opts.maxHeaderBytes, false))
  }

  function ReadResponse(b: Bytes, opts: Options, verb: string): Incoming<Response> {
    match ReadTop(b, opts.maxHeaderBytes)
    case NoTop => Unread
    case Top(text, headers, rest) =>
      match ResponseFramed(text, headers, verb)
      case None => Unread
      case Some((e, framing)) => Incoming(e, ReadBody(rest, framing, opts.maxHeaderBytes, !Bodyless(e, verb)))
  }

  // ----- reading as the chunks are pulled -----

  /** Draining a body: what was yielded, and whether it ended well, no byte of anything behind it buffered. */
  datatype Drain = Drain(out: Bytes, ok: bool)

  function DrainOf(f: Feed, framing: Framing, max: int, untilEnd: bool): Drain {
    match framing
    case Chunked => var r := ChunksOf(f, max); Drain(r.out, r.ok && r.next.buffer == [])
    case Sized(n) =>
      (TakenAll(f, n);
       match Taken(f, n)
       case None => Drain(AllOf(f), false)
       case Some(next) => Drain(AllOf(f)[..n], next.buffer == []))
    case Bare => if untilEnd then Drain(AllOf(f), true) else Drain([], f.buffer == [])
  }

  /** What all the bytes say of it: bytes behind the message may or may not be noticed. */
  predicate Drains(d: Drained, r: Drain) {
    match d
    case Broken => !r.ok
    case Whole(body, rest, sure) => (r.ok ==> r.out == body) && (sure && rest == [] ==> r.ok)
  }

  lemma DrainAll(f: Feed, framing: Framing, max: int, untilEnd: bool)
    ensures Drains(ReadBody(AllOf(f), framing, max, untilEnd), DrainOf(f, framing, max, untilEnd))
  {
    match framing
    case Chunked =>
      ChunksAll(f, max);
      hide ReadChunks, ChunksOf;
    case Sized(n) =>
      TakenAll(f, n);
      hide Taken;
    case Bare =>
  }

  datatype Opening = Shut | Opening(line: string, headers: seq<Header>, next: Feed)

  function OpeningOf(f: Feed, max: int): Opening {
    var r := LineOf(f, max);
    if !r.result.Got? then Shut
    else match SectionOf(r.next, max, |r.result.line| + 2)
      case NoSection => Shut
      case Section(hs, next) => Opening(FromBytes(r.result.line), hs, next)
  }

  /** However it arrives, a head is what its bytes make it, and the body is all that is behind. */
  lemma OpeningAll(f: Feed, max: int)
    ensures match ReadTop(AllOf(f), max)
            case NoTop => OpeningOf(f, max) == Shut
            case Top(line, hs, rest) =>
              var o := OpeningOf(f, max); o.Opening? && o.line == line && o.headers == hs && AllOf(o.next) == rest
  {
    hide NextLine, LineOf, AllOf, ReadHeaders, SectionOf;
    LineOfAll(f, max);
    LineIsPart(AllOf(f), max);
    GotLine(f, max);
    var r := LineOf(f, max);
    if r.result.Got? {
      SectionAll(r.next, max, |r.result.line| + 2);
      if |r.result.line| + 2 >= max { NothingLeft(r.next, max, |r.result.line| + 2); }
      if NextLine(AllOf(f), max).Loose? { LoosePast(AllOf(f), max); }
    }
  }

  /** A head that used up its bound is refused, whatever is next. */
  lemma NothingLeft(f: Feed, max: int, used: int)
    requires used >= max
    ensures SectionOf(f, max, used) == NoSection
  {
  }

  lemma LoosePast(b: Bytes, max: int)
    requires NextLine(b, max).Loose?
    ensures |NextLine(b, max).text| + 2 > max
  {
  }

  datatype Decoded<E> = Decoded(envelope: Option<E>, body: Drain)

  function RequestOf(f: Feed, opts: Options, urlOk: string -> bool): Decoded<Request> {
    match OpeningOf(f, opts.maxHeaderBytes)
    case Shut => Decoded(None, Drain([], false))
    case Opening(text, headers, next) =>
      match RequestFramed(text, headers, opts, urlOk)
      case None => Decoded(None, Drain([], false))
      case Some((e, framing)) => Decoded(Some(e), DrainOf(next, framing, opts.maxHeaderBytes, false))
  }

  function ResponseOf(f: Feed, opts: Options, verb: string): Decoded<Response> {
    match OpeningOf(f, opts.maxHeaderBytes)
    case Shut => Decoded(None, Drain([], false))
    case Opening(text, headers, next) =>
      match ResponseFramed(text, headers, verb)
      case None => Decoded(None, Drain([], false))
      case Some((e, framing)) => Decoded(Some(e), DrainOf(next, framing, opts.maxHeaderBytes, !Bodyless(e, verb)))
  }

  predicate DecodedAs<E(==)>(i: Incoming<E>, d: Decoded<E>) {
    match i
    case Unread => d.envelope == None && !d.body.ok
    case Incoming(e, body) => d.envelope == Some(e) && Drains(body, d.body)
  }

  /** The envelope depends on the bytes alone; so does the body whenever it is read to its end. */
  lemma RequestAll(f: Feed, opts: Options, urlOk: string -> bool)
    ensures DecodedAs(ReadRequest(AllOf(f), opts, urlOk), RequestOf(f, opts, urlOk))
  {
    hide OpeningOf, ReadTop, RequestFramed, DrainOf, ReadBody, Drains, AllOf;
    OpeningAll(f, opts.maxHeaderBytes);
    match OpeningOf(f, opts.maxHeaderBytes)
    case Opening(text, headers, next) =>
      match RequestFramed(text, headers, opts, urlOk) {
        case Some((_, framing)) => DrainAll(next, framing, opts.maxHeaderBytes, false);
        case None =>
      }
    case Shut =>
  }

  lemma ResponseAll(f: Feed, opts: Options, verb: string)
    ensures DecodedAs(ReadResponse(AllOf(f), opts, verb), ResponseOf(f, opts, verb))
  {
    hide OpeningOf, ReadTop, ResponseFramed, DrainOf, ReadBody, Drains, AllOf, Bodyless;
    OpeningAll(f, opts.maxHeaderBytes);
    match OpeningOf(f, opts.maxHeaderBytes)
    case Opening(text, headers, next) =>
      match ResponseFramed(text, headers, verb) {
        case Some((e, framing)) => DrainAll(next, framing, opts.maxHeaderBytes, !Bodyless(e, verb));
        case None =>
      }
    case Shut =>
  }

  method DrainBody(reader: ByteReader, framing: Framing, max: int, untilEnd: bool) returns (out: seq<Bytes>, ok: bool)
    requires reader.Valid()
    modifies reader
    ensures reader.Valid()
    ensures Drain(Flatten(out), ok) == DrainOf(old(reader.State()), framing, max, untilEnd)
  {
    hide Flatten;
    match framing {
      case Chunked =>
        out, ok := DecodeChunked(reader, max);
        if ok && reader.BufferedLength() > 0 { ok := false; }
      case Sized(n) =>
        ghost var b := reader.All();
        TakenAll(reader.State(), n);
        out, ok := ReadExactly(reader, n);
        if ok {
          assert b[..n] == Flatten(out);
          ok := reader.BufferedLength() == 0;
        } else {
          assert Flatten(out) + [] == Flatten(out);
        }
      case Bare =>
        if untilEnd {
          out := reader.Rest();
          return out, true;
        }
        FlattenNothing();
        out, ok := [], reader.BufferedLength() == 0;
    }
  }

  method ReadHead(reader: ByteReader, max: int) returns (line: string, headers: Option<seq<Header>>)
    requires reader.Valid()
    modifies reader
    ensures reader.Valid()
    ensures match OpeningOf(old(reader.State()), max)
            case Shut => headers == None
            case Opening(text, hs, next) => line == text && headers == Some(hs) && reader.State() == next
  {
    hide LineOf, SectionOf;
    line, headers := "", None;
    var got := reader.ReadLine(max);
    if !got.Got? { return; }
    line := FromBytes(got.line);
    headers := ReadHeaderSection(reader, max, |got.line| + 2);
  }

  /** What a drained body is, whatever framing fields the head has, under any casing of their names. */
  ghost predicate BodyAsDeclared(hs: seq<Header>, untilEnd: bool, all: Bytes, d: Drain) {
    && !(Has(hs, LENGTH) && Has(hs, CODING))
    && (!Has(hs, LENGTH) && !Has(hs, CODING) ==> d.out == if untilEnd then all else [])
    && forall n: nat :: DeclaresLength(hs, n) && n < 1_000_000_000_000_000 ==>
         if |all| < n then !d.ok && d.out == all else d.out == all[..n]
  }

  lemma SizedDrain(hs: seq<Header>, version: string, framing: Framing, f: Feed, max: int, untilEnd: bool)
    requires ResolveFraming(hs, version) == Some(framing)
    ensures BodyAsDeclared(hs, untilEnd, AllOf(f), DrainOf(f, framing, max, untilEnd))
  {
    if Has(hs, LENGTH) && Has(hs, CODING) { BothRefused(hs, version); }
    if !Has(hs, LENGTH) && !Has(hs, CODING) { NeitherIsBare(hs, version); }
    forall n: nat | DeclaresLength(hs, n) && n < 1_000_000_000_000_000 ensures framing == Sized(n) { LengthIs(hs, n, version); }
    if framing.Sized? { TakenAll(f, framing.n); }
    hide Has, DeclaresLength, ResolveFraming, AllOf, Taken, ChunksOf;
  }

  /** So of a request, and of a response that is not silent; a silent one has no body. */
  lemma RequestDeclared(f: Feed, opts: Options, urlOk: string -> bool)
    ensures var d := RequestOf(f, opts, urlOk);
            d.envelope.Some? ==>
              && ReadTop(AllOf(f), opts.maxHeaderBytes).Top?
              && BodyAsDeclared(d.envelope.value.headers, false, ReadTop(AllOf(f), opts.maxHeaderBytes).rest, d.body)
  {
    OpeningAll(f, opts.maxHeaderBytes);
    hide ReadTop, OpeningOf, AllOf, DrainOf, ParseRequestLine, UrlOf, ResolveFraming, BodyAsDeclared;
    match OpeningOf(f, opts.maxHeaderBytes)
    case Opening(text, headers, next) =>
      match RequestFramed(text, headers, opts, urlOk) {
        case Some((e, framing)) =>
          SizedDrain(headers, ParseRequestLine(text).value.version, framing, next, opts.maxHeaderBytes, false);
        case None =>
      }
    case Shut =>
  }

  lemma ResponseDeclared(f: Feed, opts: Options, verb: string)
    ensures var d := ResponseOf(f, opts, verb);
            d.envelope.Some? ==>
              && ReadTop(AllOf(f), opts.maxHeaderBytes).Top?
              && if Silent(d.envelope.value.status, verb) then d.body.out == []
                 else BodyAsDeclared(d.envelope.value.headers, true, ReadTop(AllOf(f), opts.maxHeaderBytes).rest, d.body)
  {
    OpeningAll(f, opts.maxHeaderBytes);
    hide ReadTop, OpeningOf, AllOf, ParseStatusLine, ResolveFraming, BodyAsDeclared, Silent, ChunksOf, Taken, BodylessStatus, HeadMethod;
    match OpeningOf(f, opts.maxHeaderBytes)
    case Opening(text, headers, next) =>
      match ResponseFramed(text, headers, verb) {
        case Some((e, framing)) =>
          SilentExactly(e, verb);
          if !Bodyless(e, verb) {
            SizedDrain(headers, ParseStatusLine(text).value.version, framing, next, opts.maxHeaderBytes, true);
          }
        case None =>
      }
    case Shut =>
  }

  method DecodeRequest(input: seq<Bytes>, opts: Options, urlOk: string -> bool)
    returns (envelope: Option<Request>, body: seq<Bytes>, ok: bool)
    ensures Decoded(envelope, Drain(Flatten(body), ok)) == RequestOf(Feed([], input), opts, urlOk)
    ensures envelope.Some? ==>
              && ReadTop(Flatten(input), opts.maxHeaderBytes).Top?
              && BodyAsDeclared(envelope.value.headers, false, ReadTop(Flatten(input), opts.maxHeaderBytes).rest, Drain(Flatten(body), ok))
  {
    hide BodyAsDeclared, ReadTop;
    RequestDeclared(Feed([], input), opts, urlOk);
    assert AllOf(Feed([], input)) == Flatten(input);
    hide OpeningOf, DrainOf, ParseRequestLine, UrlOf, ResolveFraming, Flatten;
    FlattenNothing();
    envelope, body, ok := None, [], false;
    var reader := new ByteReader(input);
    var text, headers := ReadHead(reader, opts.maxHeaderBytes);
    if headers.None? { return; }
    var line := ParseRequestLine(text);
    if line.None? { return; }
    var url := UrlOf(line.value, headers.value, opts, urlOk);
    if url.None? { return; }
    var framing := ResolveFraming(headers.value, line.value.version);
    if framing.None? { return; }
    envelope := Some(Request(line.value.verb, url.value, headers.value));
    body, ok := DrainBody(reader, framing.value, opts.maxHeaderBytes, false);
  }

  method DecodeResponse(input: seq<Bytes>, opts: Options, verb: string)
    returns (envelope: Option<Response>, body: seq<Bytes>, ok: bool)
    ensures Decoded(envelope, Drain(Flatten(body), ok)) == ResponseOf(Feed([], input), opts, verb)
    ensures envelope.Some? ==>
              && ReadTop(Flatten(input), opts.maxHeaderBytes).Top?
              && if Silent(envelope.value.status, verb) then Flatten(body) == []
                 else BodyAsDeclared(envelope.value.headers, true, ReadTop(Flatten(input), opts.maxHeaderBytes).rest, Drain(Flatten(body), ok))
  {
    hide BodyAsDeclared, ReadTop, Silent;
    ResponseDeclared(Feed([], input), opts, verb);
    assert AllOf(Feed([], input)) == Flatten(input);
    hide OpeningOf, DrainOf, ParseStatusLine, ResolveFraming, Flatten, HeadMethod, BodylessStatus;
    FlattenNothing();
    envelope, body, ok := None, [], false;
    var reader := new ByteReader(input);
    var text, headers := ReadHead(reader, opts.maxHeaderBytes);
    if headers.None? { return; }
    var line := ParseStatusLine(text);
    if line.None? { return; }
    var bodyless := BodylessStatus(line.value.status) || HeadMethod(verb);
    var framing := if bodyless then Some(Bare) else ResolveFraming(headers.value, line.value.version);
    if framing.None? { return; }
    envelope := Some(Response(line.value.status, line.value.text, headers.value));
    body, ok := DrainBody(reader, framing.value, opts.maxHeaderBytes, !bodyless);
  }
}
