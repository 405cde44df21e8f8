/**
 What messages mean on the wire, in literal terms: which responses carry a body,
 which fields are sent, and what any received head and body are read as.
 */
module HttpWire {
  import opened Basics
  import opened HttpBytes
  import opened HttpText
  import opened HttpFraming
  import opened HttpNames
  import opened HttpChunked
  import opened HttpCodec
  import opened HttpTrips

  // ----- which answers have a body -----

  /** A response from 200 to 599, neither 204 nor 304 and no answer to HEAD, comes back with its whole body. */
  lemma ResponseBodyBack(env: Response, body: Option<seq<Bytes>>, opts: Options, verb: string, wire: seq<Bytes>)
    requires 200 <= env.status <= 599 && env.status != 204 && env.status != 304 && !SameName(verb, "HEAD")
    requires ResponseBytes(env, body, verb) == Some(Flatten(wire)) && ResponseReturnable(env, body, opts, verb)
    ensures var r := ReadResponse(Flatten(wire), opts, verb);
            r.Incoming? && r.envelope.status == env.status && r.envelope.statusText == env.statusText
            && r.body == Whole(BodyOf(body), [], true)
  {
    SilentExactly(env, verb);
    ResponseRoundTrip(env, body, opts, verb, wire);
    hide ResponseBytes, ReadResponse, ResponseReturnable, SameName, Bodyless;
  }

  // ----- the fields a message is sent with -----

  const CONNECTION := "Connection"

  lemma {:induction false} SentUnder(front: seq<Header>, headers: seq<Header>, owned: seq<string>, chunked: bool, name: string)
    ensures Under(Sent(front, Without(headers, owned), chunked), name)
            == Under(front, name) + (if Owns(owned, name) then [] else Under(headers, name))
               + (if SameName(name, CONNECTION) then ["close"] else []) + (if chunked && SameName(name, CODING) then ["chunked"] else [])
  {
    var carried := Without(headers, owned);
    var tail := if chunked then [CHUNKED] else [];
    WithoutKeeps(headers, owned, name);
    UnderAppend(front + carried + [CLOSE], tail, name);
    UnderAppend(front + carried, [CLOSE], name);
    UnderAppend(front, carried, name);
    UnderOne(CLOSE, name);
    UnderOne(CHUNKED, name);
    SameTrans(CONNECTION, name, name);
    SameTrans(CODING, name, name);
    assert Under([], name) == [];
    assert CLOSE.name == CONNECTION && CHUNKED.name == CODING;
    hide Under, SameName, Without, Owns;
  }

  lemma OwnedNames(name: string, status: int)
    ensures Owns(REQUEST_OWNED, name) <==> SameName(name, "Host") || SameName(name, CONNECTION) || SameName(name, CODING)
    ensures Owns(RESPONSE_OWNED, name) <==> SameName(name, CONNECTION) || SameName(name, CODING)
    ensures Owns(RESPONSE_OWNED + ["content-length"], name)
            <==> SameName(name, CONNECTION) || SameName(name, CODING) || SameName(name, LENGTH)
  {
    assert SameName("host", "Host") && SameName("connection", CONNECTION);
    Fields();
    SameTrans(name, "host", "Host");
    SameTrans(name, "connection", CONNECTION);
    SameTrans(name, "transfer-encoding", CODING);
    SameTrans(name, "content-length", LENGTH);
    SameTrans(name, "Host", "host");
    SameTrans(name, CONNECTION, "connection");
    SameTrans(name, CODING, "transfer-encoding");
    SameTrans(name, LENGTH, "content-length");
    SameTrans("host", "Host", name);
    SameTrans("connection", CONNECTION, name);
    SameTrans("transfer-encoding", CODING, name);
    SameTrans("content-length", LENGTH, name);
    hide SameName;
    var r := RESPONSE_OWNED + ["content-length"];
    assert r == ["connection", "transfer-encoding", "content-length"];
    assert REQUEST_OWNED[0] == "host" && REQUEST_OWNED[1] == "connection" && REQUEST_OWNED[2] == "transfer-encoding";
    assert RESPONSE_OWNED[0] == "connection" && RESPONSE_OWNED[1] == "transfer-encoding";
    assert r[0] == "connection" && r[1] == "transfer-encoding" && r[2] == "content-length";
  }

  /** A message's head on the wire: a start line, the fields, one empty line. */
  predicate Carries(wire: Bytes, start: string, fields: seq<Header>, rest: Bytes) {
    var text := start + "\r\n" + HeaderLines(fields) + "\r\n";
    Latin1(text) && wire == ToBytes(text) + rest
  }

  /** The body on the wire: as it is under a length, in chunks under the coding, otherwise nothing. */
  predicate Framed(body: Option<seq<Bytes>>, fields: seq<Header>, rest: Bytes) {
    if Has(fields, CODING) then body.Some? && rest == ChunkedBytes(body.value)
    else rest == BodyOf(body)
  }

  /** A response's bytes: its own fields in order without the codec's, one Connection, and no body where none is allowed. */
  lemma ResponseOnWire(env: Response, body: Option<seq<Bytes>>, verb: string) returns (fields: seq<Header>, rest: Bytes)
    requires ResponseBytes(env, body, verb).Some?
    ensures Carries(ResponseBytes(env, body, verb).value, StatusStart(env), fields, rest)
    ensures Silent(env.status, verb) ==> rest == []
    ensures !Silent(env.status, verb) ==> Framed(body, fields, rest)
    ensures Under(fields, CONNECTION) == ["close"]
    ensures Under(fields, CODING) == if !Silent(env.status, verb) && body.Some? && !Has(env.headers, LENGTH) then ["chunked"] else []
    ensures Under(fields, LENGTH) == if env.status <= 199 || env.status == 204 || env.status == 304 then [] else Under(env.headers, LENGTH)
    ensures forall name :: !SameName(name, CONNECTION) && !SameName(name, CODING) && !SameName(name, LENGTH)
              ==> Under(fields, name) == Under(env.headers, name)
  {
    var h := ResponseHead(env, body.Some?, verb).value;
    ResponseText(env, body.Some?, verb);
    SilentExactly(env, verb);
    HeadDeclares(env, body.Some?, verb);
    hide ResponseHead, HeaderLines, StatusStart, Sent, Silent, BodylessStatus, HeadMethod, ChunkedBytes, Declared, Without;
    DeclaredIs(env.headers, ResponseOwned(env.status));
    OwnsLength(env.status);
    var chunked := SendsChunked(env, body.Some?, verb, h.declared);
    fields := SentResponse(env, chunked);
    rest := if Silent(env.status, verb) then [] else BodyBytes(body, h.declared).value;
    assert h.bytes + [] == h.bytes;
    ResponseFields(env, chunked);
    HasUnder(fields, CODING);
    hide Has, Under, SameName, SentResponse, Owns, ResponseOwned;
  }

  lemma HeadDeclares(env: Response, hasBody: bool, verb: string)
    requires ResponseHead(env, hasBody, verb).Some?
    ensures Declared(Without(env.headers, ResponseOwned(env.status))) == Some(ResponseHead(env, hasBody, verb).value.declared)
  {
    hide Without, Declared, HeaderLines, BodylessStatus, HeadMethod, StatusDigits, Plain, GoodHeader;
  }

  /** A response that may have a body may declare its length. */
  lemma OwnsLength(status: int)
    ensures Owns(ResponseOwned(status), LENGTH) <==> BodylessStatus(status)
  {
    OwnedNames(LENGTH, status);
    LengthAlone();
    assert SameName(LENGTH, LENGTH);
    hide SameName, Owns, BodylessStatus;
  }

  lemma ResponseFields(env: Response, chunked: bool)
    ensures var fields := SentResponse(env, chunked);
      && Under(fields, CONNECTION) == ["close"]
      && Under(fields, CODING) == (if chunked then ["chunked"] else [])
      && Under(fields, LENGTH) == (if env.status <= 199 || env.status == 204 || env.status == 304 then [] else Under(env.headers, LENGTH))
      && forall name :: !SameName(name, CONNECTION) && !SameName(name, CODING) && !SameName(name, LENGTH)
              ==> Under(fields, name) == Under(env.headers, name)
  {
    LengthAlone();
    Fields();
    assert SameName(LENGTH, LENGTH);
    hide SameName, Under, SentResponse;
    FieldUnder(env, chunked, CONNECTION);
    FieldUnder(env, chunked, CODING);
    FieldUnder(env, chunked, LENGTH);
    forall name | !SameName(name, CONNECTION) && !SameName(name, CODING) && !SameName(name, LENGTH)
      ensures Under(SentResponse(env, chunked), name) == Under(env.headers, name)
    {
      FieldUnder(env, chunked, name);
    }
  }

  /** One name of a response's fields: what the codec sends under it, or what the response had. */
  lemma FieldUnder(env: Response, chunked: bool, name: string)
    ensures var silent := env.status <= 199 || env.status == 204 || env.status == 304;
            var owned := SameName(name, CONNECTION) || SameName(name, CODING) || (SameName(name, LENGTH) && silent);
            Under(SentResponse(env, chunked), name)
            == (if owned then [] else Under(env.headers, name))
               + (if SameName(name, CONNECTION) then ["close"] else []) + (if chunked && SameName(name, CODING) then ["chunked"] else [])
  {
    OwnedNames(name, env.status);
    hide SameName, Owns, Sent, Without;
    SentUnder([], env.headers, ResponseOwned(env.status), chunked, name);
    assert Under([], name) == [];
    hide Under;
  }

  /** A head declares a length exactly when a field of that name is carried. */
  lemma DeclaredIs(headers: seq<Header>, owned: seq<string>)
    requires Declared(Without(headers, owned)).Some?
    ensures Declared(Without(headers, owned)).value.Some? <==> Has(headers, LENGTH) && !Owns(owned, LENGTH)
  {
    var carried := Without(headers, owned);
    FramingFields(carried);
    WithoutKeeps(headers, owned, LENGTH);
    HasUnder(headers, LENGTH);
    hide Under, Has, Owns, Without;
  }

  /** A request's bytes: one start line, one Host, one Connection, its own fields in order, and the body. */
  lemma RequestOnWire(env: Request, body: Option<seq<Bytes>>, opts: Options) returns (target: Target, fields: seq<Header>, rest: Bytes)
    requires RequestBytes(env, body, opts).Some?
    ensures SplitTarget(env.url, opts) == Some(target)
    ensures Carries(RequestBytes(env, body, opts).value, env.verb + " " + target.target + " HTTP/1.1", fields, rest) && Framed(body, fields, rest)
    ensures Under(fields, "Host") == [target.authority] && Under(fields, CONNECTION) == ["close"]
    ensures Under(fields, CODING) == if body.Some? && !Has(env.headers, LENGTH) then ["chunked"] else []
    ensures forall name :: !SameName(name, "Host") && !SameName(name, CONNECTION) && !SameName(name, CODING)
              ==> Under(fields, name) == Under(env.headers, name)
  {
    var h := RequestHead(env, body.Some?, opts).value;
    target := SplitTarget(env.url, opts).value;
    RequestText(env, body.Some?, opts);
    DeclaredIs(env.headers, REQUEST_OWNED);
    OwnedNames(LENGTH, 0);
    LengthAlone();
    var chunked := body.Some? && h.declared.None?;
    fields := SentRequest(env, target.authority, chunked);
    rest := BodyBytes(body, h.declared).value;
    RequestFields(env, target.authority, chunked);
    HasUnder(fields, CODING);
    hide Has, Under, SameName, SentRequest, RequestHead, HeaderLines, SplitTarget, ChunkedBytes, Owns;
  }

  lemma LengthAlone()
    ensures !SameName(LENGTH, "Host") && !SameName(LENGTH, CONNECTION) && !SameName(LENGTH, CODING)
    ensures !SameName(CODING, "Host") && !SameName(CODING, CONNECTION) && !SameName(CONNECTION, CODING)
    ensures !SameName(CONNECTION, "Host") && !SameName("Host", CONNECTION) && !SameName("Host", CODING)
    ensures SameName(CONNECTION, CONNECTION) && SameName(CODING, CODING) && SameName("Host", "Host")
  {
  }

  lemma RequestFields(env: Request, authority: string, chunked: bool)
    ensures var fields := SentRequest(env, authority, chunked);
      && Under(fields, "Host") == [authority] && Under(fields, CONNECTION) == ["close"]
      && Under(fields, CODING) == (if chunked then ["chunked"] else [])
      && forall name :: !SameName(name, "Host") && !SameName(name, CONNECTION) && !SameName(name, CODING)
              ==> Under(fields, name) == Under(env.headers, name)
  {
    var fields := SentRequest(env, authority, chunked);
    var host := Header("Host", authority);
    LengthAlone();
    hide SameName, Without, Owns, Sent, Under;
    forall name ensures Under(fields, name) == (if SameName(name, "Host") then [authority] else [])
               + (if Owns(REQUEST_OWNED, name) then [] else Under(env.headers, name))
               + (if SameName(name, CONNECTION) then ["close"] else []) + (if chunked && SameName(name, CODING) then ["chunked"] else [])
    {
      SentUnder([host], env.headers, REQUEST_OWNED, chunked, name);
      UnderOne(host, name);
      SameTrans(name, "Host", "Host");
    }
    forall name
      ensures Owns(REQUEST_OWNED, name) <==> SameName(name, "Host") || SameName(name, CONNECTION) || SameName(name, CODING)
    {
      OwnedNames(name, 0);
    }
  }

  // ----- what is read -----

  /** Any response received: silent ones have no body, a declared length is the body's, and without framing it is all that follows. */
  lemma ReceivedResponse(b: Bytes, opts: Options, verb: string, line: StatusLine)
    requires ReadTop(b, opts.maxHeaderBytes).Top? && ParseStatusLine(ReadTop(b, opts.maxHeaderBytes).line) == Some(line)
    ensures var t := ReadTop(b, opts.maxHeaderBytes);
            var r := ReadResponse(b, opts, verb);
            && (r.Incoming? ==> r.envelope == Response(line.status, line.text, t.headers))
            && (Silent(line.status, verb) ==> r.Incoming? && r.body == Whole([], t.rest, true))
            && (!Silent(line.status, verb) && Has(t.headers, LENGTH) && Has(t.headers, CODING) ==> r == Unread)
            && (!Silent(line.status, verb) && !Has(t.headers, LENGTH) && !Has(t.headers, CODING) ==> r.Incoming? && r.body == Whole(t.rest, [], true))
            && forall n: nat :: !Silent(line.status, verb) && DeclaresLength(t.headers, n) && n < 1_000_000_000_000_000
                  ==> r.Incoming? && r.body == if |t.rest| < n then Broken else Whole(t.rest[..n], t.rest[n..], true)
  {
    var t := ReadTop(b, opts.maxHeaderBytes);
    SilentExactly(Response(line.status, line.text, t.headers), verb);
    hide Has, Silent, DeclaresLength, ResolveFraming, ReadTop, ParseStatusLine, Bodyless, ReadChunks;
    if Has(t.headers, LENGTH) && Has(t.headers, CODING) { BothRefused(t.headers, line.version); }
    if !Has(t.headers, LENGTH) && !Has(t.headers, CODING) { NeitherIsBare(t.headers, line.version); }
    forall n: nat | DeclaresLength(t.headers, n) && n < 1_000_000_000_000_000
      ensures ResolveFraming(t.headers, line.version) == Some(Sized(n))
    {
      LengthIs(t.headers, n, line.version);
    }
  }

  /** Any request received whose line and host are good: the same, but without framing it has no body. */
  lemma ReceivedRequest(b: Bytes, opts: Options, urlOk: string -> bool, line: RequestLine, url: string)
    requires ReadTop(b, opts.maxHeaderBytes).Top? && ParseRequestLine(ReadTop(b, opts.maxHeaderBytes).line) == Some(line)
    requires UrlOf(line, ReadTop(b, opts.maxHeaderBytes).headers, opts, urlOk) == Some(url)
    ensures var t := ReadTop(b, opts.maxHeaderBytes);
            var r := ReadRequest(b, opts, urlOk);
            && (r.Incoming? ==> r.envelope == Request(line.verb, url, t.headers))
            && (Has(t.headers, LENGTH) && Has(t.headers, CODING) ==> r == Unread)
            && (!Has(t.headers, LENGTH) && !Has(t.headers, CODING) ==> r.Incoming? && r.body == Whole([], t.rest, true))
            && forall n: nat :: DeclaresLength(t.headers, n) && n < 1_000_000_000_000_000
                  ==> r.Incoming? && r.body == if |t.rest| < n then Broken else Whole(t.rest[..n], t.rest[n..], true)
  {
    var t := ReadTop(b, opts.maxHeaderBytes);
    hide Has, DeclaresLength, ResolveFraming, ReadTop, ParseRequestLine, UrlOf, ReadChunks;
    if Has(t.headers, LENGTH) && Has(t.headers, CODING) { BothRefused(t.headers, line.version); }
    if !Has(t.headers, LENGTH) && !Has(t.headers, CODING) { NeitherIsBare(t.headers, line.version); }
    forall n: nat | DeclaresLength(t.headers, n) && n < 1_000_000_000_000_000
      ensures ResolveFraming(t.headers, line.version) == Some(Sized(n))
    {
      LengthIs(t.headers, n, line.version);
    }
  }
}
