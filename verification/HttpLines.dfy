/**
 Lines as they are written, character by character: exactly which start lines,
 header lines and chunk sizes are read, and what they are read as.
 */
module HttpLines {
  import opened Basics
  import opened HttpBytes
  import opened HttpText
  import opened HttpFraming
  import opened HttpNames
  import opened HttpChunked
  import opened HttpCodec
  import opened HttpTrips
  import opened HttpWire

  // ----- start lines -----

  /** `tchar` of section 5.6.2 of RFC 9110: a visible character that is no delimiter. */
  predicate NameChar(c: char) { 33 <= c as int <= 126 && c !in "\"(),/:;<=>?@[\\]{}" }

  lemma TokenIs(s: string)
    ensures IsToken(s) <==> s != "" && forall i :: 0 <= i < |s| ==> NameChar(s[i])
  {
    forall i | 0 <= i < |s| ensures TokenChar(s[i]) <==> NameChar(s[i]) { CharIs(s[i]); }
  }

  lemma CharIs(c: char)
    ensures TokenChar(c) <==> NameChar(c)
  {
    var marks, stops := "!#$%&'*+-.^_`|~", "\"(),/:;<=>?@[\\]{}";
    assert c in marks <==> exists i :: 0 <= i < 15 && marks[i] == c;
    assert c in stops <==> exists i :: 0 <= i < 17 && stops[i] == c;
  }

  /** What `Split` cut, with the separators put back. */
  function Joined(parts: seq<string>, c: char): string
    requires parts != []
  {
    if |parts| == 1 then parts[0] else parts[0] + [c] + Joined(parts[1..], c)
  }

  lemma {:induction false} SplitJoins(s: string, c: char)
    ensures Joined(Split(s, c), c) == s && forall i :: 0 <= i < |Split(s, c)| ==> c !in Split(s, c)[i]
    decreases |s|
  {
    var i := IndexOf(s, c);
    if i < |s| {
      SplitJoins(s[i + 1..], c);
      var rest := Split(s[i + 1..], c);
      assert ([s[..i]] + rest)[1..] == rest;
      assert s == s[..i] + [c] + s[i + 1..];
    }
  }

  predicate Target(s: string) { s != "*" && forall i :: 0 <= i < |s| ==> 33 <= s[i] as int <= 126 }

  /** A request line is read exactly when it is a method, a target and a version, single spaces between. */
  lemma RequestLineIs(line: string, r: RequestLine)
    ensures ParseRequestLine(line) == Some(r) <==>
              && line == r.verb + " " + r.target + " " + r.version
              && r.verb != "" && (forall i :: 0 <= i < |r.verb| ==> NameChar(r.verb[i]))
              && Target(r.target) && (r.version == "HTTP/1.1" || r.version == "HTTP/1.0")
  {
    TokenIs(r.verb);
    TargetIs(r.target);
    if ParseRequestLine(line) == Some(r) {
      SplitJoins(line, ' ');
      hide IsToken, NameChar, Target, Split, ValidTarget;
      ThreeJoined(Split(line, ' '), ' ');
    }
    hide IsToken, NameChar, Target, Split, ValidTarget, ParseRequestLine;
    if line == r.verb + " " + r.target + " " + r.version && IsToken(r.verb) && Target(r.target) && Version(r.version) { RequestLineRead(line, r); }
  }

  lemma TargetIs(s: string)
    ensures Target(s) <==> ValidTarget(s) && s != "*"
  {
    if ValidTarget(s) { assert forall i :: 0 <= i < |s| ==> Visible(s[i]); }
  }

  lemma RequestLineRead(line: string, r: RequestLine)
    requires line == r.verb + " " + r.target + " " + r.version
    requires IsToken(r.verb) && Target(r.target) && Version(r.version)
    ensures ParseRequestLine(line) == Some(r)
  {
    TargetIs(r.target);
    NoSpace(r.verb);
    VersionSpaces(r.version);
    assert ' ' !in r.target;
    hide IsToken, Target, ValidTarget, Split, Version;
    SplitThree(r.verb, r.target, r.version, ' ');
    Spaced(r.verb, r.target, r.version, ' ');
  }

  lemma VersionSpaces(version: string)
    requires Version(version)
    ensures ' ' !in version
  {
  }

  lemma Spaced(x: string, y: string, z: string, c: char)
    ensures x + [c] + y + [c] + z == x + [c] + (y + [c] + z)
  {
  }

  lemma NoSpace(s: string)
    requires IsToken(s)
    ensures ' ' !in s
  {
    assert !TokenChar(' ');
  }

  lemma ThreeJoined(parts: seq<string>, c: char)
    requires |parts| == 3
    ensures Joined(parts, c) == parts[0] + [c] + parts[1] + [c] + parts[2]
  {
    assert parts[1..][0] == parts[1] && parts[1..][1..][0] == parts[2];
    assert Joined(parts[1..], c) == parts[1] + [c] + Joined(parts[1..][1..], c);
  }

  /** A status line is read exactly when it is a version, three digits, and perhaps a space and a reason. */
  lemma StatusLineIs(line: string, r: StatusLine)
    ensures ParseStatusLine(line) == Some(r) <==>
              && 0 <= r.status <= 999 && (r.version == "HTTP/1.1" || r.version == "HTTP/1.0")
              && (line == r.version + " " + Three(r.status) + " " + r.text || (r.text == "" && line == r.version + " " + Three(r.status)))
  {
    assert ' ' !in "HTTP/1.1" && ' ' !in "HTTP/1.0";
    if ParseStatusLine(line) == Some(r) {
      var sp := IndexOf(line, ' ');
      var behind := line[sp + 1..];
      assert line == r.version + " " + behind;
      ThreeDigits(behind[..3]);
      hide IndexOf, DecimalValue, AllDigits;
      if |behind| > 3 {
        assert behind == behind[..3] + " " + behind[4..];
      } else {
        assert behind == behind[..3];
      }
    }
    if 0 <= r.status <= 999 && (r.version == "HTTP/1.1" || r.version == "HTTP/1.0") {
      ThreeBack(r.status);
      var d := Three(r.status);
      hide DecimalValue, AllDigits, Three;
      if line == r.version + " " + d + " " + r.text { LongStatus(line, r, d); }
      if r.text == "" && line == r.version + " " + d { ShortStatus(line, r, d); }
    }
  }

  /** Three decimal digits. */
  function Three(n: nat): string
    requires n <= 999
  {
    [(48 + n / 100) as char, (48 + n / 10 % 10) as char, (48 + n % 10) as char]
  }

  lemma ThreeValue(d: string)
    requires |d| == 3 && AllDigits(d)
    ensures DecimalValue(d) == (d[0] as int - 48) * 100 + (d[1] as int - 48) * 10 + (d[2] as int - 48)
    ensures forall i :: 0 <= i < 3 ==> 48 <= d[i] as int <= 57
  {
    assert Digit(d[0]) && Digit(d[1]) && Digit(d[2]);
    assert d[..2] == [d[0], d[1]] && d[..2][..1] == [d[0]];
    assert DecimalValue([d[0]]) == d[0] as int - 48 by { assert [d[0]][..0] == []; }
    assert DecimalValue(d[..2]) == (d[0] as int - 48) * 10 + (d[1] as int - 48);
  }

  lemma ThreeDigits(d: string)
    requires |d| == 3 && AllDigits(d)
    ensures 0 <= DecimalValue(d) <= 999 && d == Three(DecimalValue(d))
  {
    ThreeValue(d);
    hide DecimalValue, AllDigits;
    Places(d[0] as int - 48, d[1] as int - 48, d[2] as int - 48);
  }

  lemma Places(x: int, y: int, z: int)
    requires 0 <= x <= 9 && 0 <= y <= 9 && 0 <= z <= 9
    ensures var n := x * 100 + y * 10 + z; n / 100 == x && n / 10 % 10 == y && n % 10 == z
  {
    assert (x * 100 + y * 10 + z) / 10 == x * 10 + y;
  }

  lemma ThreeBack(n: nat)
    requires n <= 999
    ensures AllDigits(Three(n)) && DecimalValue(Three(n)) == n && ' ' !in Three(n)
  {
    var d := Three(n);
    assert Digit(d[0]) && Digit(d[1]) && Digit(d[2]);
    ThreeValue(d);
    hide DecimalValue;
    assert n / 100 * 100 + n / 10 % 10 * 10 + n % 10 == n;
  }

  lemma LongStatus(line: string, r: StatusLine, d: string)
    requires (r.version == "HTTP/1.1" || r.version == "HTTP/1.0") && |d| == 3 && AllDigits(d) && DecimalValue(d) == r.status && ' ' !in d
    requires line == r.version + " " + d + " " + r.text
    ensures ParseStatusLine(line) == Some(r)
  {
    hide DecimalValue, AllDigits;
    var behind := d + [' '] + r.text;
    assert line == r.version + [' '] + behind;
    assert ' ' !in r.version;
    IndexOfAt(r.version, ' ', behind);
    IndexOfAt(d, ' ', r.text);
    hide IndexOf;
    assert line[..8] == r.version && line[9..] == behind && behind[..3] == d && behind[4..] == r.text;
  }

  lemma ShortStatus(line: string, r: StatusLine, d: string)
    requires (r.version == "HTTP/1.1" || r.version == "HTTP/1.0") && |d| == 3 && AllDigits(d) && DecimalValue(d) == r.status && ' ' !in d
    requires line == r.version + " " + d && r.text == ""
    ensures ParseStatusLine(line) == Some(r)
  {
    hide DecimalValue, AllDigits;
    assert line == r.version + [' '] + d;
    assert ' ' !in r.version;
    IndexOfAt(r.version, ' ', d);
    assert IndexOf(d, ' ') == 3;
    hide IndexOf;
    assert line[..8] == r.version && line[9..] == d && d[..3] == d;
  }

  // ----- header lines -----

  predicate AllBlank(s: string) { forall i :: 0 <= i < |s| ==> s[i] as int == 32 || s[i] as int == 9 }

  /** A character a value may hold: a tab, or anything of latin-1 that is no control character. */
  predicate ValueChar(c: char) { c as int == 9 || 32 <= c as int <= 126 || 128 <= c as int <= 255 }

  lemma {:induction false} LeftTrim(s: string)
    ensures exists a :: AllBlank(a) && s == a + TrimLeft(s)
    ensures TrimLeft(s) == "" || !Blank(TrimLeft(s)[0])
  {
    if s != [] && Blank(s[0]) {
      LeftTrim(s[1..]);
      var a :| AllBlank(a) && s[1..] == a + TrimLeft(s[1..]);
      assert AllBlank([s[0]] + a) && s == [s[0]] + a + TrimLeft(s);
    } else {
      assert AllBlank("") && s == "" + s;
    }
  }

  lemma {:induction false} RightTrim(s: string)
    ensures exists b :: AllBlank(b) && s == TrimRight(s) + b
    ensures TrimRight(s) == "" || !Blank(TrimRight(s)[|TrimRight(s)| - 1])
    ensures TrimRight(s) <= s
  {
    if s != [] && Blank(s[|s| - 1]) {
      var t := s[..|s| - 1];
      RightTrim(t);
      var b :| AllBlank(b) && t == TrimRight(t) + b;
      assert AllBlank(b + [s[|s| - 1]]) && s == TrimRight(s) + (b + [s[|s| - 1]]);
    } else {
      assert AllBlank("") && s == s + "";
    }
  }

  lemma {:induction false} LeftBack(a: string, s: string)
    requires AllBlank(a) && (s == "" || !Blank(s[0]))
    ensures TrimLeft(a + s) == s
  {
    if a == [] {
      assert a + s == s;
    } else {
      assert (a + s)[1..] == a[1..] + s;
      LeftBack(a[1..], s);
    }
  }

  lemma {:induction false} RightBack(s: string, b: string)
    requires AllBlank(b) && (s == "" || !Blank(s[|s| - 1]))
    ensures TrimRight(s + b) == s
    decreases |b|
  {
    if b == [] {
      assert s + b == s;
    } else {
      var t := s + b;
      assert t[..|t| - 1] == s + b[..|b| - 1] && t[|t| - 1] == b[|b| - 1];
      RightBack(s, b[..|b| - 1]);
    }
  }

  lemma {:induction false} AllBlankTrims(a: string)
    requires AllBlank(a)
    ensures TrimLeft(a) == ""
  {
    LeftBack(a, "");
    assert a + "" == a;
  }

  /** A value alone between blanks is what is left of them. */
  lemma TrimBoth(a: string, v: string, b: string)
    requires AllBlank(a) && AllBlank(b) && (v == "" || (!Blank(v[0]) && !Blank(v[|v| - 1])))
    ensures TrimRight(TrimLeft(a + v + b)) == v
  {
    if v == "" {
      assert a + v + b == a + b;
      AllBlankTrims(a + b);
    } else {
      assert a + v + b == a + (v + b);
      LeftBack(a, v + b);
      RightBack(v, b);
    }
  }

  lemma TrimsTo(s: string) returns (a: string, b: string)
    ensures AllBlank(a) && AllBlank(b) && s == a + TrimRight(TrimLeft(s)) + b
    ensures var v := TrimRight(TrimLeft(s)); v == "" || (!Blank(v[0]) && !Blank(v[|v| - 1]))
  {
    LeftTrim(s);
    RightTrim(TrimLeft(s));
    a :| AllBlank(a) && s == a + TrimLeft(s);
    b :| AllBlank(b) && TrimLeft(s) == TrimRight(TrimLeft(s)) + b;
  }

  /** The parts of a header line: a name, a colon, a value between blanks. */
  predicate Parts(line: string, h: Header, a: string, b: string) {
    && line == h.name + ":" + a + h.value + b && AllBlank(a) && AllBlank(b)
    && h.name != "" && (forall i :: 0 <= i < |h.name| ==> NameChar(h.name[i]))
    && (forall i :: 0 <= i < |h.value| ==> ValueChar(h.value[i]))
    && (h.value == "" || (!AllBlank([h.value[0]]) && !AllBlank([h.value[|h.value| - 1]])))
  }

  lemma PlainIs(s: string)
    ensures Plain(s) <==> forall i :: 0 <= i < |s| ==> ValueChar(s[i])
  {
  }

  lemma BlankIs(c: char)
    ensures Blank(c) <==> AllBlank([c])
  {
    assert [c][0] == c;
  }

  lemma PartsAre(line: string, h: Header, a: string, b: string)
    ensures Parts(line, h, a, b) <==>
              && line == h.name + ":" + a + h.value + b && AllBlank(a) && AllBlank(b) && IsToken(h.name) && Plain(h.value)
              && (h.value == "" || (!Blank(h.value[0]) && !Blank(h.value[|h.value| - 1])))
  {
    TokenIs(h.name);
    PlainIs(h.value);
    if h.value != "" {
      BlankIs(h.value[0]);
      BlankIs(h.value[|h.value| - 1]);
    }
    hide IsToken, Plain, AllBlank, NameChar, ValueChar, Blank;
  }

  /** A header line is read exactly when it is such parts, and as them. */
  lemma HeaderLineIs(line: string, h: Header)
    ensures ParseHeader(line) == Some(h) <==> exists a, b :: Parts(line, h, a, b)
  {
    if ParseHeader(line) == Some(h) {
      var a, b := ReadParts(line, h);
    }
    hide ParseHeader;
    if a, b :| Parts(line, h, a, b) {
      PartsAre(line, h, a, b);
      PartsRead(line, h, a, b);
    }
  }

  lemma ReadParts(line: string, h: Header) returns (a: string, b: string)
    requires ParseHeader(line) == Some(h)
    ensures Parts(line, h, a, b)
  {
    hide TrimLeft, TrimRight, IsToken, Plain, AllBlank, Blank, Parts;
    var colon := IndexOf(line, ':');
    hide IndexOf;
    a, b := TrimsTo(line[colon + 1..]);
    Rejoin(line, colon, a, h.value, b);
    PartsAre(line, h, a, b);
  }

  lemma Rejoin(line: string, colon: nat, a: string, v: string, b: string)
    requires colon < |line| && line[colon] == ':' && line[colon + 1..] == a + v + b
    ensures line == line[..colon] + ":" + a + v + b
  {
    assert line == line[..colon] + [':'] + line[colon + 1..];
  }

  lemma PartsRead(line: string, h: Header, a: string, b: string)
    requires line == h.name + ":" + a + h.value + b && AllBlank(a) && AllBlank(b) && IsToken(h.name) && Plain(h.value)
    requires h.value == "" || (!Blank(h.value[0]) && !Blank(h.value[|h.value| - 1]))
    ensures ParseHeader(line) == Some(h)
  {
    hide IndexOf, TrimLeft, TrimRight, IsToken, Plain, AllBlank, Blank;
    NameAlone(h.name);
    var rest := a + h.value + b;
    Cut(line, h.name, a, h.value, b);
    IndexOfAt(h.name, ':', rest);
    TrimBoth(a, h.value, b);
  }

  lemma Cut(line: string, name: string, a: string, v: string, b: string)
    requires line == name + ":" + a + v + b && name != ""
    ensures line == name + [':'] + (a + v + b) && line[..|name|] == name && line[|name| + 1..] == a + v + b && line[0] == name[0]
  {
    var rest := a + v + b;
    assert line == name + [':'] + rest;
    assert line[..|name|] == name;
  }

  // ----- the bound on a head -----

  lemma {:induction false} SectionWithin(b: Bytes, max: int, used: int)
    requires used >= 0
    ensures match ReadHeaders(b, max, used)
            case Refused => true
            case Parsed(_, rest) => |rest| <= |b| && used + (|b| - |rest|) <= max
    decreases |b|
  {
    hide ParseHeader;
    LineIsPart(b, max - used);
    var line := NextLine(b, max - used);
    hide NextLine;
    if max - used > 0 && line.Line? && line.text != [] { SectionWithin(line.rest, max, used + |line.text| + 2); }
  }

  /** A head that is read takes no more than the bound, its start line, fields and empty line together. */
  lemma HeadWithin(b: Bytes, max: int)
    ensures var t := ReadTop(b, max); t.Top? ==> |t.rest| <= |b| && |b| - |t.rest| <= max
  {
    LineIsPart(b, max);
    var line := NextLine(b, max);
    if line.Line? { SectionWithin(line.rest, max, |line.text| + 2); }
  }

  // ----- the host a request names -----

  /** Two hosts are refused, a missing one is unless the version is 1.0, and one that is no host is refused. */
  lemma HostRules(line: RequestLine, headers: seq<Header>, opts: Options, urlOk: string -> bool)
    requires line.target != "" && line.target[0] == '/'
    ensures var hosts := Under(headers, "Host");
            UrlOf(line, headers, opts, urlOk)
            == if |hosts| > 1 || (hosts == [] && line.version == "HTTP/1.1") || (hosts != [] && !ValidHost(hosts[0])) then None
               else
                 var url := opts.scheme + "://" + (if hosts == [] then opts.host else hosts[0]) + line.target;
                 if urlOk(url) then Some(url) else None
  {
    GetAllIs(headers, "Host");
    assert SameName("host", "Host");
    SameUnder(headers, "host", "Host");
    hide GetAll, Under, ValidHost, SameName;
  }

  // ----- hosts -----

  /** Letters, digits, and the four marks of a registered name. */
  predicate NamePart(s: string) {
    s != "" && forall i :: 0 <= i < |s| ==>
      var c := s[i] as int; 97 <= c <= 122 || 65 <= c <= 90 || 48 <= c <= 57 || c == 45 || c == 46 || c == 95 || c == 126
  }

  /** Hexadecimal digits, colons and dots between brackets. */
  predicate LiteralPart(s: string) {
    && |s| >= 3 && s[0] as int == 91 && s[|s| - 1] as int == 93
    && forall i :: 0 < i < |s| - 1 ==>
         var c := s[i] as int; 97 <= c <= 102 || 65 <= c <= 70 || 48 <= c <= 57 || c == 58 || c == 46
  }

  /** Nothing, or a colon and one to five digits. */
  predicate PortDigits(s: string) {
    s == "" || (2 <= |s| <= 6 && s[0] as int == 58 && forall i :: 1 <= i < |s| ==> 48 <= s[i] as int <= 57)
  }

  lemma PortIs(s: string)
    ensures PortPart(s) <==> PortDigits(s)
  {
    if s != "" {
      if PortPart(s) {
        forall i | 1 <= i < |s| ensures 48 <= s[i] as int <= 57 { assert Digit(s[1..][i - 1]); }
      }
      if PortDigits(s) {
        forall i | 0 <= i < |s[1..]| ensures Digit(s[1..][i]) { assert s[1..][i] == s[i + 1]; }
      }
    }
  }

  /** A host is a registered name or a bracketed literal, and perhaps a port: no user information, no path, nothing else. */
  lemma HostIs(s: string)
    ensures ValidHost(s) <==> exists n: nat :: n <= |s| && (NamePart(s[..n]) || LiteralPart(s[..n])) && PortDigits(s[n..])
  {
    hide PortPart, PortDigits;
    if ValidHost(s) {
      if n: nat :| 1 <= n <= |s| && (forall i :: 0 <= i < n ==> HostChar(s[i])) && PortPart(s[n..]) {
        PortIs(s[n..]);
        NameIs(s, n);
      } else {
        var n: nat :| 3 <= n <= |s| && s[0] == '[' && s[n - 1] == ']' && (forall i :: 1 <= i < n - 1 ==> LiteralChar(s[i])) && PortPart(s[n..]);
        PortIs(s[n..]);
        LiteralIs(s, n);
      }
    }
    if n: nat :| n <= |s| && (NamePart(s[..n]) || LiteralPart(s[..n])) && PortDigits(s[n..]) {
      PortIs(s[n..]);
      NameIs(s, n);
      LiteralIs(s, n);
      hide NamePart, LiteralPart, HostChar, LiteralChar;
      assert ValidHost(s);
    }
  }

  lemma NameIs(s: string, n: nat)
    requires n <= |s|
    ensures NamePart(s[..n]) <==> n >= 1 && forall i :: 0 <= i < n ==> HostChar(s[i])
  {
    forall i | 0 <= i < n ensures s[..n][i] == s[i] {}
  }

  lemma LiteralIs(s: string, n: nat)
    requires n <= |s|
    ensures LiteralPart(s[..n]) <==> n >= 3 && s[0] == '[' && s[n - 1] == ']' && forall i :: 1 <= i < n - 1 ==> LiteralChar(s[i])
  {
    forall i | 0 <= i < n ensures s[..n][i] == s[i] {}
  }

  // ----- chunk sizes -----

  predicate Zeros(s: string) { forall i :: 0 <= i < |s| ==> s[i] as int == 48 }

  lemma {:induction false} ZerosAdd(z: string, s: string)
    requires Zeros(z) && AllHex(s)
    ensures AllHex(z + s) && HexValue(z + s) == HexValue(s)
    decreases |s|
  {
    var t := z + s;
    if s == [] {
      ZerosNothing(z);
      assert t == z;
    } else {
      ZerosAdd(z, s[..|s| - 1]);
      assert t[..|t| - 1] == z + s[..|s| - 1] && t[|t| - 1] == s[|s| - 1];
      HexDigits(z, s);
    }
  }

  lemma HexDigits(z: string, s: string)
    requires Zeros(z) && AllHex(s)
    ensures AllHex(z + s)
  {
    assert HexDigit('0');
    forall i | 0 <= i < |z + s| ensures HexDigit((z + s)[i]) { if i < |z| { assert z[i] == '0'; } }
  }

  lemma {:induction false} ZerosNothing(z: string)
    requires Zeros(z)
    ensures AllHex(z) && HexValue(z) == 0
  {
    forall i | 0 <= i < |z| ensures HexDigit(z[i]) { assert z[i] == '0'; }
    if z != [] { ZerosNothing(z[..|z| - 1]); }
  }

  /** Hexadecimal digits mean the same in either case. */
  lemma {:induction false} HexAnyCase(s: string, t: string)
    requires SameName(s, t) && AllHex(t)
    ensures AllHex(s) && HexValue(s) == HexValue(t)
  {
    forall i | 0 <= i < |s| ensures HexDigit(s[i]) { assert SameLetter(s[i], t[i]) && HexDigit(t[i]); }
    if s != [] {
      var k := |s| - 1;
      assert SameLetter(s[k], t[k]) && HexDigit(t[k]);
      HexAnyCase(s[..k], t[..k]);
    }
  }

  /** Zeros in front, digits in either case and an extension behind change nothing, up to 32 digits. */
  lemma SizeAnyCase(z: string, s: string, n: nat, extension: string)
    requires Zeros(z) && SameName(s, ToHex(n)) && n <= 0x1F_FFFF_FFFF_FFFF && |z + s| <= 32
    ensures SizeOf(z + s) == Some(n) && SizeOf(z + s + ";" + extension) == Some(n)
  {
    HexBack(n);
    HexAnyCase(s, ToHex(n));
    ZerosAdd(z, s);
    var t := z + s;
    NoStop(t);
    hide HexValue, AllHex, ToHex, SameName, Zeros;
    assert t + ";" + extension == t + [';'] + extension;
    IndexOfAt(t, ';', extension);
    assert (t + ";" + extension)[..|t|] == t;
    assert IndexOf(t, ';') == |t| && t[..|t|] == t;
  }

  lemma NoStop(t: string)
    requires AllHex(t)
    ensures ';' !in t
  {
    assert !HexDigit(';');
  }

  /** A size past the safe integers is refused however it is written. */
  lemma SizeBounded(z: string, s: string, n: nat)
    requires Zeros(z) && SameName(s, ToHex(n)) && n > 0x1F_FFFF_FFFF_FFFF
    ensures SizeOf(z + s) == None
  {
    HexBack(n);
    HexAnyCase(s, ToHex(n));
    ZerosAdd(z, s);
    var t := z + s;
    NoStop(t);
    assert IndexOf(t, ';') == |t| && t[..|t|] == t;
  }

  /** A character that is no hexadecimal digit, in front of any extension, is refused. */
  lemma SizeDigitsOnly(line: string, i: nat)
    requires i < |line| && ';' !in line[..i + 1]
    requires !('0' <= line[i] <= '9') && !('a' <= line[i] <= 'f') && !('A' <= line[i] <= 'F')
    ensures SizeOf(line) == None
  {
    var at := IndexOf(line, ';');
    assert forall k :: 0 <= k <= i ==> line[k] == line[..i + 1][k] != ';';
    assert line[..at][i] == line[i];
  }

  /** Data not ended by CR LF breaks the body. */
  lemma DataEnds(data: Bytes, behind: Bytes, max: int)
    requires 0 < |data| <= 0x1F_FFFF_FFFF_FFFF && max >= 15
    requires !([CR, LF] <= behind)
    ensures ReadChunks(SizeLine(|data|) + [CR, LF] + (data + behind), max) == Broken
  {
    var rest := data + behind;
    SafeHex(|data|);
    LineBack(SizeLine(|data|), rest, max);
    SizeBack(|data|);
    HexBack(|data|);
    PlainHex(|data|);
    TextBack(ToHex(|data|));
    assert rest[|data|..] == behind;
    NotEnded(behind);
    hide NextLine, SizeOf, ToHex;
  }

  lemma PlainHex(n: nat)
    ensures Latin1(ToHex(n)) && SizeLine(n) == ToBytes(ToHex(n))
  {
    HexBack(n);
  }

  lemma NotEnded(behind: Bytes)
    requires !([CR, LF] <= behind)
    ensures var end := NextLine(behind, 2); !(end.Line? && end.text == [])
  {
    if |behind| >= 2 && FirstLf(behind) == 1 { assert behind[..2] == [behind[0], LF]; }
  }

  // ----- what declares no framing -----

  lemma {:induction false} TrimCovers(s: string, i: nat)
    requires i < |s|
    ensures Space(s[i]) || s[i] in Trim(s)
    decreases |s|
  {
    hide Space;
    if Space(s[0]) {
      if i > 0 { TrimCovers(s[1..], i - 1); }
    } else if Space(s[|s| - 1]) {
      if i < |s| - 1 { TrimCovers(s[..|s| - 1], i); }
    }
  }

  lemma {:induction false} SplitCovers(s: string, c: char, i: nat) returns (j: nat)
    requires i < |s| && s[i] != c
    ensures j < |Split(s, c)| && s[i] in Split(s, c)[j]
    decreases |s|
  {
    var at := IndexOf(s, c);
    if i < at {
      j := 0;
      if at < |s| { assert s[..at][i] == s[i]; }
    } else {
      assert s[at + 1..][i - at - 1] == s[i];
      var k := SplitCovers(s[at + 1..], c, i - at - 1);
      j := k + 1;
    }
  }

  /** A character of a list is a comma, a space, or in one of its trimmed elements. */
  lemma PiecesCover(v: string, i: nat) returns (j: nat)
    requires i < |v| && v[i] != ',' && !Space(v[i])
    ensures j < |Pieces([v])| && v[i] in Pieces([v])[j]
  {
    OnePiece(v);
    j := SplitCovers(v, ',', i);
    var part := Split(v, ',')[j];
    var k :| 0 <= k < |part| && part[k] == v[i];
    TrimCovers(part, k);
    hide Split, Space, Trim;
  }

  /** A length that is read has nothing in it but digits, commas and spaces: no sign, no letter, no other mark. */
  lemma LengthIsDigits(v: string, i: nat)
    requires ParseContentLength([v]).Exactly? && i < |v| && v[i] != ',' && !Space(v[i])
    ensures '0' <= v[i] <= '9'
  {
    var j := PiecesCover(v, i);
    var part := Pieces([v])[j];
    assert part == Pieces([v])[0];
    var k :| 0 <= k < |part| && part[k] == v[i];
    assert Digit(part[k]);
  }

  lemma {:induction false} OnlyChunked(ps: seq<string>, j: nat)
    requires Codings(ps) == ["chunked"] || Codings(ps) == []
    requires j < |ps|
    ensures ps[j] == "" || Lower(ps[j]) == "chunked"
  {
    hide Lower;
    if ps[0] != "" {
      assert Codings(ps)[0] == Lower(ps[0]);
      assert Codings(ps)[1..] == Codings(ps[1..]);
    }
    if j > 0 { OnlyChunked(ps[1..], j - 1); }
  }

  /** A coding that is read has nothing in it but the letters of "chunked", commas and spaces: no other coding, no parameter. */
  lemma CodingIsChunked(hs: seq<Header>, v: string, version: string, i: nat)
    requires Under(hs, CODING) == [v] && ResolveFraming(hs, version) == Some(Chunked)
    requires i < |v| && v[i] != ',' && !Space(v[i])
    ensures exists m :: 0 <= m < 7 && SameLetter(v[i], "chunked"[m])
  {
    FramingFields(hs);
    var j := PiecesCover(v, i);
    OnlyChunked(Pieces([v]), j);
    var part := Pieces([v])[j];
    var m :| 0 <= m < |part| && part[m] == v[i];
    MatchedExactly(part, "chunked");
    assert Lower("chunked") == "chunked";
    hide Pieces, Codings, Lower, Under, Space;
    assert SameLetter(part[m], "chunked"[m]);
  }
}
