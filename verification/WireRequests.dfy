// What parse_request makes of a request written by the book: every method, target, version, header
// list and body comes back.
module WireRequests {
  import opened Text
  import opened Http
  import opened Basics
  import opened RequestProofs
  import opened Reparse

  // An absolute-form target as a client writes it.
  datatype Target = Target(host: string, port: Option<string>, bracketed: bool, path: string)

  function AuthorityText(t: Target): (s: string) {
    (if t.bracketed then "[" + t.host + "]" else t.host) + (if t.port.Some? then ":" + t.port.value else "")
  }

  function UrlText(t: Target): (s: string) { SCHEME + AuthorityText(t) + t.path }

  // An IPv6 host needs its brackets; any other host has no '[' in front and, without a port, no ':'.
  ghost predicate Legal(t: Target) {
    && t.host != "" && NoChar(t.host, '/') && NoChar(t.host, ' ')
    && (t.port.Some? ==> t.port.value != "" && AllDigits(t.port.value))
    && (t.path == "" || t.path[0] == '/') && NoChar(t.path, ' ')
    && (if t.bracketed then NoChar(t.host, ']')
        else t.host[0] != '[' && (t.port.None? ==> NoChar(t.host, ':')))
  }

  // The target as the Request holds it: port 80 and path "/" when the URL names none.
  function Filled(t: Target, out: Request): (r: Request) {
    out.(host := t.host, port := if t.port.Some? then t.port.value else "80",
         path := if t.path == "" then "/" else t.path)
  }

  lemma FindChar(s: string, c: char, from: nat, k: nat)
    requires from <= k < |s| && s[k] == c && forall i :: from <= i < k ==> s[i] != c
    ensures FindFrom(s, [c], from) == k
  {
    assert s[k..k + 1] == [s[k]];
    forall i | from <= i < k ensures !At(s, [c], i) { assert s[i..i + 1] == [s[i]]; }
    hide At;
    FindUnique(s, [c], from, k);
  }

  lemma OneChar(s: string, i: nat)
    requires i < |s|
    ensures s[i..i + 1] == [s[i]]
  {
  }

  lemma FindNoChar(s: string, c: char, from: nat)
    requires forall i :: from <= i < |s| ==> s[i] != c
    ensures FindFrom(s, [c], from) < 0
  {
    var r := FindFrom(s, [c], from);
    if r >= 0 {
      OneChar(s, r);
      assert false;
    }
  }

  lemma AuthorityFacts(t: Target)
    requires Legal(t)
    ensures AuthorityText(t) != "" && NoChar(AuthorityText(t), '/') && NoChar(AuthorityText(t), ' ')
  {
  }

  lemma AuthorityReadsBack(t: Target, out: Request)
    requires Legal(t) && out.port == "80"
    ensures SplitAuthority(AuthorityText(t), out)
         == (true, out.(host := t.host, port := if t.port.Some? then t.port.value else "80"))
  {
    if t.bracketed { BracketsReadBack(t, out); } else { NameReadsBack(t, out); }
  }

  lemma BracketsReadBack(t: Target, out: Request)
    requires Legal(t) && out.port == "80" && t.bracketed
    ensures SplitAuthority(AuthorityText(t), out)
         == (true, out.(host := t.host, port := if t.port.Some? then t.port.value else "80"))
  {
    var a, n := AuthorityText(t), |t.host|;
    assert a[n + 1] == ']' && forall i :: 0 <= i < n + 1 ==> a[i] != ']';
    FindChar(a, ']', 0, n + 1);
    hide FindFrom, At;
    assert a[1..n + 1] == t.host;
    if t.port.Some? { assert a[n + 2] == ':' && a[n + 3..] == t.port.value; }
  }

  lemma NameReadsBack(t: Target, out: Request)
    requires Legal(t) && out.port == "80" && !t.bracketed
    ensures SplitAuthority(AuthorityText(t), out)
         == (true, out.(host := t.host, port := if t.port.Some? then t.port.value else "80"))
  {
    if t.port.Some? {
      LastColon(t.host, t.port.value);
      hide RFindChar;
      assert AuthorityText(t) == t.host + ":" + t.port.value by { Assoc(t.host, ":", t.port.value); }
    } else {
      assert AuthorityText(t) == t.host;
      assert RFindChar(t.host, ':') < 0;
    }
  }

  // The port of host:port is after its last colon.
  lemma LastColon(host: string, port: string)
    requires host != "" && AllDigits(port)
    ensures var a, n := host + ":" + port, |host|;
            RFindChar(a, ':') == n && a[0] == host[0] && a[..n] == host && a[n + 1..] == port
  {
    var a, n := host + ":" + port, |host|;
    assert a[n] == ':';
    forall i | n < i < |a| ensures a[i] != ':' { assert a[i] == port[i - n - 1]; }
  }

  lemma UrlSplits(t: Target)
    requires Legal(t)
    ensures var url := UrlText(t);
            && |SCHEME| <= |url| && url[..|SCHEME|] == SCHEME
            && Authority(url) == AuthorityText(t) && UrlPath(url) == if t.path == "" then "/" else t.path
  {
    AuthorityFacts(t);
    var url, a, n := UrlText(t), AuthorityText(t), |SCHEME|;
    hide AuthorityText;
    assert forall i :: n <= i < n + |a| ==> url[i] == a[i - n];
    if t.path == "" {
      FindNoChar(url, '/', n);
      assert url[n..] == a;
    } else {
      assert url[n + |a|] == '/';
      FindChar(url, '/', n, n + |a|);
      assert url[n..n + |a|] == a && url[n + |a|..] == t.path;
    }
  }

  lemma SchemeIsLower()
    ensures Lower(SCHEME) == SCHEME
  {
  }

  // split_absolute_url undoes UrlText.
  lemma TargetReadsBack(t: Target, out: Request)
    requires Legal(t) && out.port == "80"
    ensures SplitAbsoluteUrl(UrlText(t), out) == (true, Filled(t, out))
  {
    hide UrlText, AuthorityText, SplitAuthority, Authority, UrlPath, Lower;
    UrlSplits(t);
    AuthorityFacts(t);
    AuthorityReadsBack(t, out.(path := if t.path == "" then "/" else t.path));
    SchemeIsLower();
  }

  function StartLine(m: string, t: Target, version: string): (s: string) {
    m + " " + UrlText(t) + " " + version
  }

  lemma WordSlices(a: string, b: string, c: string)
    ensures var s, n := a + " " + b + " " + c, |a| + 1 + |b|;
            && n < |s| && s[|a|] == ' ' && s[n] == ' ' && s[..|a|] == a && s[|a| + 1..n] == b && s[n + 1..] == c
            && (forall i :: 0 <= i < |a| ==> s[i] == a[i])
            && (forall i :: |a| + 1 <= i < n ==> s[i] == b[i - |a| - 1])
  {
  }

  lemma Words(a: string, b: string, c: string)
    requires NoChar(a, ' ') && NoChar(b, ' ')
    ensures var s, n := a + " " + b + " " + c, |a| + 1 + |b|; Find(s, " ") == |a| && FindFrom(s, " ", |a| + 1) == n
  {
    hide FindFrom, At;
    var s, n := a + " " + b + " " + c, |a| + 1 + |b|;
    WordSlices(a, b, c);
    FindChar(s, ' ', 0, |a|);
    FindChar(s, ' ', |a| + 1, n);
  }

  lemma UrlHasNoBlank(t: Target)
    requires Legal(t)
    ensures NoChar(UrlText(t), ' ')
  {
    AuthorityFacts(t);
    hide AuthorityText;
  }

  lemma LineInSteps(line: string, m: string, url: string, version: string, out: Request)
    requires KnownMethod(m) && line == m + " " + url + " " + version
    requires Find(line, " ") == |m| && FindFrom(line, " ", |m| + 1) == |m| + 1 + |url|
    ensures var u := SplitAbsoluteUrl(url, out.(method_ := m, version := version));
            ParseRequestLine(line, out) == (if u.0 then Ok else BadRequest, u.1)
  {
    hide SplitAbsoluteUrl, Find, FindFrom, At, KnownMethod;
    WordSlices(m, url, version);
  }

  lemma MethodHasNoBlank(m: string)
    requires KnownMethod(m)
    ensures NoChar(m, ' ')
  {
  }

  lemma StartLineReadsBack(m: string, t: Target, version: string, out: Request)
    requires KnownMethod(m) && Legal(t) && out.port == "80"
    ensures ParseRequestLine(StartLine(m, t, version), out)
         == (Ok, Filled(t, out.(method_ := m, version := version)))
  {
    hide UrlText, Filled, SplitAbsoluteUrl, Legal, NoChar, Find, FindFrom, At, KnownMethod, ParseRequestLine;
    MethodHasNoBlank(m);
    UrlHasNoBlank(t);
    TargetReadsBack(t, out.(method_ := m, version := version));
    Words(m, UrlText(t), version);
    LineInSteps(StartLine(m, t, version), m, UrlText(t), version, out);
  }

  // The steps of parse_request put together.
  lemma ParseInSteps(s: string, first: string, end: nat, o: Request, hs: seq<Header>)
    requires Find(s, BLANK_LINE) == end && Find(s, CRLF) == |first| && 0 < |first| <= |s| && s[..|first|] == first
    requires ParseRequestLine(first, FRESH.(headerBytes := end + 4)) == (Ok, o) && o.headers == []
    requires ParseHeaders(s, |first| + 2, end, []) == (true, hs)
    ensures Parse(s, FRESH) == ParseFraming(o.(headers := hs))
  {
    hide ParseHeaders, ParseRequestLine, ParseFraming, Find;
  }

  // A whole request as a client sends it.
  function RequestText(m: string, t: Target, version: string, hs: seq<Header>, body: string): (s: string) {
    Join([StartLine(m, t, version)] + HeaderLines(hs)) + (CRLF + body)
  }

  lemma TextIsLong(m: string, t: Target, version: string, hs: seq<Header>, body: string)
    ensures |StartLine(m, t, version)| > 0
    ensures |RequestText(m, t, version, hs, body)| >= |StartLine(m, t, version)| + |body| + 3
  {
    JoinCons(StartLine(m, t, version), HeaderLines(hs));
    hide Join, HeaderLines, UrlText;
  }

  // Everything up to the framing checks comes back as written, values trimmed.
  lemma RequestReadsBack(m: string, t: Target, version: string, hs: seq<Header>, body: string)
    requires KnownMethod(m) && Legal(t) && NoCrlf(StartLine(m, t, version))
    requires forall i :: 0 <= i < |hs| ==> Sendable(hs[i])
    ensures var s := RequestText(m, t, version, hs, body);
            Parse(s, FRESH) == ParseFraming(
              Filled(t, FRESH).(method_ := m, version := version, headers := ReadBackAll(hs),
                                headerBytes := |s| - |body|))
  {
    var first, s := StartLine(m, t, version), RequestText(m, t, version, hs, body);
    TextIsLong(m, t, version, hs, body);
    hide StartLine, Legal, Sendable, NoCrlf, Join, ParseHeaders, ParseRequestLine, ParseFraming, HeaderLines,
         Find, FindFrom, At, Parse, KnownMethod, ReadBackAll;
    LinesReadBack(first, hs, body);
    var o := FRESH.(headerBytes := |s| - |body|);
    StartLineReadsBack(m, t, version, o);
    assert [] + ReadBackAll(hs) == ReadBackAll(hs);
    assert FRESH.(headerBytes := |s| - |body| - 4 + 4) == o;
    ParseInSteps(s, first, |s| - |body| - 4, Filled(t, o.(method_ := m, version := version)), ReadBackAll(hs));
  }

  lemma RefusedIffFound(o: Request)
    ensures ParseFraming(o).0 == NotImplemented <==>
            Find(Lower(HeaderValue(o.headers, "Transfer-Encoding")), "chunked") >= 0
  {
    hide Find, Lower, HeaderValue;
  }

  lemma FoundIffThere(s: string, p: string)
    ensures Find(s, p) >= 0 <==> exists i :: At(s, p, i)
  {
    FindFirst(s, p, 0);
    hide FindFrom;
    if exists i :: At(s, p, i) {
      var i :| At(s, p, i);
      assert 0 <= i;
    }
  }

  // The framing checks: chunked is refused and nothing else is; a length of digits is taken at its
  // value, up to the largest unsigned long; any other length is refused; none means no body.
  lemma FramingIsRead(o: Request)
    ensures var te, cl := HeaderValue(o.headers, "Transfer-Encoding"), HeaderValue(o.headers, "Content-Length");
            var r := ParseFraming(o);
            && (r.0 == NotImplemented <==> exists i :: At(Lower(te), "chunked", i))
            && (r.0 != NotImplemented && cl == "" ==> r == (Ok, o))
            && (r.0 != NotImplemented && cl != "" && AllDigits(cl) ==>
                  r == (Ok, o.(contentLength := if ToNat(cl) > SIZE_MAX then SIZE_MAX else ToNat(cl))))
            && (r.0 != NotImplemented && !AllDigits(cl) ==> r == (BadRequest, o))
  {
    hide Find, Lower, HeaderValue, At;
    RefusedIffFound(o);
    FoundIffThere(Lower(HeaderValue(o.headers, "Transfer-Encoding")), "chunked");
  }

  // A target for the concrete requests elsewhere.
  const HOST := Target("h", None, false, "/")

  lemma PostIsLegal()
    ensures KnownMethod("POST") && Legal(HOST) && NoCrlf(StartLine("POST", HOST, "HTTP/1.1"))
  {
    var line := StartLine("POST", HOST, "HTTP/1.1");
    assert line == "POST http://h/ HTTP/1.1";
    assert NoChar(line, '\r');
    NoCrlfOfNoReturn(line);
  }

  function PostText(hs: seq<Header>, body: string): (s: string) { RequestText("POST", HOST, "HTTP/1.1", hs, body) }

  function PostWith(hs: seq<Header>, headerBytes: nat): (r: Request) {
    Request("POST", "h", "80", "/", "HTTP/1.1", hs, 0, headerBytes)
  }

  // A POST with these fields parses to them, up to the framing checks.
  lemma PostReadsBack(hs: seq<Header>, body: string)
    requires forall i :: 0 <= i < |hs| ==> Sendable(hs[i])
    ensures var s := PostText(hs, body);
            |s| >= |body| + 4 && Parse(s, FRESH) == ParseFraming(PostWith(ReadBackAll(hs), |s| - |body|))
  {
    hide Parse, Sendable, NoCrlf, StartLine, Legal, KnownMethod, ReadBackAll, ParseFraming, RequestText;
    PostIsLegal();
    TextIsLong("POST", HOST, "HTTP/1.1", hs, body);
    RequestReadsBack("POST", HOST, "HTTP/1.1", hs, body);
    FilledPost(ReadBackAll(hs), |PostText(hs, body)| - |body|);
    hide Filled, PostWith;
  }

  lemma FilledPost(hs: seq<Header>, n: nat)
    ensures Filled(HOST, FRESH).(method_ := "POST", version := "HTTP/1.1", headers := hs, headerBytes := n) == PostWith(hs, n)
  {
  }

  // ---- error_response -------------------------------------------------------------------------

  function ErrorBody(code: nat, reason: string): (s: string) { Decimal(code) + " " + reason + "\n" }

  function ErrorHeaders(code: nat, reason: string): (hs: seq<Header>) {
    [Header("Content-Type", "text/plain"), Header("Content-Length", Decimal(|ErrorBody(code, reason)|)),
     Header("Connection", "close")]
  }

  function StatusLine(code: nat, reason: string): (s: string) { "HTTP/1.1 " + Decimal(code) + " " + reason }

  lemma StatusIsClean(code: nat, reason: string)
    requires NoChar(reason, '\r')
    ensures StatusLine(code, reason) != "" && NoCrlf(StatusLine(code, reason))
  {
    hide NoCrlf;
    assert NoChar(StatusLine(code, reason), '\r');
    NoCrlfOfNoReturn(StatusLine(code, reason));
  }

  lemma ErrorHeadersKept(code: nat, reason: string)
    ensures [] + ReadBackAll(ErrorHeaders(code, reason)) == ErrorHeaders(code, reason)
  {
    hide ErrorBody;
    assert Trim("text/plain") == "text/plain" && Trim("close") == "close";
    DigitsTrim(Decimal(|ErrorBody(code, reason)|));
    hide Trim;
  }

  lemma DigitsAreSendable(name: string, digits: string)
    requires NoChar(name, ':') && NoChar(name, '\r') && Trim(name) == name
    requires NoChar(digits, '\r')
    ensures Sendable(Header(name, digits))
  {
    NoCrlfOfNoReturn(name);
    NoCrlfOfNoReturn(digits);
    CleanIsSendable(Header(name, digits));
  }

  lemma FixedFieldsAreSendable()
    ensures Sendable(Header("Content-Type", "text/plain")) && Sendable(Header("Connection", "close"))
  {
    hide Sendable;
    DigitsAreSendable("Content-Type", "text/plain");
    DigitsAreSendable("Connection", "close");
  }

  lemma ErrorHeadersAreSendable(code: nat, reason: string)
    ensures forall i :: 0 <= i < |ErrorHeaders(code, reason)| ==> Sendable(ErrorHeaders(code, reason)[i])
  {
    FixedFieldsAreSendable();
    hide Sendable, ErrorBody;
    DigitsAreSendable("Content-Length", Decimal(|ErrorBody(code, reason)|));
  }

  lemma {:induction false} DigitsTrim(s: string)
    requires AllDigits(s)
    ensures Trim(s) == s
  {
    if s != "" { assert !IsBlank(s[0]) && !IsBlank(s[|s| - 1]); }
  }

  lemma ErrorIsLines(code: nat, reason: string)
    ensures ErrorResponse(code, reason)
         == Join([StatusLine(code, reason)] + HeaderLines(ErrorHeaders(code, reason)))
            + (CRLF + ErrorBody(code, reason))
  {
    hide Join, HeaderLines, Decimal;
    var head := Join([StatusLine(code, reason)] + HeaderLines(ErrorHeaders(code, reason)));
    assert head + CRLF + ErrorBody(code, reason) == head + (CRLF + ErrorBody(code, reason));
  }

  // A local error response is one status line, three fields and a body of exactly the length that
  // its Content-Length announces.
  lemma ErrorResponseIsFramed(code: nat, reason: string)
    requires NoChar(reason, '\r')
    ensures var s, body := ErrorResponse(code, reason), ErrorBody(code, reason);
            var first, end := StatusLine(code, reason), |s| - |body| - 4;
            && Find(s, BLANK_LINE) == end && s[end + 4..] == body
            && Find(s, CRLF) == |first| && s[..|first|] == first
            && ParseHeaders(s, |first| + 2, end, []) == (true, ErrorHeaders(code, reason))
  {
    hide StatusLine, Sendable, NoCrlf, NoChar, Join, ParseHeaders, HeaderLines, Find, ErrorResponse, ErrorBody,
         ReadBackAll;
    StatusIsClean(code, reason);
    ErrorHeadersAreSendable(code, reason);
    ErrorIsLines(code, reason);
    ErrorHeadersKept(code, reason);
    hide ErrorHeaders;
    LinesReadBack(StatusLine(code, reason), ErrorHeaders(code, reason), ErrorBody(code, reason));
  }
}
