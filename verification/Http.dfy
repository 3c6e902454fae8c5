// The request parser and the rebuilder for the origin (src/http.cpp), with cache_key (src/cache.cpp).
// The functions say what the calls compute; the methods at the end are the loops of the source,
// proved to compute exactly that.
module Http {
  import opened Text

  // Largest value of size_t and of unsigned long.
  const SIZE_MAX: nat := 0xFFFF_FFFF_FFFF_FFFF

  datatype Header = Header(name: string, value: string)

  datatype Request = Request(
    method_: string, host: string, port: string, path: string, version: string,
    headers: seq<Header>,
    contentLength: nat,
    headerBytes: nat)

  // A default-constructed Request.
  const FRESH := Request("", "", "80", "/", "", [], 0, 0)

  datatype ParseResult = Incomplete | Ok | BadRequest | NotImplemented

  predicate IsHopByHop(lname: string) {
    lname == "connection" || lname == "proxy-connection" || lname == "keep-alive" ||
    lname == "transfer-encoding" || lname == "upgrade" || lname == "te" ||
    lname == "trailer" || lname == "proxy-authorization" || lname == "proxy-authenticate"
  }

  // First match, case-insensitive; "" when absent.
  function HeaderValue(headers: seq<Header>, name: string): (v: string) {
    if headers == [] then ""
    else if Lower(headers[0].name) == Lower(name) then headers[0].value
    else HeaderValue(headers[1..], name)
  }

  // std::strtoul on a digit string: saturates at the largest unsigned long.
  function StrToUl(s: string): (n: nat)
    requires AllDigits(s)
    ensures n <= SIZE_MAX
    ensures ToNat(s) <= SIZE_MAX ==> n == ToNat(s)
  {
    if ToNat(s) > SIZE_MAX then SIZE_MAX else ToNat(s)
  }

  // ---- http://host:port/path ------------------------------------------------------------------

  const SCHEME := "http://"

  // The authority part of the URL: up to the first '/' after the scheme.
  function Authority(url: string): (a: string)
    requires |SCHEME| <= |url|
  {
    var slash := FindFrom(url, "/", |SCHEME|);
    if slash < 0 then url[|SCHEME|..] else url[|SCHEME|..slash]
  }

  function UrlPath(url: string): (p: string) {
    var slash := FindFrom(url, "/", |SCHEME|);
    if slash < 0 then "/" else url[slash..]
  }

  // Fills in host and port, leaving the port alone when the authority names none.  The flag is
  // false for an unclosed bracket.
  function SplitAuthority(authority: string, out: Request): (r: (bool, Request))
    requires authority != ""
  {
    if authority[0] == '[' then
      var close := Find(authority, "]");
      if close <= 0 then (false, out)  // a bracket opens at 0, so only "not found" gets here
      else
        var o := out.(host := authority[1..close]);
        if close + 1 < |authority| && authority[close + 1] == ':'
        then (true, o.(port := authority[close + 2..]))
        else (true, o)
    else
      var colon := RFindChar(authority, ':');
      if colon < 0 then (true, out.(host := authority))
      else (true, out.(host := authority[..colon], port := authority[colon + 1..]))
  }

  function SplitAbsoluteUrl(url: string, out: Request): (r: (bool, Request)) {
    if |url| < |SCHEME| || Lower(url[..|SCHEME|]) != SCHEME then (false, out)
    else
      var o := out.(path := UrlPath(url));
      if Authority(url) == "" then (false, o)
      else
        var s := SplitAuthority(Authority(url), o);
        (s.0 && s.1.host != "" && s.1.port != "" && AllDigits(s.1.port), s.1)
  }

  // ---- parse_request --------------------------------------------------------------------------

  // The header loop: lines from pos up to end, appended to acc.  The flag is false on a line
  // without a colon.
  function ParseHeaders(buf: string, pos: nat, end: nat, acc: seq<Header>): (r: (bool, seq<Header>))
    decreases end - pos
  {
    if pos >= end then (true, acc)
    else
      var eol := FindFrom(buf, CRLF, pos);
      if eol < 0 || eol > end || eol == pos then (true, acc)
      else
        var colon := Find(buf[pos..eol], ":");
        if colon < 0 then (false, acc)
        else ParseHeaders(buf, eol + 2, end, acc + [HeaderOf(buf[pos..eol], colon)])
  }

  function HeaderOf(line: string, colon: nat): (h: Header)
    requires colon < |line|
  {
    Header(Trim(line[..colon]), Trim(line[colon + 1..]))
  }

  predicate KnownMethod(m: string) { m == "GET" || m == "HEAD" || m == "POST" }

  // What follows the header loop: chunked bodies are refused, Content-Length is read.
  function ParseFraming(o: Request): (r: (ParseResult, Request)) {
    var cl := HeaderValue(o.headers, "Content-Length");
    if Find(Lower(HeaderValue(o.headers, "Transfer-Encoding")), "chunked") >= 0 then (NotImplemented, o)
    else if cl == "" then (Ok, o)
    else if !AllDigits(cl) then (BadRequest, o)
    else (Ok, o.(contentLength := StrToUl(cl)))
  }

  // Method, version and URL out of the request line; the result is Ok when parsing goes on.
  function ParseRequestLine(line: string, out: Request): (r: (ParseResult, Request)) {
    var sp1 := Find(line, " ");
    if sp1 < 0 then (BadRequest, out)
    else
      var sp2 := FindFrom(line, " ", sp1 + 1);
      if sp2 < 0 then (BadRequest, out)
      else
        var o := out.(method_ := line[..sp1], version := line[sp2 + 1..]);
        if !KnownMethod(o.method_) then (NotImplemented, o)
        else
          var u := SplitAbsoluteUrl(line[sp1 + 1..sp2], o);
          (if u.0 then Ok else BadRequest, u.1)
  }

  // parse_request(buf, out): `out` is filled in place, so the Request comes in and goes out, also
  // half filled on the error paths.
  function Parse(buf: string, out: Request): (r: (ParseResult, Request)) {
    var end := Find(buf, BLANK_LINE);
    if end < 0 then (Incomplete, out)
    else
      var o := out.(headerBytes := end + 4);
      var lineEnd := Find(buf, CRLF);
      if lineEnd <= 0 then (BadRequest, o)
      else
        var l := ParseRequestLine(buf[..lineEnd], o);
        if !l.0.Ok? then l
        else
          var h := ParseHeaders(buf, lineEnd + 2, end, l.1.headers);
          var o' := l.1.(headers := h.1);
          if !h.0 then (BadRequest, o') else ParseFraming(o')
  }

  // ---- build_upstream_request -----------------------------------------------------------------

  function Line(l: string): (s: string) { l + CRLF }

  // A text of lines, each closed by CRLF.
  function Join(lines: seq<string>): (s: string) {
    if lines == [] then "" else Line(lines[0]) + Join(lines[1..])
  }

  predicate Dropped(h: Header) {
    Lower(h.name) == "host" || IsHopByHop(Lower(h.name))
  }

  function Kept(h: Header): (fs: seq<Header>) { if Dropped(h) then [] else [h] }

  // The client's headers that go on to the origin, in order.
  function Forwarded(headers: seq<Header>): (fs: seq<Header>) {
    if headers == [] then [] else Kept(headers[0]) + Forwarded(headers[1..])
  }

  function HeaderLine(h: Header): (s: string) { h.name + ": " + h.value }

  function HeaderLines(hs: seq<Header>): (ls: seq<string>)
    ensures |ls| == |hs|
    ensures forall i :: 0 <= i < |hs| ==> ls[i] == HeaderLine(hs[i])
  {
    seq(|hs|, i requires 0 <= i < |hs| => HeaderLine(hs[i]))
  }

  function HostValue(req: Request): (s: string) {
    if req.port != "80" then req.host + ":" + req.port else req.host
  }

  function RequestLine(req: Request): (s: string) { req.method_ + " " + req.path + " HTTP/1.1" }

  // The header fields sent to the origin: our Host, the client's that are not dropped, close.
  function UpstreamHeaders(req: Request): (hs: seq<Header>) {
    [Header("Host", HostValue(req))] + Forwarded(req.headers) + [Header("Connection", "close")]
  }

  function Build(req: Request, body: string): (s: string)
    ensures s != ""
  {
    Join([RequestLine(req)] + HeaderLines(UpstreamHeaders(req))) + CRLF + body
  }

  function ErrorResponse(code: nat, reason: string): (s: string)
    ensures s != ""
  {
    var body := Decimal(code) + " " + reason + "\n";
    Join(["HTTP/1.1 " + Decimal(code) + " " + reason] +
         HeaderLines([Header("Content-Type", "text/plain"),
                      Header("Content-Length", Decimal(|body|)),
                      Header("Connection", "close")])) + CRLF + body
  }

  // ---- cache_key ------------------------------------------------------------------------------

  function CacheKey(req: Request): (key: string)
    ensures key != ""
  {
    req.method_ + " " + req.host + ":" + req.port + req.path
  }

  // ---- the loops ------------------------------------------------------------------------------

  // The while loop of parse_request.
  method ReadHeaders(buf: string, start: nat, end: nat, acc: seq<Header>) returns (ok: bool, headers: seq<Header>)
    ensures (ok, headers) == ParseHeaders(buf, start, end, acc)
  {
    hide FindFrom, Find, HeaderOf;
    var pos := start;
    headers := acc;
    while pos < end
      invariant 0 <= pos
      invariant ParseHeaders(buf, pos, end, headers) == ParseHeaders(buf, start, end, acc)
      decreases end - pos
    {
      var eol := FindFrom(buf, CRLF, pos);
      if eol < 0 || eol > end { break; }
      var h := buf[pos..eol];
      pos := eol + 2;
      if h == "" { return true, headers; }
      var colon := Find(h, ":");
      if colon < 0 { return false, headers; }
      headers := headers + [HeaderOf(h, colon)];
    }
    return true, headers;
  }

  method ParseRequest(buf: string, out: Request) returns (result: ParseResult, req: Request)
    ensures (result, req) == Parse(buf, out)
  {
    hide ParseRequestLine, ParseHeaders, ParseFraming, Find;
    req := out;
    var end := Find(buf, BLANK_LINE);
    if end < 0 { return Incomplete, req; }
    req := req.(headerBytes := end + 4);

    var lineEnd := Find(buf, CRLF);
    if lineEnd <= 0 { return BadRequest, req; }
    var l := ParseRequestLine(buf[..lineEnd], req);
    req := l.1;
    if l.0 != Ok { return l.0, req; }

    var ok, hs := ReadHeaders(buf, lineEnd + 2, end, req.headers);
    req := req.(headers := hs);
    if !ok { return BadRequest, req; }

    var framed := ParseFraming(req);
    return framed.0, framed.1;
  }

  lemma JoinCons(l: string, ls: seq<string>)
    ensures Join([l] + ls) == Line(l) + Join(ls)
  {
    assert ([l] + ls)[1..] == ls;
  }

  lemma {:induction false} JoinConcat(a: seq<string>, b: seq<string>)
    ensures Join(a + b) == Join(a) + Join(b)
  {
    if a == [] {
      JoinNil();
      assert a + b == b;
    } else {
      JoinConcat(a[1..], b);
      JoinCons(a[0], a[1..] + b);
      JoinCons(a[0], a[1..]);
      hide Line, Join;
      Uncons(a, b);
      Assoc(Line(a[0]), Join(a[1..]), Join(b));
    }
  }

  lemma ForwardedCons(h: Header, hs: seq<Header>)
    ensures Forwarded([h] + hs) == Kept(h) + Forwarded(hs)
  {
    hide Kept;
    assert ([h] + hs)[1..] == hs;
  }

  lemma {:induction false} ForwardedConcat(a: seq<Header>, b: seq<Header>)
    ensures Forwarded(a + b) == Forwarded(a) + Forwarded(b)
  {
    if a == [] {
      JoinNil();
      assert a + b == b;
    } else {
      ForwardedConcat(a[1..], b);
      ForwardedCons(a[0], a[1..] + b);
      ForwardedCons(a[0], a[1..]);
      hide Kept, Forwarded;
      Uncons(a, b);
      Assoc(Kept(a[0]), Forwarded(a[1..]), Forwarded(b));
    }
  }

  // One turn of the loop over the client's headers.
  lemma ForwardOne(hs: seq<Header>, i: nat)
    requires i < |hs|
    ensures Join(HeaderLines(Forwarded(hs[..i + 1])))
         == Join(HeaderLines(Forwarded(hs[..i]))) + (if Dropped(hs[i]) then "" else HeaderLine(hs[i]) + CRLF)
  {
    hide Join, Dropped, HeaderLine;
    var h := hs[i];
    var before := Forwarded(hs[..i]);
    ForwardedConcat(hs[..i], [h]);
    assert hs[..i + 1] == hs[..i] + [h];
    ForwardedCons(h, []);
    JoinNil();
    hide Forwarded;
    assert [h] + [] == [h] && Kept(h) + [] == Kept(h);
    if Dropped(h) {
      assert before + [] == before;
      assert Join(HeaderLines(before)) + "" == Join(HeaderLines(before));
    } else {
      AppendLine(HeaderLines(before), HeaderLine(h));
      assert HeaderLines(before + [h]) == HeaderLines(before) + [HeaderLine(h)];
      hide HeaderLines;
      Assoc(Join(HeaderLines(before)), HeaderLine(h), CRLF);
    }
  }

  lemma AddedField(top: string, done: string, h: Header)
    ensures top + done + h.name + ": " + h.value + CRLF == top + (done + (HeaderLine(h) + CRLF))
  {
  }

  // The loop of build_upstream_request: appends the lines of the fields that go on.
  method AppendFields(top: string, headers: seq<Header>) returns (out: string)
    ensures out == top + Join(HeaderLines(Forwarded(headers)))
  {
    hide Join, Forwarded, HeaderLines, HeaderLine;
    JoinNil();
    assert HeaderLines([]) == [];
    out := top;
    var i := 0;
    while i < |headers|
      invariant 0 <= i <= |headers|
      invariant out == top + Join(HeaderLines(Forwarded(headers[..i])))
    {
      var h := headers[i];
      ghost var done := Join(HeaderLines(Forwarded(headers[..i])));
      ForwardOne(headers, i);
      AddedField(top, done, h);
      assert done + "" == done;
      if !(Lower(h.name) == "host" || IsHopByHop(Lower(h.name))) {
        out := out + h.name + ": " + h.value + CRLF;
      }
      i := i + 1;
    }
    assert headers[..i] == headers;
  }

  method BuildUpstreamRequest(req: Request, body: string) returns (out: string)
    ensures out == Build(req, body)
  {
    hide Join, Forwarded, HeaderLines, Build;
    out := req.method_ + " " + req.path + " HTTP/1.1" + CRLF;
    out := out + "Host: " + req.host;
    if req.port != "80" {
      out := out + ":" + req.port;
    }
    out := out + CRLF;
    assert out == RequestLine(req) + CRLF + HeaderLine(Header("Host", HostValue(req))) + CRLF;
    hide RequestLine, HeaderLine, HostValue;
    out := AppendFields(out, req.headers);
    BuildText(req, body);
    out := out + "Connection: close" + CRLF + CRLF;
    out := out + body;
  }

  lemma BuildText(req: Request, body: string)
    ensures Build(req, body)
         == RequestLine(req) + CRLF + HeaderLine(Header("Host", HostValue(req))) + CRLF
            + Join(HeaderLines(Forwarded(req.headers))) + "Connection: close" + CRLF + CRLF + body
  {
    hide Join, Forwarded;
    var request, host, last := RequestLine(req), HeaderLine(Header("Host", HostValue(req))), "Connection: close";
    var middle := HeaderLines(Forwarded(req.headers));
    assert HeaderLine(Header("Connection", "close")) == last;
    assert [request] + HeaderLines(UpstreamHeaders(req)) == [] + [request] + [host] + middle + [last];
    JoinNil();
    AppendLine([], request);
    AppendLine([] + [request], host);
    JoinConcat([] + [request] + [host], middle);
    AppendLine([] + [request] + [host] + middle, last);
  }

  lemma JoinNil()
    ensures Join([]) == ""
    ensures Forwarded([]) == []
  {
  }

  lemma AppendLine(lines: seq<string>, l: string)
    ensures Join(lines + [l]) == Join(lines) + l + CRLF
  {
    JoinConcat(lines, [l]);
    assert Join([l]) == Line(l) + Join([]);
  }
}
