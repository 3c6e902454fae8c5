// The rebuilt request, written out: which bytes go to the origin for every request, and what a client's
// text becomes on its way through the proxy.
module Rebuilt {
  import opened Text
  import opened Http
  import opened Basics
  import opened RequestProofs
  import opened Reparse
  import opened WireRequests

  // Host and the nine hop-by-hop names do not go on.
  const NOT_FORWARDED: set<string> := {
    "host", "connection", "proxy-connection", "keep-alive", "transfer-encoding", "upgrade", "te", "trailer",
    "proxy-authorization", "proxy-authenticate"}

  function Surviving(hs: seq<Header>): (fs: seq<Header>) {
    if hs == [] then []
    else if Lower(hs[0].name) in NOT_FORWARDED then Surviving(hs[1..])
    else [hs[0]] + Surviving(hs[1..])
  }

  function FieldText(hs: seq<Header>): (s: string) {
    if hs == [] then "" else hs[0].name + ": " + hs[0].value + "\r\n" + FieldText(hs[1..])
  }

  lemma DroppedNames(h: Header)
    ensures Dropped(h) <==> Lower(h.name) in NOT_FORWARDED
  {
    hide Lower;
  }

  lemma {:induction false} ForwardedSurvives(hs: seq<Header>)
    ensures Forwarded(hs) == Surviving(hs)
  {
    hide Lower, Dropped;
    if hs != [] {
      ForwardedSurvives(hs[1..]);
      DroppedNames(hs[0]);
      assert [] + Forwarded(hs[1..]) == Forwarded(hs[1..]);
    }
  }

  lemma {:induction false} FieldLines(hs: seq<Header>)
    ensures Join(HeaderLines(hs)) == FieldText(hs)
  {
    if hs == [] {
      assert HeaderLines(hs) == [];
      JoinNil();
    } else {
      FieldLines(hs[1..]);
      JoinFields(hs);
      hide Join, HeaderLines;
      FieldLine(hs[0], FieldText(hs[1..]));
    }
  }

  lemma FieldLine(h: Header, more: string)
    ensures Line(HeaderLine(h)) + more == h.name + ": " + h.value + "\r\n" + more
  {
  }

  function HostText(host: string, port: string): (s: string) { if port == "80" then host else host + ":" + port }

  // build_upstream_request, for every request and body.
  lemma RebuiltText(req: Request, body: string)
    ensures Build(req, body)
         == req.method_ + " " + req.path + " HTTP/1.1\r\n" + "Host: " + HostText(req.host, req.port) + "\r\n"
            + FieldText(Surviving(req.headers)) + "Connection: close\r\n\r\n" + body
  {
    BuildText(req, body);
    ForwardedSurvives(req.headers);
    FieldLines(Surviving(req.headers));
    hide Build, Join, Forwarded, Surviving, FieldText, HeaderLines;
    TopText(req);
    var top, middle := RequestLine(req) + CRLF + HeaderLine(Header("Host", HostValue(req))) + CRLF, FieldText(Surviving(req.headers));
    hide RequestLine, HeaderLine, HostValue, HostText;
    assert top + middle + "Connection: close" + CRLF + CRLF + body == top + middle + "Connection: close\r\n\r\n" + body;
  }

  lemma TopText(req: Request)
    ensures RequestLine(req) + CRLF + HeaderLine(Header("Host", HostValue(req))) + CRLF
         == req.method_ + " " + req.path + " HTTP/1.1\r\n" + "Host: " + HostText(req.host, req.port) + "\r\n"
  {
  }

  // Read by the proxy's own line and header rules, the text is these three words, this Host, these
  // fields, Connection: close, and this body.
  ghost predicate OriginReads(out: string, m: string, path: string, host: string, fields: seq<Header>, body: string) {
    var eol, end := Find(out, CRLF), Find(out, BLANK_LINE);
    && 0 <= eol <= |out| && out[..eol] == m + " " + path + " HTTP/1.1"
    && 0 <= end && end + 4 <= |out| && out[end + 4..] == body
    && ParseHeaders(out, eol + 2, end, [])
       == (true, [Header("Host", Trim(host))] + fields + [Header("Connection", "close")])
  }

  lemma RebuiltReads(buf: string, req: Request, body: string)
    requires Accepted(buf, req)
    ensures OriginReads(Build(req, body), req.method_, req.path, HostText(req.host, req.port), Surviving(req.headers), body)
  {
    hide Accepted, Build, Find, ParseHeaders, Surviving, Forwarded, Trim;
    RebuiltRequestReadsBack(buf, req, body);
    TextLong(req, body);
    ForwardedSurvives(req.headers);
  }

  // What becomes of a client's request to target t: the origin reads the client's method, the target's
  // path, a Host made of the target's host and port, the client's surviving fields and the same body.
  lemma ThroughTheProxy(m: string, t: Target, version: string, hs: seq<Header>, body: string)
    requires KnownMethod(m) && Legal(t) && NoCrlf(StartLine(m, t, version))
    requires forall i :: 0 <= i < |hs| ==> Sendable(hs[i])
    requires Parse(RequestText(m, t, version, hs, body), FRESH).0.Ok?
    ensures OriginReads(Build(Parse(RequestText(m, t, version, hs, body), FRESH).1, body), m,
                        if t.path == "" then "/" else t.path,
                        if t.port.Some? && t.port.value != "80" then t.host + ":" + t.port.value else t.host,
                        Surviving(ReadBackAll(hs)), body)
  {
    ParsedParts(m, t, version, hs, body);
    hide Parse, Legal, Sendable, NoCrlf, StartLine, RequestText, KnownMethod, ReadBackAll, Surviving, OriginReads, Build;
    RebuiltReads(RequestText(m, t, version, hs, body), Parse(RequestText(m, t, version, hs, body), FRESH).1, body);
  }

  lemma TextLong(req: Request, body: string)
    ensures |RequestLine(req)| <= |Build(req, body)| && |Build(req, body)| >= |body| + 4
  {
    JoinCons(RequestLine(req), HeaderLines(UpstreamHeaders(req)));
    hide Join, HeaderLines, UpstreamHeaders, RequestLine;
  }

  lemma ParsedParts(m: string, t: Target, version: string, hs: seq<Header>, body: string)
    requires KnownMethod(m) && Legal(t) && NoCrlf(StartLine(m, t, version))
    requires forall i :: 0 <= i < |hs| ==> Sendable(hs[i])
    requires Parse(RequestText(m, t, version, hs, body), FRESH).0.Ok?
    ensures var req := Parse(RequestText(m, t, version, hs, body), FRESH).1;
            && req.method_ == m && req.host == t.host && req.path == (if t.path == "" then "/" else t.path)
            && req.port == (if t.port.Some? then t.port.value else "80") && req.headers == ReadBackAll(hs)
  {
    hide Parse, Legal, Sendable, NoCrlf, StartLine, RequestText, KnownMethod, ReadBackAll;
    RequestReadsBack(m, t, version, hs, body);
    TextIsLong(m, t, version, hs, body);
    hide HeaderValue, Find, Lower;
  }
}
