// Whether the request that goes to the origin announces the body it carries.
module Framing {
  import opened Text
  import opened Http
  import opened Basics
  import opened RequestProofs
  import opened Reparse
  import opened WireRequests
  import opened ConnMachine
  import opened ConnRuns

  predicate IsLength(h: Header) { Lower(h.name) == "content-length" }

  predicate SaysLength(h: Header, n: nat) { h.value != "" && AllDigits(h.value) && ToNat(h.value) == n }

  // No Transfer-Encoding, every Content-Length field says n, and without one n is 0 (section 6.3 of
  // RFC 9112).
  ghost predicate FieldsFrame(fields: seq<Header>, n: nat) {
    && (forall h :: h in fields ==> Lower(h.name) != "transfer-encoding")
    && (forall h :: h in fields && IsLength(h) ==> SaysLength(h, n))
    && ((forall h :: h in fields ==> !IsLength(h)) ==> n == 0)
  }

  // Read by the proxy's own line and header rules, a request text announces exactly what follows its
  // blank line.
  ghost predicate FramesItsBody(text: string) {
    var eol, end := Find(text, CRLF), Find(text, BLANK_LINE);
    && 0 <= eol && 0 <= end && end + 4 <= |text|
    && var fields := ParseHeaders(text, eol + 2, end, []);
       fields.0 && FieldsFrame(fields.1, |text| - end - 4)
  }

  // All of the client's Content-Length fields say what the proxy framed the body by.
  ghost predicate LengthsAgree(req: Request) {
    forall h :: h in req.headers && IsLength(h) ==> SaysLength(h, req.contentLength)
  }

  lemma {:induction false} ForwardedMembers(hs: seq<Header>, h: Header)
    ensures h in Forwarded(hs) <==> h in hs && !Dropped(h)
  {
    hide Dropped;
    if hs != [] {
      ForwardedMembers(hs[1..], h);
      assert hs == [hs[0]] + hs[1..];
    }
  }

  lemma LengthIsForwarded(h: Header)
    ensures IsLength(h) ==> !Dropped(h)
    ensures Lower(h.name) == "transfer-encoding" ==> Dropped(h)
  {
    hide Lower;
  }

  // The Content-Length fields the origin gets are the client's.
  lemma OriginLengths(req: Request, h: Header)
    ensures h in OriginFields(req) && IsLength(h) <==> h in req.headers && IsLength(h)
    ensures h in OriginFields(req) ==> Lower(h.name) != "transfer-encoding"
  {
    LowerNames();
    ForwardedMembers(req.headers, h);
    LengthIsForwarded(h);
    hide Lower, Dropped, Forwarded, HostValue, Trim;
  }

  lemma {:induction false} ValueIsThere(hs: seq<Header>, name: string)
    ensures HeaderValue(hs, name) != "" ==>
            exists h :: h in hs && Lower(h.name) == Lower(name) && h.value == HeaderValue(hs, name)
    ensures (forall h :: h in hs ==> Lower(h.name) != Lower(name)) ==> HeaderValue(hs, name) == ""
  {
    hide Lower;
    if hs != [] {
      ValueIsThere(hs[1..], name);
      if HeaderValue(hs, name) != "" && Lower(hs[0].name) != Lower(name) {
        var h :| h in hs[1..] && Lower(h.name) == Lower(name) && h.value == HeaderValue(hs[1..], name);
        assert h in hs;
      }
    }
  }

  // The proxy's length is at most what any agreeing set of fields says, and 0 without a field.
  lemma ProxyLength(buf: string, req: Request, n: nat)
    requires Accepted(buf, req) && n <= req.contentLength
    requires forall h :: h in req.headers && IsLength(h) ==> SaysLength(h, n)
    ensures req.contentLength == n
  {
    hide CleanTarget, CleanHeaders, Accepted, Find;
    AcceptedIsClean(buf, req);
    ValueIsThere(req.headers, "Content-Length");
    LowerNames();
    hide Lower, HeaderValue, ToNat;
  }

  lemma OriginFrames(req: Request, n: nat)
    ensures FieldsFrame(OriginFields(req), n) <==>
            && (forall h :: h in req.headers && IsLength(h) ==> SaysLength(h, n))
            && ((forall h :: h in req.headers ==> !IsLength(h)) ==> n == 0)
  {
    forall h
      ensures h in OriginFields(req) && IsLength(h) <==> h in req.headers && IsLength(h)
      ensures h in OriginFields(req) ==> Lower(h.name) != "transfer-encoding"
    {
      OriginLengths(req, h);
    }
    hide OriginFields, IsLength, SaysLength, Lower;
  }

  lemma ReadsBackAs(buf: string, req: Request, body: string)
    requires Accepted(buf, req)
    ensures FramesItsBody(Build(req, body)) <==> FieldsFrame(OriginFields(req), |body|)
  {
    hide Accepted, Build, Find, ParseHeaders, RequestLine, FieldsFrame, OriginFields;
    RebuiltRequestReadsBack(buf, req, body);
    BuildIsLong(req, body);
  }

  lemma BuildIsLong(req: Request, body: string)
    ensures |Build(req, body)| >= |body| + 4
  {
    JoinCons(RequestLine(req), HeaderLines(UpstreamHeaders(req)));
    hide Join, HeaderLines, UpstreamHeaders;
  }

  // For every accepted request and every body of at most the framed length: the rebuilt request frames
  // its body if and only if the body is complete and the client's lengths agree.
  lemma RebuiltFramesIff(buf: string, req: Request, body: string)
    requires Accepted(buf, req) && |body| <= req.contentLength
    ensures FramesItsBody(Build(req, body)) <==> |body| == req.contentLength && LengthsAgree(req)
  {
    ReadsBackAs(buf, req, body);
    OriginFrames(req, |body|);
    hide Accepted, Build, FramesItsBody, FieldsFrame, OriginFields, SaysLength, IsLength;
    if FramesItsBody(Build(req, body)) { ProxyLength(buf, req, |body|); }
    if forall h :: h in req.headers ==> !IsLength(h) { ProxyLength(buf, req, 0); }
  }

  lemma SubstrAtMost(s: string, pos: nat, n: nat)
    requires pos <= |s|
    ensures |Substr(s, pos, n)| == if pos + n <= |s| then n else |s| - pos
  {
  }

  // In every run: the request sent upstream announces the body it carries if and only if the client's
  // body has arrived and all its Content-Length fields say the length the proxy went by.  The body has
  // always arrived unless header_bytes + content_length wraps around.
  lemma RequestFramesItsBodyIff(cfg: Config, client: Desc, answers: seq<Answer>)
    requires FairRun(cfg, Init(client), answers)
    ensures var c := Run(cfg, Init(client), answers);
            c.log.request.Some? ==>
              && Parse(c.log.fromClient, FRESH) == (Ok, c.req)
              && (FramesItsBody(c.log.request.value) <==>
                    c.req.headerBytes + c.req.contentLength <= |c.log.fromClient| && LengthsAgree(c.req))
              && (c.req.headerBytes + c.req.contentLength <= SIZE_MAX ==>
                    c.req.headerBytes + c.req.contentLength <= |c.log.fromClient|)
  {
    var c := Run(cfg, Init(client), answers);
    RequestIsTheClients(cfg, client, answers);
    hide Run, Init, FairRun, Parse, Build, FramesItsBody, LengthsAgree, Substr, Find, CleanTarget, CleanHeaders;
    if c.log.request.Some? {
      var buf, req := c.log.fromClient, c.req;
      AcceptedIsClean(buf, req);
      BlockFits(buf);
      SubstrAtMost(buf, req.headerBytes, req.contentLength);
      RebuiltFramesIff(buf, req, Substr(buf, req.headerBytes, req.contentLength));
    }
  }

  lemma BlockFits(buf: string)
    ensures Find(buf, BLANK_LINE) >= 0 ==> Find(buf, BLANK_LINE) + 4 <= |buf|
  {
  }

  // ---- where it fails -------------------------------------------------------------------------

  function Lengths(a: string, b: string): (hs: seq<Header>) {
    [Header("Content-Length", a), Header("Content-Length", b)]
  }

  // A POST with two Content-Length fields.
  function TwoLengths(a: string, b: string, body: string): (s: string) {
    PostText(Lengths(a, b), body)
  }

  lemma LengthsAreSendable(a: string, b: string)
    requires AllDigits(a) && AllDigits(b)
    ensures forall i :: 0 <= i < |Lengths(a, b)| ==> Sendable(Lengths(a, b)[i])
    ensures ReadBackAll(Lengths(a, b)) == Lengths(a, b)
  {
    hide Sendable;
    DigitsAreSendable("Content-Length", a);
    DigitsAreSendable("Content-Length", b);
    DigitsTrim(a);
    DigitsTrim(b);
    hide Trim;
  }

  // The first of the two is the length the proxy goes by; an empty one counts as 0.
  lemma FirstLengthCounts(o: Request, a: string, b: string)
    requires o.headers == Lengths(a, b) && o.contentLength == 0 && AllDigits(a) && (a != "" ==> ToNat(a) <= SIZE_MAX)
    ensures ParseFraming(o) == (Ok, o.(contentLength := ToNat(a)))
  {
    hide At, ToNat;
    LowerNames();
    assert HeaderValue(o.headers, "Content-Length") == a;
    assert o.headers[1..][1..] == [] && HeaderValue([], "Transfer-Encoding") == "";
    assert HeaderValue(o.headers, "Transfer-Encoding") == "";
    FramingIsRead(o);
    assert ParseFraming(o).0 != NotImplemented by { assert Lower("") == ""; NothingInEmpty("chunked"); }
    hide Lower, HeaderValue, ParseFraming;
    assert a == "" ==> o == o.(contentLength := ToNat(a)) by { EmptyIsZero(); }
  }

  lemma NothingInEmpty(p: string)
    requires p != ""
    ensures forall i :: !At("", p, i)
  {
  }

  lemma EmptyIsZero()
    ensures ToNat("") == 0
  {
  }

  // The proxy takes such a request and forwards both fields.
  lemma TwoLengthsAreAccepted(a: string, b: string, body: string) returns (req: Request)
    requires AllDigits(a) && AllDigits(b) && ToNat(a) <= SIZE_MAX
    ensures Accepted(TwoLengths(a, b, body), req) && req.contentLength == ToNat(a) && req.headers == Lengths(a, b)
  {
    hide Parse, Sendable, Lengths, ReadBackAll, ParseFraming, ToNat, PostText;
    LengthsAreSendable(a, b);
    PostReadsBack(Lengths(a, b), body);
    var o := PostWith(Lengths(a, b), |TwoLengths(a, b, body)| - |body|);
    FirstLengthCounts(o, a, b);
    req := o.(contentLength := ToNat(a));
  }

  // Unless the two say the same, and say something, the origin is told a length that is not the
  // body's.
  lemma TwoLengthsMisframe(a: string, b: string, body: string) returns (req: Request)
    requires AllDigits(a) && AllDigits(b) && ToNat(a) <= SIZE_MAX && |body| == ToNat(a)
    ensures Accepted(TwoLengths(a, b, body), req) && req.contentLength == |body|
    ensures FramesItsBody(Build(req, body)) <==> a != "" && b != "" && ToNat(b) == ToNat(a)
  {
    req := TwoLengthsAreAccepted(a, b, body);
    hide Accepted, FramesItsBody, Build, TwoLengths, ToNat;
    RebuiltFramesIff(TwoLengths(a, b, body), req, body);
    LowerNames();
    var h, k := Header("Content-Length", a), Header("Content-Length", b);
    assert h in req.headers && k in req.headers && IsLength(h) && IsLength(k);
    hide Lower, IsLength;
  }

  // Content-Length 5 and 10 with five bytes of body, and an empty one before a 5.
  lemma FiveAndTen() returns (req: Request, other: Request)
    ensures Accepted(TwoLengths("5", "10", "hello"), req) && !FramesItsBody(Build(req, "hello"))
    ensures Accepted(TwoLengths("", "5", ""), other) && !FramesItsBody(Build(other, ""))
  {
    assert ToNat("5") == 5;
    assert "10"[..1] == "1" && ToNat("1") == 1 && ToNat("10") == 10;
    hide Accepted, FramesItsBody, Build;
    req := TwoLengthsMisframe("5", "10", "hello");
    other := TwoLengthsMisframe("", "5", "");
  }
}
