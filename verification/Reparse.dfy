// The rebuilt request, read again: where its header block ends, which fields it carries, and which
// body length it announces.  Also the injectivity of the cache key.
module Reparse {
  import opened Text
  import opened Http
  import opened RequestProofs

  // ---- a text of lines, searched --------------------------------------------------------------

  ghost predicate CleanLines(ls: seq<string>) {
    forall i :: 0 <= i < |ls| ==> ls[i] != "" && NoCrlf(ls[i])
  }

  lemma InsideLine(pre: string, l: string, rest: string, i: nat)
    requires NoCrlf(l) && |pre| <= i < |pre| + |l|
    ensures !At(pre + Line(l) + rest, CRLF, i)
  {
    var s, k := pre + Line(l) + rest, i - |pre|;
    AtCrlf(s, i);
    AtCrlf(l, k);
    assert !At(l, CRLF, k);
    hide NoCrlf, At;
    assert s[i] == l[k] && s[i + 1] == (if k + 1 < |l| then l[k + 1] else '\r');
  }

  lemma AtLineEnd(pre: string, l: string, rest: string)
    ensures var s, n := pre + Line(l) + rest, |pre| + |l|; At(s, CRLF, n) && s[|pre|..n] == l
  {
    var s, n := pre + Line(l) + rest, |pre| + |l|;
    AtCrlf(s, n);
    hide At;
    assert s[n] == '\r' && s[n + 1] == '\n';
  }

  // Inside pre + l + CRLF + rest, the first CRLF from |pre| on is the one that closes l.
  lemma LineEnd(pre: string, l: string, rest: string)
    requires NoCrlf(l)
    ensures var s := pre + Line(l) + rest;
            FindFrom(s, CRLF, |pre|) == |pre| + |l| && s[|pre|..|pre| + |l|] == l
  {
    hide FindFrom, At, NoCrlf;
    var s := pre + Line(l) + rest;
    AtLineEnd(pre, l, rest);
    forall i | |pre| <= i < |pre| + |l| ensures !At(s, CRLF, i) { InsideLine(pre, l, rest, i); }
    FindUnique(s, CRLF, |pre|, |pre| + |l|);
  }

  lemma AtBlankLine(s: string, i: nat)
    ensures At(s, BLANK_LINE, i) <==> At(s, CRLF, i) && At(s, CRLF, i + 2)
  {
    AtCrlf(s, i);
    AtCrlf(s, i + 2);
    if i + 4 <= |s| {
      assert s[i..i + 4] == [s[i], s[i + 1], s[i + 2], s[i + 3]];
    }
  }

  // The CRLFs of a line and of the one after it.
  lemma TwoLineEnds(pre: string, l: string, next: string, rest: string)
    requires NoCrlf(l) && NoCrlf(next)
    ensures var s, n := pre + Line(l) + (Line(next) + rest), |pre| + |l|;
            && FindFrom(s, CRLF, |pre|) == n && FindFrom(s, CRLF, n + 2) == n + 2 + |next|
            && n + 1 < |s| && s[n + 1] == '\n'
  {
    hide FindFrom, NoCrlf, At;
    var s, pre' := pre + Line(l) + (Line(next) + rest), pre + Line(l);
    LineEnd(pre, l, Line(next) + rest);
    LineEnd(pre', next, rest);
    Assoc(pre', Line(next), rest);
    AtLineEnd(pre, l, Line(next) + rest);
    AtCrlf(s, |pre| + |l|);
  }

  lemma NoBlankLineAt(pre: string, l: string, next: string, rest: string, i: nat)
    requires NoCrlf(l) && NoCrlf(next) && next != "" && |pre| <= i < |pre| + |l| + 2
    ensures !At(pre + Line(l) + (Line(next) + rest), BLANK_LINE, i)
  {
    hide FindFrom, NoCrlf, At;
    var s, n := pre + Line(l) + (Line(next) + rest), |pre| + |l|;
    TwoLineEnds(pre, l, next, rest);
    FindFirst(s, CRLF, |pre|);
    FindFirst(s, CRLF, n + 2);
    hide Line;
    AtBlankLine(s, i);
    AtCrlf(s, n + 1);
  }

  // One non-empty line holds no blank line, and none starts at its CRLF if another line follows.
  lemma NoBlankLineHere(pre: string, l: string, next: string, rest: string)
    requires NoCrlf(l) && NoCrlf(next) && next != ""
    ensures var s := pre + Line(l) + (Line(next) + rest);
            forall i :: |pre| <= i < |pre| + |l| + 2 ==> !At(s, BLANK_LINE, i)
  {
    hide NoCrlf, At, Line;
    forall i | |pre| <= i < |pre| + |l| + 2 ensures !At(pre + Line(l) + (Line(next) + rest), BLANK_LINE, i) {
      NoBlankLineAt(pre, l, next, rest, i);
    }
  }

  lemma LastLine(pre: string, l: string, rest: string)
    requires NoCrlf(l)
    ensures FindFrom(pre + Line(l) + (CRLF + rest), BLANK_LINE, |pre|) == |pre| + |l|
  {
    hide FindFrom, NoCrlf, At;
    var s := pre + Line(l) + (CRLF + rest);
    LineEnd(pre, l, CRLF + rest);
    FindFirst(s, CRLF, |pre|);
    forall i | |pre| <= i < |pre| + |l| ensures !At(s, BLANK_LINE, i) { AtBlankLine(s, i); }
    AtBlankLine(s, |pre| + |l|);
    AtCrlf(s, |pre| + |l| + 2);
    FindUnique(s, BLANK_LINE, |pre|, |pre| + |l|);
  }

  // The first line of a text, split off.
  lemma JoinFirst(pre: string, ls: seq<string>, tail: string)
    requires ls != []
    ensures var l, s := Line(ls[0]), pre + Join(ls) + tail;
            && s == pre + l + (Join(ls[1..]) + tail) && s == (pre + l) + Join(ls[1..]) + tail
            && |Join(ls)| == |l| + |Join(ls[1..])| && |l| == |ls[0]| + 2
  {
    assert Join(ls) == Line(ls[0]) + Join(ls[1..]);
    hide Join;
  }

  // The first blank line of a text of non-empty lines is the one that ends it.
  lemma {:induction false} BlankLineEndsText(pre: string, ls: seq<string>, rest: string)
    requires ls != [] && CleanLines(ls)
    ensures FindFrom(pre + Join(ls) + (CRLF + rest), BLANK_LINE, |pre|) == |pre| + |Join(ls)| - 2
    decreases |ls|
  {
    hide FindFrom, NoCrlf, At;
    var l, tail := ls[0], CRLF + rest;
    if |ls| == 1 {
      assert Join(ls) == Line(l) by { assert ls[1..] == []; JoinNil(); }
      hide Join;
      LastLine(pre, l, rest);
    } else {
      var s, pre', more := pre + Join(ls) + tail, pre + Line(l), Join(ls[2..]) + tail;
      SplitTwo(pre, ls, tail);
      hide Join;
      NoBlankLineHere(pre, l, ls[1], more);
      hide Line;
      BlankLineEndsText(pre', ls[1..], rest);
      FindSkips(s, BLANK_LINE, |pre|, |pre'|);
    }
  }

  // The first two lines of a text, split off.
  lemma SplitTwo(pre: string, ls: seq<string>, tail: string)
    requires |ls| > 1
    ensures var l, s := Line(ls[0]), pre + Join(ls) + tail;
            && s == pre + l + (Line(ls[1]) + (Join(ls[2..]) + tail)) && s == (pre + l) + Join(ls[1..]) + tail
            && |Join(ls)| == |l| + |Join(ls[1..])| && |l| == |ls[0]| + 2 && |Join(ls[1..])| >= 2
  {
    JoinFirst(pre, ls, tail);
    JoinTail(ls);
    hide Join, Line;
    Assoc(Line(ls[1]), Join(ls[2..]), tail);
  }

  lemma JoinTail(ls: seq<string>)
    requires |ls| > 1
    ensures Join(ls[1..]) == Line(ls[1]) + Join(ls[2..]) && |Line(ls[1])| >= 2
  {
    assert ls[1..][1..] == ls[2..] && ls[1..][0] == ls[1];
  }

  // ---- header fields, read back ---------------------------------------------------------------

  // What a parser makes of a header line: the value loses blanks at its ends.
  function ReadBack(h: Header): (r: Header) { h.(value := Trim(h.value)) }

  function ReadBackAll(hs: seq<Header>): (r: seq<Header>)
    ensures |r| == |hs|
    ensures forall i :: 0 <= i < |hs| ==> r[i] == ReadBack(hs[i])
  {
    seq(|hs|, i requires 0 <= i < |hs| => ReadBack(hs[i]))
  }

  ghost predicate Sendable(h: Header) {
    NoChar(h.name, ':') && Trim(h.name) == h.name && NoCrlf(HeaderLine(h))
  }

  lemma ReadLine(h: Header)
    requires Sendable(h)
    ensures Find(HeaderLine(h), ":") == |h.name|
    ensures HeaderOf(HeaderLine(h), |h.name|) == ReadBack(h)
  {
    hide NoCrlf, NoChar;
    var line, n := HeaderLine(h), |h.name|;
    forall i | 0 <= i < n ensures !At(line, ":", i) {
      assert line[i..i + 1] == [h.name[i]];
      NameHasNoColon(h, i);
    }
    assert line[n..n + 1] == ":";
    FindUnique(line, ":", 0, n);
    assert line[..n] == h.name;
    assert line[n + 1..] == " " + h.value;
    assert (" " + h.value)[1..] == h.value;
  }

  lemma NameHasNoColon(h: Header, i: nat)
    requires Sendable(h) && i < |h.name|
    ensures h.name[i] != ':'
  {
  }

  // One turn of the header loop, at a line that says `h`.
  lemma OneHeader(s: string, pos: nat, eol: nat, end: nat, acc: seq<Header>, h: Header)
    requires FindFrom(s, CRLF, pos) == eol && pos < eol <= end && eol <= |s|
    requires s[pos..eol] == HeaderLine(h) && Sendable(h)
    ensures ParseHeaders(s, pos, end, acc) == ParseHeaders(s, eol + 2, end, acc + [ReadBack(h)])
  {
    hide FindFrom, Find, NoCrlf, NoChar, HeaderOf, HeaderLine;
    ReadLine(h);
  }

  // A line at the start of a slice.
  lemma LineAt(s: string, pos: nat, e: nat, l: string, more: string)
    requires pos <= e <= |s| && s[pos..e] == Line(l) + more && NoCrlf(l)
    ensures pos + |l| + 2 <= e && FindFrom(s, CRLF, pos) == pos + |l|
    ensures s[pos..pos + |l|] == l && s[pos + |l| + 2..e] == more
  {
    hide FindFrom, NoCrlf, At;
    assert s == s[..pos] + s[pos..e] + s[e..];
    assert s == s[..pos] + Line(l) + (more + s[e..]);
    LineEnd(s[..pos], l, more + s[e..]);
    assert s[pos + |l| + 2..e] == s[pos..e][|l| + 2..];
  }

  lemma JoinFields(hs: seq<Header>)
    requires hs != []
    ensures Join(HeaderLines(hs)) == Line(HeaderLine(hs[0])) + Join(HeaderLines(hs[1..]))
  {
    hide HeaderLine, Line;
    assert HeaderLines(hs)[1..] == HeaderLines(hs[1..]);
  }

  lemma ReadBackFirst(hs: seq<Header>, acc: seq<Header>)
    requires hs != []
    ensures acc + [ReadBack(hs[0])] + ReadBackAll(hs[1..]) == acc + ReadBackAll(hs)
  {
    hide ReadBack;
  }

  lemma {:induction false} ReadFrom(s: string, pos: nat, end: nat, hs: seq<Header>, acc: seq<Header>)
    requires pos <= end + 2 <= |s| && s[pos..end + 2] == Join(HeaderLines(hs))
    requires forall i :: 0 <= i < |hs| ==> Sendable(hs[i])
    ensures ParseHeaders(s, pos, end, acc) == (true, acc + ReadBackAll(hs))
    decreases |hs|
  {
    hide FindFrom, Find, NoCrlf, NoChar, HeaderOf, HeaderLine, Sendable, Line;
    if hs == [] {
      assert HeaderLines(hs) == [];
      JoinNil();
      hide Join;
      assert acc + ReadBackAll(hs) == acc;
    } else {
      var l := HeaderLine(hs[0]);
      JoinFields(hs);
      SendableLine(hs[0]);
      hide Join, HeaderLines, ReadBackAll, ReadBack;
      LineAt(s, pos, end + 2, l, Join(HeaderLines(hs[1..])));
      OneHeader(s, pos, pos + |l|, end, acc, hs[0]);
      hide ParseHeaders;
      ReadFrom(s, pos + |l| + 2, end, hs[1..], acc + [ReadBack(hs[0])]);
      ReadBackFirst(hs, acc);
    }
  }

  lemma ReadLines(pre: string, hs: seq<Header>, rest: string, acc: seq<Header>)
    requires 2 <= |pre|
    requires forall i :: 0 <= i < |hs| ==> Sendable(hs[i])
    ensures ParseHeaders(pre + Join(HeaderLines(hs)) + (CRLF + rest), |pre|,
                         |pre| + |Join(HeaderLines(hs))| - 2, acc) == (true, acc + ReadBackAll(hs))
  {
    hide Join, ParseHeaders, Sendable;
    var ls := HeaderLines(hs);
    var s := pre + Join(ls) + (CRLF + rest);
    assert s[|pre|..|pre| + |Join(ls)|] == Join(ls);
    ReadFrom(s, |pre|, |pre| + |Join(ls)| - 2, hs, acc);
  }

  lemma SendableLine(h: Header)
    requires Sendable(h)
    ensures NoCrlf(HeaderLine(h)) && HeaderLine(h) != ""
  {
  }

  // ---- the rebuilt request --------------------------------------------------------------------

  lemma CleanIsSendable(h: Header)
    requires NoCrlf(h.name) && NoCrlf(h.value) && NoChar(h.name, ':') && Trim(h.name) == h.name
    ensures Sendable(h)
  {
    NoCrlfOfNoReturn(": ");
    NoCrlfConcat(": ", h.value);
    NoCrlfConcat(h.name, ": " + h.value);
    assert HeaderLine(h) == h.name + (": " + h.value);
  }

  lemma {:induction false} ForwardedAreClean(hs: seq<Header>)
    requires CleanHeaders(hs)
    ensures CleanHeaders(Forwarded(hs))
    ensures forall i :: 0 <= i < |Forwarded(hs)| ==> !Dropped(Forwarded(hs)[i])
  {
    hide CleanHeader, Dropped;
    if hs != [] {
      ForwardedAreClean(hs[1..]);
    }
  }

  lemma HostLineIsSendable(req: Request)
    requires CleanTarget(req)
    ensures Sendable(Header("Host", HostValue(req)))
    ensures Sendable(Header("Connection", "close"))
    ensures RequestLine(req) != "" && NoCrlf(RequestLine(req))
  {
    NoCrlfOfNoReturn(":" + req.port);
    NoCrlfConcat(req.host, ":" + req.port);
    assert req.host + (":" + req.port) == req.host + ":" + req.port;
    NoCrlfOfNoReturn("Host");
    CleanIsSendable(Header("Host", HostValue(req)));
    NoCrlfOfNoReturn("Connection");
    NoCrlfOfNoReturn("close");
    CleanIsSendable(Header("Connection", "close"));
    NoCrlfOfNoReturn(req.method_ + " ");
    NoCrlfOfNoReturn(" HTTP/1.1");
    NoCrlfConcat(req.method_ + " ", req.path);
    NoCrlfConcat(req.method_ + " " + req.path, " HTTP/1.1");
  }

  lemma UpstreamHeadersAreSendable(req: Request)
    requires CleanTarget(req) && CleanHeaders(req.headers)
    ensures forall i :: 0 <= i < |UpstreamHeaders(req)| ==> Sendable(UpstreamHeaders(req)[i])
  {
    hide Sendable, CleanHeader, CleanTarget, NoCrlf, NoChar;
    HostLineIsSendable(req);
    ForwardedAreClean(req.headers);
    var fs := Forwarded(req.headers);
    forall i | 0 <= i < |fs| ensures Sendable(fs[i]) {
      CleanHeaderParts(fs[i]);
      CleanIsSendable(fs[i]);
    }
  }

  lemma CleanHeaderParts(h: Header)
    requires CleanHeader(h)
    ensures NoCrlf(h.name) && NoCrlf(h.value) && NoChar(h.name, ':')
    ensures Trim(h.name) == h.name && Trim(h.value) == h.value
  {
  }

  // The fields an origin reads off the rebuilt request.
  function OriginFields(req: Request): (hs: seq<Header>) {
    [Header("Host", Trim(HostValue(req)))] + Forwarded(req.headers) + [Header("Connection", "close")]
  }

  // The rebuilt request splits, under the proxy's own line and header rules, into exactly the
  // origin-form request line, our Host, the client's surviving headers and Connection: close; the
  // first blank line is the intended one and the body follows it.
  lemma RebuiltRequestReadsBack(buf: string, req: Request, body: string)
    requires Accepted(buf, req)
    ensures var out := Build(req, body);
            var end := |out| - |body| - 4;
            && Find(out, BLANK_LINE) == end
            && out[end + 4..] == body
            && Find(out, CRLF) == |RequestLine(req)|
            && out[..|RequestLine(req)|] == RequestLine(req)
            && ParseHeaders(out, |RequestLine(req)| + 2, end, []) == (true, OriginFields(req))
  {
    hide CleanTarget, CleanHeaders, NoCrlf, Join, ParseHeaders, Sendable, FindFrom, RequestLine, Parse, Build,
         UpstreamHeaders, HeaderLine, Forwarded, Trim;
    AcceptedIsClean(buf, req);
    HostLineIsSendable(req);
    UpstreamHeadersAreSendable(req);
    var first, hs := RequestLine(req), UpstreamHeaders(req);
    LinesReadBack(first, hs, body);
    BuildIsJoin(req, body);
    UpstreamHeadersReadBack(req);
    assert [] + ReadBackAll(hs) == ReadBackAll(hs);
  }

  lemma BuildIsJoin(req: Request, body: string)
    ensures Build(req, body) == Join([RequestLine(req)] + HeaderLines(UpstreamHeaders(req))) + (CRLF + body)
  {
    hide Join, RequestLine, UpstreamHeaders;
    var head := Join([RequestLine(req)] + HeaderLines(UpstreamHeaders(req)));
    assert head + CRLF + body == head + (CRLF + body);
  }

  // Any first line plus sendable headers reads back.
  lemma LinesReadBack(first: string, hs: seq<Header>, body: string)
    requires first != "" && NoCrlf(first)
    requires forall i :: 0 <= i < |hs| ==> Sendable(hs[i])
    ensures var out := Join([first] + HeaderLines(hs)) + (CRLF + body);
            var end := |out| - |body| - 4;
            && Find(out, BLANK_LINE) == end
            && out[end + 4..] == body
            && Find(out, CRLF) == |first|
            && out[..|first|] == first
            && ParseHeaders(out, |first| + 2, end, []) == (true, [] + ReadBackAll(hs))
  {
    hide NoCrlf, Join, ParseHeaders, Sendable, FindFrom, HeaderLine;
    var ls := [first] + HeaderLines(hs);
    var text, tail := Join(ls), CRLF + body;
    var out := text + tail;
    forall i | 0 <= i < |hs| ensures HeaderLines(hs)[i] != "" && NoCrlf(HeaderLines(hs)[i]) { SendableLine(hs[i]); }
    BlankLineEndsText("", ls, body);
    assert "" + text + tail == out;
    JoinCons(first, HeaderLines(hs));
    var rest := Join(HeaderLines(hs));
    assert out == "" + Line(first) + (rest + tail);
    LineEnd("", first, rest + tail);
    assert out[0..|first|] == out[..|first|];
    ReadLines(Line(first), hs, body, []);
    assert Line(first) + rest + tail == out;
  }

  lemma UpstreamHeadersReadBack(req: Request)
    requires CleanHeaders(req.headers)
    ensures ReadBackAll(UpstreamHeaders(req)) == OriginFields(req)
  {
    hide Dropped, CleanHeader, HostValue;
    ForwardedAreClean(req.headers);
    var fs := Forwarded(req.headers);
    forall i | 0 <= i < |fs| ensures ReadBack(fs[i]) == fs[i] { CleanHeaderParts(fs[i]); }
    assert ReadBack(Header("Connection", "close")) == Header("Connection", "close") by {
      assert Trim("close") == "close";
    }
  }

  // ---- which fields the origin finds ----------------------------------------------------------

  lemma {:induction false} HeaderValueForwarded(hs: seq<Header>, name: string)
    requires Lower(name) != "host" && !IsHopByHop(Lower(name))
    ensures HeaderValue(Forwarded(hs), name) == HeaderValue(hs, name)
  {
    hide IsHopByHop, Lower;
    if hs != [] {
      HeaderValueForwarded(hs[1..], name);
      if !Dropped(hs[0]) {
        assert ([hs[0]] + Forwarded(hs[1..]))[1..] == Forwarded(hs[1..]);
      } else {
        assert [] + Forwarded(hs[1..]) == Forwarded(hs[1..]);
      }
    }
  }

  // Fields of another name, in front or behind, do not change a lookup.
  lemma {:induction false} HeaderValueSkips(a: seq<Header>, h: Header, b: seq<Header>, name: string)
    requires Lower(h.name) != Lower(name)
    ensures HeaderValue(a + [h] + b, name) == HeaderValue(a + b, name)
  {
    hide Lower;
    if a == [] {
      assert a + [h] + b == [h] + b && ([h] + b)[1..] == b && a + b == b;
    } else {
      HeaderValueSkips(a[1..], h, b, name);
      assert (a + [h] + b)[1..] == a[1..] + [h] + b && (a + b)[1..] == a[1..] + b;
    }
  }

  lemma {:induction false} HeaderValueAbsent(hs: seq<Header>, name: string)
    requires forall i :: 0 <= i < |hs| ==> Lower(hs[i].name) != Lower(name)
    ensures HeaderValue(hs, name) == ""
  {
    hide Lower;
    if hs != [] { HeaderValueAbsent(hs[1..], name); }
  }

  lemma LowerNames()
    ensures Lower("Host") == "host" && Lower("Connection") == "connection"
    ensures Lower("Content-Length") == "content-length" && Lower("Transfer-Encoding") == "transfer-encoding"
  {
  }

  // A reader that takes the first field of a name finds what the client gave under every end-to-end
  // name, one Host and one Connection, both ours, no Transfer-Encoding, and as Content-Length the one
  // the proxy went by.  Whether the fields announce the body is settled in Framing.
  lemma FirstFieldsReachOrigin(buf: string, req: Request, name: string)
    requires Accepted(buf, req)
    ensures Lower(name) != "host" && !IsHopByHop(Lower(name))
            ==> HeaderValue(OriginFields(req), name) == HeaderValue(req.headers, name)
    ensures forall i :: 1 <= i < |OriginFields(req)| ==> Lower(OriginFields(req)[i].name) != "host"
    ensures forall i :: 0 <= i < |OriginFields(req)| - 1 ==> Lower(OriginFields(req)[i].name) != "connection"
    ensures HeaderValue(OriginFields(req), "Transfer-Encoding") == ""
    ensures var cl := HeaderValue(OriginFields(req), "Content-Length");
            if cl == "" then req.contentLength == 0
            else AllDigits(cl) && (ToNat(cl) <= SIZE_MAX ==> req.contentLength == ToNat(cl))
  {
    hide Lower, Forwarded, HeaderValue, Trim, HostValue, CleanHeader, CleanTarget, Parse, ToNat;
    AcceptedIsClean(buf, req);
    ForwardedAreClean(req.headers);
    LowerNames();
    var fs := Forwarded(req.headers);
    FieldsThrough(req, name);
    FieldsThrough(req, "Content-Length");
    forall i | 0 <= i < |OriginFields(req)| ensures Lower(OriginFields(req)[i].name) != Lower("Transfer-Encoding") {
      if 1 <= i <= |fs| { assert !Dropped(fs[i - 1]); }
    }
    HeaderValueAbsent(OriginFields(req), "Transfer-Encoding");
    forall i | 1 <= i < |OriginFields(req)| - 1 ensures !Dropped(OriginFields(req)[i]) {
      assert OriginFields(req)[i] == fs[i - 1];
    }
  }

  lemma FieldsThrough(req: Request, name: string)
    ensures Lower(name) != "host" && !IsHopByHop(Lower(name))
            ==> HeaderValue(OriginFields(req), name) == HeaderValue(req.headers, name)
  {
    hide Lower, Forwarded, HeaderValue, Trim, HostValue;
    if Lower(name) != "host" && !IsHopByHop(Lower(name)) {
      LowerNames();
      var host, fs, last := Header("Host", Trim(HostValue(req))), Forwarded(req.headers), Header("Connection", "close");
      HeaderValueSkips([], host, fs + [last], name);
      HeaderValueSkips(fs, last, [], name);
      assert [] + [host] + (fs + [last]) == OriginFields(req);
      assert [] + (fs + [last]) == fs + [last] + [] && fs + [] == fs;
      HeaderValueForwarded(req.headers, name);
    }
  }

  // ---- the cache key --------------------------------------------------------------------------

  // Host and port can be recovered from "host:port": the port holds no colon.
  lemma HostPortInjective(h1: string, p1: string, h2: string, p2: string)
    requires AllDigits(p1) && AllDigits(p2) && h1 + ":" + p1 == h2 + ":" + p2
    ensures h1 == h2 && p1 == p2
  {
    var s := h1 + ":" + p1;
    assert s[|h1|] == ':' && s[|h2|] == ':';
    assert |h1| == |h2|;
    assert s[..|h1|] == h1 && s[..|h2|] == h2;
    assert s[|h1| + 1..] == p1 && s[|h2| + 1..] == p2;
  }

  // The path starts at the first slash, because neither host nor port holds one.
  lemma PathInjective(a1: string, path1: string, a2: string, path2: string)
    requires NoChar(a1, '/') && NoChar(a2, '/')
    requires path1 != "" && path1[0] == '/' && path2 != "" && path2[0] == '/'
    requires a1 + path1 == a2 + path2
    ensures a1 == a2 && path1 == path2
  {
    var s := a1 + path1;
    assert s[|a1|] == '/' && s[|a2|] == '/';
    assert |a1| == |a2|;
    assert s[..|a1|] == a1 && s[..|a2|] == a2;
    assert s[|a1|..] == path1 && s[|a2|..] == path2;
  }

  lemma MethodInjective(m1: string, x1: string, m2: string, x2: string)
    requires KnownMethod(m1) && KnownMethod(m2) && m1 + x1 == m2 + x2
    ensures m1 == m2 && x1 == x2
  {
    var s := m1 + x1;
    assert s[0] == m1[0] && s[0] == m2[0];
    assert s[|m1|..] == x1 && s[|m2|..] == x2;
  }

  // Two accepted requests with one cache key ask for the same thing.
  lemma CacheKeyInjective(buf1: string, r1: Request, buf2: string, r2: Request)
    requires Accepted(buf1, r1) && Accepted(buf2, r2)
    ensures CacheKey(r1) == CacheKey(r2) <==>
            r1.method_ == r2.method_ && r1.host == r2.host && r1.port == r2.port && r1.path == r2.path
  {
    hide Parse, CleanHeaders, HeaderValue, NoCrlf, KnownMethod;
    AcceptedIsClean(buf1, r1);
    AcceptedIsClean(buf2, r2);
    if CacheKey(r1) == CacheKey(r2) {
      var hp1, hp2 := r1.host + ":" + r1.port, r2.host + ":" + r2.port;
      assert CacheKey(r1) == r1.method_ + (" " + (hp1 + r1.path));
      assert CacheKey(r2) == r2.method_ + (" " + (hp2 + r2.path));
      MethodInjective(r1.method_, " " + (hp1 + r1.path), r2.method_, " " + (hp2 + r2.path));
      assert (" " + (hp1 + r1.path))[1..] == hp1 + r1.path && (" " + (hp2 + r2.path))[1..] == hp2 + r2.path;
      PathInjective(hp1, r1.path, hp2, r2.path);
      HostPortInjective(r1.host, r1.port, r2.host, r2.port);
    }
  }
}
