// What the parser guarantees about a request it accepts, and what the rebuilt request means to a
// reader that parses it again.
module RequestProofs {
  import opened Text
  import opened Http

  // ---- accepted requests ----------------------------------------------------------------------

  ghost predicate CleanHeader(h: Header) {
    && NoCrlf(h.name) && NoCrlf(h.value) && NoChar(h.name, ':')
    && Trim(h.name) == h.name && Trim(h.value) == h.value
  }

  ghost predicate CleanHeaders(hs: seq<Header>) {
    forall i :: 0 <= i < |hs| ==> CleanHeader(hs[i])
  }

  ghost predicate CleanTarget(req: Request) {
    && KnownMethod(req.method_)
    && req.path != "" && req.path[0] == '/' && NoCrlf(req.path)
    && req.host != "" && NoChar(req.host, '/') && NoCrlf(req.host)
    && req.port != "" && AllDigits(req.port)
  }

  ghost predicate Accepted(buf: string, req: Request) {
    Parse(buf, FRESH) == (Ok, req)
  }

  // Text up to the first CRLF contains no CRLF.
  lemma LineIsClean(buf: string, from: nat)
    requires FindFrom(buf, CRLF, from) >= 0
    ensures NoCrlf(buf[from..FindFrom(buf, CRLF, from)])
  {
    var r := FindFrom(buf, CRLF, from);
    FindFirst(buf, CRLF, from);
    forall i: nat ensures !At(buf[from..r], CRLF, i) {
      AtCrlf(buf[from..r], i);
      AtCrlf(buf, from + i);
      if i < r - from { assert !At(buf, CRLF, from + i); }
    }
  }

  lemma FindCharAbsent(s: string, c: char)
    ensures NoChar(s[..if Find(s, [c]) < 0 then |s| else Find(s, [c])], c)
  {
    FindFirst(s, [c], 0);
    var r := Find(s, [c]);
    var n := if r < 0 then |s| else r;
    forall i | 0 <= i < n ensures s[..n][i] != c {
      assert !At(s, [c], i);
      assert s[i..i + 1] == [s[i]];
    }
  }

  lemma AuthorityHasNoSlash(url: string)
    requires |SCHEME| <= |url|
    ensures NoChar(Authority(url), '/')
    ensures UrlPath(url) != "" && UrlPath(url)[0] == '/'
    ensures NoCrlf(url) ==> NoCrlf(Authority(url)) && NoCrlf(UrlPath(url))
  {
    var slash := FindFrom(url, "/", |SCHEME|);
    FindFirst(url, "/", |SCHEME|);
    forall i | |SCHEME| <= i < (if slash < 0 then |url| else slash) ensures url[i] != '/' {
      assert !At(url, "/", i);
      assert url[i..i + 1] == [url[i]];
    }
    if slash >= 0 { assert url[slash..slash + 1] == "/"; assert url[slash..][0] == url[slash..slash + 1][0]; }
    if NoCrlf(url) {
      NoCrlfSlice(url, |SCHEME|, |url|);
      if slash >= 0 {
        NoCrlfSlice(url, |SCHEME|, slash);
        NoCrlfSlice(url, slash, |url|);
        assert url[slash..] == url[slash..|url|];
      } else {
        assert url[|SCHEME|..] == url[|SCHEME|..|url|];
        NoCrlfOfNoReturn("/");
      }
    }
  }

  lemma HostIsClean(authority: string, out: Request)
    requires authority != "" && NoChar(authority, '/') && NoCrlf(authority)
    requires SplitAuthority(authority, out).0
    ensures var o := SplitAuthority(authority, out).1; NoChar(o.host, '/') && NoCrlf(o.host)
    ensures var o := SplitAuthority(authority, out).1; o == out.(host := o.host, port := o.port)
  {
    NoCrlfSlice(authority, 0, |authority|);
    assert authority[0..|authority|] == authority;
    if authority[0] == '[' {
      var close := Find(authority, "]");
      NoCrlfSlice(authority, 1, close);
    } else {
      var colon := RFindChar(authority, ':');
      if colon >= 0 {
        NoCrlfSlice(authority, 0, colon);
        assert authority[..colon] == authority[0..colon];
      }
    }
  }

  lemma UrlIsClean(url: string, out: Request)
    requires NoCrlf(url) && SplitAbsoluteUrl(url, out).0 && KnownMethod(out.method_)
    ensures CleanTarget(SplitAbsoluteUrl(url, out).1)
    ensures SplitAbsoluteUrl(url, out).1.headers == out.headers
    ensures SplitAbsoluteUrl(url, out).1.contentLength == out.contentLength
    ensures SplitAbsoluteUrl(url, out).1.headerBytes == out.headerBytes
  {
    hide SplitAuthority, Authority, UrlPath, Lower, NoCrlf;
    AuthorityHasNoSlash(url);
    HostIsClean(Authority(url), out.(path := UrlPath(url)));
  }

  lemma RequestLineIsClean(line: string, out: Request)
    requires NoCrlf(line) && ParseRequestLine(line, out).0.Ok?
    ensures CleanTarget(ParseRequestLine(line, out).1)
    ensures ParseRequestLine(line, out).1.headers == out.headers
    ensures ParseRequestLine(line, out).1.contentLength == out.contentLength
    ensures ParseRequestLine(line, out).1.headerBytes == out.headerBytes
  {
    hide SplitAbsoluteUrl, NoCrlf, CleanTarget, KnownMethod;
    var sp1 := Find(line, " ");
    var sp2 := FindFrom(line, " ", sp1 + 1);
    NoCrlfSlice(line, sp1 + 1, sp2);
    UrlIsClean(line[sp1 + 1..sp2], out.(method_ := line[..sp1], version := line[sp2 + 1..]));
  }

  lemma HeaderOfIsClean(line: string)
    requires NoCrlf(line) && Find(line, ":") >= 0
    ensures CleanHeader(HeaderOf(line, Find(line, ":")))
  {
    var colon := Find(line, ":");
    FindCharAbsent(line, ':');
    NoCrlfSlice(line, 0, colon);
    NoCrlfSlice(line, colon + 1, |line|);
    assert line[..colon] == line[0..colon] && line[colon + 1..] == line[colon + 1..|line|];
    TrimSubset(line[..colon], ':');
    TrimSubset(line[colon + 1..], ':');
  }

  lemma {:induction false} HeadersAreClean(buf: string, pos: nat, end: nat, acc: seq<Header>)
    requires CleanHeaders(acc)
    ensures CleanHeaders(ParseHeaders(buf, pos, end, acc).1)
    decreases end - pos
  {
    hide CleanHeader, HeaderOf, FindFrom, Find;
    if pos < end {
      var eol := FindFrom(buf, CRLF, pos);
      if 0 <= eol <= end && eol != pos {
        LineIsClean(buf, pos);
        if Find(buf[pos..eol], ":") >= 0 {
          HeaderOfIsClean(buf[pos..eol]);
          HeadersAreClean(buf, eol + 2, end, acc + [HeaderOf(buf[pos..eol], Find(buf[pos..eol], ":"))]);
        }
      }
    }
  }

  // Everything the later proofs need to know about a request the parser lets through.
  lemma AcceptedIsClean(buf: string, req: Request)
    requires Accepted(buf, req)
    ensures CleanTarget(req) && CleanHeaders(req.headers)
    ensures 0 <= Find(buf, BLANK_LINE) && req.headerBytes == Find(buf, BLANK_LINE) + 4
    ensures req.contentLength <= SIZE_MAX
    ensures var cl := HeaderValue(req.headers, "Content-Length");
            if cl == "" then req.contentLength == 0 else AllDigits(cl) && req.contentLength == StrToUl(cl)
  {
    hide ParseRequestLine, ParseHeaders, NoCrlf, CleanTarget, CleanHeaders, HeaderValue, FindFrom, Lower, StrToUl, ToNat;
    var end, lineEnd := Find(buf, BLANK_LINE), Find(buf, CRLF);
    LineIsClean(buf, 0);
    assert buf[..lineEnd] == buf[0..lineEnd];
    var l := ParseRequestLine(buf[..lineEnd], FRESH.(headerBytes := end + 4)).1;
    RequestLineIsClean(buf[..lineEnd], FRESH.(headerBytes := end + 4));
    assert CleanHeaders([]) by { NoHeaders(); }
    HeadersAreClean(buf, lineEnd + 2, end, []);
    SameTarget(l, req);
  }

  lemma NoHeaders()
    ensures CleanHeaders([])
  {
  }

  lemma SameTarget(a: Request, b: Request)
    requires a.(headers := b.headers, contentLength := b.contentLength) == b
    ensures CleanTarget(a) ==> CleanTarget(b)
  {
  }

  // ---- the verdict depends on the header block alone ------------------------------------------

  lemma {:induction false} HeadersAreLocal(buf: string, pos: nat, end: nat, acc: seq<Header>, n: nat)
    requires end + 2 <= n <= |buf|
    requires At(buf, CRLF, end)
    ensures ParseHeaders(buf[..n], pos, end, acc) == ParseHeaders(buf, pos, end, acc)
    decreases end - pos
  {
    hide HeaderOf, At, FindFrom, Find;
    if pos < end {
      var eol := FindFrom(buf, CRLF, pos);
      FindFirst(buf, CRLF, pos);
      assert 0 <= eol <= end;
      FindInPrefix(buf, CRLF, pos, n);
      AtBounds(buf, CRLF, eol);
      assert buf[..n][pos..eol] == buf[pos..eol];
      if eol != pos && Find(buf[pos..eol], ":") >= 0 {
        AtBounds(buf[pos..eol], ":", Find(buf[pos..eol], ":"));
        HeadersAreLocal(buf, eol + 2, end, acc + [HeaderOf(buf[pos..eol], Find(buf[pos..eol], ":"))], n);
      }
    }
  }

  lemma AtBounds(s: string, p: string, i: int)
    requires At(s, p, i)
    ensures 0 <= i && i + |p| <= |s|
  {
  }

  // Only a missing terminator is Incomplete, and then the Request is left as it was.
  lemma ParseIncomplete(buf: string)
    ensures Parse(buf, FRESH).0.Incomplete? <==> Find(buf, BLANK_LINE) < 0
    ensures Parse(buf, FRESH).0.Incomplete? ==> Parse(buf, FRESH).1 == FRESH
  {
    hide ParseHeaders, FindFrom, Lower, HeaderValue, SplitAbsoluteUrl;
  }

  // Bytes after the header block do not change what parse_request says.
  lemma ParseIsLocal(buf: string, out: Request, n: nat)
    requires n <= |buf| && 0 <= Find(buf, BLANK_LINE) && Find(buf, BLANK_LINE) + 4 <= n
    ensures Parse(buf[..n], out) == Parse(buf, out)
  {
    hide ParseRequestLine, ParseHeaders, ParseFraming, FindFrom, At;
    var end := Find(buf, BLANK_LINE);
    FindInPrefix(buf, BLANK_LINE, 0, n);
    BlankLineHasCrlf(buf, end);
    FindFirst(buf, CRLF, 0);
    var lineEnd := Find(buf, CRLF);
    assert 0 <= lineEnd <= end;
    FindInPrefix(buf, CRLF, 0, n);
    assert buf[..n][..lineEnd] == buf[..lineEnd];
    var l := ParseRequestLine(buf[..lineEnd], out.(headerBytes := end + 4));
    HeadersAreLocal(buf, lineEnd + 2, end, l.1.headers, n);
  }

  lemma BlankLineHasCrlf(buf: string, end: nat)
    requires At(buf, BLANK_LINE, end)
    ensures At(buf, CRLF, end)
  {
    assert buf[end..end + 2] == buf[end..end + 4][..2];
  }

  // A request stays accepted when more bytes arrive.
  lemma AcceptedGrows(buf: string, more: string, req: Request)
    requires Accepted(buf, req)
    ensures Accepted(buf + more, req)
  {
    hide ParseRequestLine, ParseHeaders, ParseFraming, FindFrom;
    assert (buf + more)[..|buf|] == buf;
    FindInPrefix(buf + more, BLANK_LINE, 0, |buf|);
    ParseIsLocal(buf + more, FRESH, |buf|);
  }
}
