// Exactly which texts parse_request accepts, and as what: the grammar written out, without the
// parser's own functions.
module Grammar {
  import opened Text
  import opened Http
  import opened RequestProofs
  import opened Reparse
  import opened WireRequests

  // A request text in its parts.
  datatype Written = Written(
    method_: string, scheme: string, authority: string, rest: string, version: string,
    lines: seq<string>, body: string)

  function TargetText(w: Written): (s: string) { w.scheme + w.authority + w.rest }

  function FirstLine(w: Written): (s: string) { w.method_ + " " + TargetText(w) + " " + w.version }

  function TextOf(w: Written): (s: string) { Join([FirstLine(w)] + w.lines) + (CRLF + w.body) }

  // host, host:port with the port after the last colon, or [host] with an optional :port; what stands
  // after the bracket and is no port is ignored.
  ghost predicate AuthorityIs(a: string, host: string, port: string) {
    && host != "" && port != "" && AllDigits(port)
    && (|| (a == host && NoChar(host, ':') && host[0] != '[' && port == "80")
        || (a == host + ":" + port && host[0] != '[')
        || BracketsAre(a, host, port))
  }

  ghost predicate BracketsAre(a: string, host: string, port: string) {
    && |a| >= |host| + 2 && a[0] == '[' && a[1..|host| + 1] == host && a[|host| + 1] == ']' && NoChar(host, ']')
    && port == if |host| + 2 < |a| && a[|host| + 2] == ':' then a[|host| + 3..] else "80"
  }

  ghost predicate TargetIs(w: Written, host: string, port: string, path: string) {
    && |w.scheme| == 7 && Lower(w.scheme) == "http://"
    && NoChar(w.authority, '/') && AuthorityIs(w.authority, host, port)
    && (if w.rest == "" then path == "/" else w.rest[0] == '/' && path == w.rest)
  }

  // r is what lies between lo and hi, with blanks around it and none at its ends.
  ghost predicate TrimmedAt(s: string, r: string, lo: int, hi: int) {
    && 0 <= lo <= hi <= |s| && r == s[lo..hi]
    && (forall i :: 0 <= i < |s| && (i < lo || hi <= i) ==> s[i] == ' ' || s[i] == '\t')
    && (lo < hi ==> s[lo] != ' ' && s[lo] != '\t' && s[hi - 1] != ' ' && s[hi - 1] != '\t')
  }

  ghost predicate Trimmed(s: string, r: string) { exists lo, hi :: TrimmedAt(s, r, lo, hi) }

  // The line is name, colon, value, and the field is both of them trimmed.
  ghost predicate FieldIs(line: string, h: Header) {
    exists k :: 0 <= k < |line| && line[k] == ':' && NoChar(line[..k], ':') && Trimmed(line[..k], h.name) && Trimmed(line[k + 1..], h.value)
  }

  ghost predicate LinesAre(lines: seq<string>, hs: seq<Header>) {
    && |lines| == |hs|
    && forall i :: 0 <= i < |lines| ==> lines[i] != "" && NoCrlf(lines[i]) && FieldIs(lines[i], hs[i])
  }

  // v is the value of the first field of that name, in lower case, and "" if there is none.
  ghost predicate FirstValueIs(hs: seq<Header>, name: string, v: string) {
    if forall i :: 0 <= i < |hs| ==> Lower(hs[i].name) != name then v == ""
    else
      exists i :: 0 <= i < |hs| && Lower(hs[i].name) == name && hs[i].value == v
                  && forall j :: 0 <= j < i ==> Lower(hs[j].name) != name
  }

  // No chunked body, and the length that the first Content-Length field says.
  ghost predicate FramingIs(req: Request, te: string, cl: string) {
    && FirstValueIs(req.headers, "transfer-encoding", te) && FirstValueIs(req.headers, "content-length", cl)
    && (forall i :: !At(Lower(te), "chunked", i))
    && AllDigits(cl)
    && req.contentLength == if cl == "" then 0 else if ToNat(cl) > SIZE_MAX then SIZE_MAX else ToNat(cl)
  }

  // Line by line, all but what the framing fields say.
  ghost predicate Shaped(w: Written, req: Request) {
    && (w.method_ == "GET" || w.method_ == "HEAD" || w.method_ == "POST")
    && req.method_ == w.method_ && req.version == w.version
    && NoChar(TargetText(w), ' ') && NoCrlf(FirstLine(w))
    && TargetIs(w, req.host, req.port, req.path)
    && LinesAre(w.lines, req.headers)
    && req.headerBytes == |TextOf(w)| - |w.body|
  }

  ghost predicate Means(w: Written, req: Request) {
    Shaped(w, req) && exists te, cl :: FramingIs(req, te, cl)
  }

  // ---- trimming -------------------------------------------------------------------------------

  lemma TrimIsTrimmed(s: string)
    ensures Trimmed(s, Trim(s))
  {
    var lo, hi := TrimIsSlice(s);
    var r := Trim(s);
    hide Trim;
    assert lo < hi ==> s[lo] == r[0] && s[hi - 1] == r[|r| - 1];
    assert TrimmedAt(s, r, lo, hi);
  }

  lemma TrimmedIsUnique(s: string, r: string, t: string)
    requires Trimmed(s, r) && Trimmed(s, t)
    ensures r == t
  {
    var lo, hi :| TrimmedAt(s, r, lo, hi);
    var lo', hi' :| TrimmedAt(s, t, lo', hi');
    assert lo < hi && lo' < hi' ==> lo == lo' && hi == hi';
    assert lo < hi <==> lo' < hi';
  }

  // trim() removes exactly the spaces and tabs at both ends.
  lemma TrimIff(s: string, r: string)
    ensures Trim(s) == r <==> Trimmed(s, r)
  {
    hide Trim, Trimmed;
    TrimIsTrimmed(s);
    if Trimmed(s, r) { TrimmedIsUnique(s, Trim(s), r); }
  }

  // ---- the target -----------------------------------------------------------------------------

  lemma PlainHost(a: string, out: Request)
    requires a != "" && a[0] != '[' && out.port == "80"
    ensures var s := SplitAuthority(a, out);
            s.0 && s.1 == out.(host := s.1.host, port := s.1.port)
            && (s.1.host != "" && s.1.port != "" && AllDigits(s.1.port) ==> AuthorityIs(a, s.1.host, s.1.port))
  {
    var colon := RFindChar(a, ':');
    if colon >= 0 {
      assert a == a[..colon] + ":" + a[colon + 1..];
    }
  }

  lemma BracketedHost(a: string, out: Request)
    requires a != "" && a[0] == '[' && out.port == "80" && SplitAuthority(a, out).0
    ensures var s := SplitAuthority(a, out).1;
            s == out.(host := s.host, port := s.port) && BracketsAre(a, s.host, s.port)
  {
    var close := Find(a, "]");
    var host := a[1..close];
    FindCharAbsent(a, ']');
    OneChar(a, close);
    assert |host| == close - 1 && a[close] == ']';
    forall i | 0 <= i < |host| ensures host[i] != ']' { assert host[i] == a[..close][i + 1]; }
  }

  lemma AuthorityReads(a: string, host: string, port: string, out: Request)
    requires AuthorityIs(a, host, port) && out.port == "80"
    ensures a != "" && SplitAuthority(a, out) == (true, out.(host := host, port := port))
  {
    if BracketsAre(a, host, port) {
      var n := |host|;
      forall i | 0 <= i < n + 1 ensures a[i] != ']' { if i > 0 { assert a[i] == a[1..n + 1][i - 1]; } }
      FindChar(a, ']', 0, n + 1);
      hide FindFrom, At;
    } else if a == host + ":" + port && host[0] != '[' {
      LastColon(host, port);
      hide RFindChar;
    } else {
      assert RFindChar(a, ':') < 0;
    }
  }

  function RestOf(url: string): (rest: string) {
    var slash := FindFrom(url, "/", 7);
    if slash < 0 then "" else url[slash..]
  }

  lemma UrlSlices(url: string)
    requires |url| >= 7
    ensures url == url[..7] + Authority(url) + RestOf(url) && NoChar(Authority(url), '/')
    ensures if RestOf(url) == "" then UrlPath(url) == "/" else RestOf(url)[0] == '/' && UrlPath(url) == RestOf(url)
  {
    AuthorityHasNoSlash(url);
    hide FindFrom;
  }

  // The parts of a URL that split_absolute_url accepts.
  lemma UrlParts(url: string, out: Request) returns (w: Written)
    requires SplitAbsoluteUrl(url, out).0 && out.port == "80"
    ensures var o := SplitAbsoluteUrl(url, out).1;
            && url == TargetText(w) && TargetIs(w, o.host, o.port, o.path)
            && o == out.(host := o.host, port := o.port, path := o.path)
  {
    hide SplitAuthority, AuthorityIs, Authority, UrlPath, RestOf, Lower, NoChar;
    var a, o := Authority(url), out.(path := UrlPath(url));
    w := Written("", url[..7], a, RestOf(url), "", [], "");
    UrlSlices(url);
    SplitIs(a, o);
  }

  lemma SplitIs(a: string, out: Request)
    requires a != "" && out.port == "80" && SplitAuthority(a, out).0
    requires var s := SplitAuthority(a, out).1; s.host != "" && s.port != "" && AllDigits(s.port)
    ensures var s := SplitAuthority(a, out).1; s == out.(host := s.host, port := s.port) && AuthorityIs(a, s.host, s.port)
  {
    if a[0] == '[' { BracketedHost(a, out); } else { PlainHost(a, out); }
    hide SplitAuthority, BracketsAre;
  }

  lemma SchemeSplits(w: Written)
    requires |w.scheme| == 7 && NoChar(w.authority, '/') && (w.rest == "" || w.rest[0] == '/')
    ensures var url := TargetText(w);
            && |url| >= 7 && url[..7] == w.scheme && Authority(url) == w.authority
            && UrlPath(url) == if w.rest == "" then "/" else w.rest
  {
    var url, a := TargetText(w), w.authority;
    forall i | 7 <= i < 7 + |a| ensures url[i] != '/' { assert url[i] == a[i - 7]; }
    if w.rest == "" {
      FindNoChar(url, '/', 7);
      assert url[7..] == a;
    } else {
      assert url[7 + |a|] == '/';
      FindChar(url, '/', 7, 7 + |a|);
      assert url[7..7 + |a|] == a && url[7 + |a|..] == w.rest;
    }
  }

  lemma UrlReads(w: Written, host: string, port: string, path: string, out: Request)
    requires TargetIs(w, host, port, path) && out.port == "80"
    ensures SplitAbsoluteUrl(TargetText(w), out) == (true, out.(host := host, port := port, path := path))
  {
    hide AuthorityIs, TargetText, SplitAuthority, Authority, UrlPath, Lower, NoChar;
    SchemeSplits(w);
    AuthorityReads(w.authority, host, port, out.(path := path));
    NamedTarget(w.authority, host, port);
  }

  lemma NamedTarget(a: string, host: string, port: string)
    requires AuthorityIs(a, host, port)
    ensures host != "" && port != "" && AllDigits(port)
  {
  }

  // ---- the request line -----------------------------------------------------------------------

  // An accepted line has three words, a known method first.
  lemma LineWords(line: string, out: Request) returns (m: string, url: string, version: string)
    requires ParseRequestLine(line, out).0.Ok?
    ensures line == m + " " + url + " " + version && NoChar(url, ' ') && KnownMethod(m)
    ensures var u := SplitAbsoluteUrl(url, out.(method_ := m, version := version));
            u.0 && ParseRequestLine(line, out).1 == u.1
  {
    hide SplitAbsoluteUrl, KnownMethod;
    var sp1 := Find(line, " ");
    var sp2 := FindFrom(line, " ", sp1 + 1);
    m, url, version := line[..sp1], line[sp1 + 1..sp2], line[sp2 + 1..];
    BlankBetween(line, sp1 + 1);
    OneChar(line, sp1);
    OneChar(line, sp2);
    ThreeWords(line, sp1, sp2);
    hide FindFrom, At;
  }

  lemma ThreeWords(line: string, i: nat, j: nat)
    requires i < j < |line| && line[i] == ' ' && line[j] == ' '
    ensures line == line[..i] + " " + line[i + 1..j] + " " + line[j + 1..]
  {
  }

  lemma LineParts(line: string, out: Request) returns (w: Written)
    requires ParseRequestLine(line, out).0.Ok? && out.port == "80"
    ensures var o := ParseRequestLine(line, out).1;
            && line == FirstLine(w) && TargetIs(w, o.host, o.port, o.path) && NoChar(TargetText(w), ' ')
            && KnownMethod(w.method_) && w.method_ == o.method_ && w.version == o.version
            && o == out.(method_ := o.method_, version := o.version, host := o.host, port := o.port, path := o.path)
  {
    hide ParseRequestLine, TargetIs, SplitAbsoluteUrl, KnownMethod, NoChar, TargetText;
    var m, url, version := LineWords(line, out);
    var u := UrlParts(url, out.(method_ := m, version := version));
    w := u.(method_ := m, version := version);
    SameTargetText(u, w);
  }

  lemma SameTargetText(u: Written, w: Written)
    requires w.scheme == u.scheme && w.authority == u.authority && w.rest == u.rest
    ensures TargetText(w) == TargetText(u)
    ensures forall host, port, path :: TargetIs(u, host, port, path) ==> TargetIs(w, host, port, path)
  {
    hide AuthorityIs;
  }

  lemma BlankBetween(line: string, from: nat)
    requires FindFrom(line, " ", from) >= 0
    ensures from <= FindFrom(line, " ", from) < |line| && NoChar(line[from..FindFrom(line, " ", from)], ' ')
  {
    var r := FindFrom(line, " ", from);
    FindFirst(line, " ", from);
    hide FindFrom;
    forall i | 0 <= i < r - from ensures line[from..r][i] != ' ' {
      assert !At(line, " ", from + i);
      OneChar(line, from + i);
    }
  }

  lemma LineReads(w: Written, host: string, port: string, path: string, out: Request)
    requires TargetIs(w, host, port, path) && NoChar(TargetText(w), ' ') && KnownMethod(w.method_) && out.port == "80"
    ensures ParseRequestLine(FirstLine(w), out)
         == (Ok, out.(method_ := w.method_, version := w.version, host := host, port := port, path := path))
  {
    hide TargetText, TargetIs, SplitAbsoluteUrl, NoChar, Find, FindFrom, At, KnownMethod, ParseRequestLine;
    MethodHasNoBlank(w.method_);
    UrlReads(w, host, port, path, out.(method_ := w.method_, version := w.version));
    Words(w.method_, TargetText(w), w.version);
    LineInSteps(FirstLine(w), w.method_, TargetText(w), w.version, out);
  }

  // ---- the header block -----------------------------------------------------------------------

  // The lines of a block that ends at `end`, from `pos` on.
  function BlockLines(buf: string, pos: nat, end: nat): (ls: seq<string>)
    decreases end - pos
  {
    if pos >= end then []
    else
      var eol := FindFrom(buf, CRLF, pos);
      if eol <= pos || eol > end then [] else [buf[pos..eol]] + BlockLines(buf, eol + 2, end)
  }

  // Inside a block whose first blank line is at `end`, a line start is followed by a whole line.
  lemma NextLine(buf: string, pos: nat, end: nat)
    requires Find(buf, BLANK_LINE) == end && 2 <= pos <= end + 1 && At(buf, CRLF, pos - 2)
    ensures pos < end
    ensures var eol := FindFrom(buf, CRLF, pos);
            pos < eol <= end && At(buf, CRLF, eol) && NoCrlf(buf[pos..eol]) && eol + 2 <= end + 2 <= |buf| - 2
  {
    AtBlankLine(buf, end);
    AtBlankLine(buf, pos - 2);
    FindFirst(buf, BLANK_LINE, 0);
    FindFirst(buf, CRLF, pos);
    AtCrlf(buf, end);
    AtCrlf(buf, end + 2);
    AtCrlf(buf, pos - 2);
    var eol := FindFrom(buf, CRLF, pos);
    hide FindFrom, At;
    LineIsClean(buf, pos);
  }

  lemma {:induction false} BlockSplits(buf: string, pos: nat, end: nat)
    requires Find(buf, BLANK_LINE) == end && 2 <= pos <= end + 2 && At(buf, CRLF, pos - 2)
    ensures end + 2 <= |buf| && Join(BlockLines(buf, pos, end)) == buf[pos..end + 2]
    ensures forall i :: 0 <= i < |BlockLines(buf, pos, end)| ==>
              BlockLines(buf, pos, end)[i] != "" && NoCrlf(BlockLines(buf, pos, end)[i])
    decreases end + 2 - pos
  {
    hide FindFrom, At, NoCrlf, Find;
    if pos == end + 2 {
      AtBounds(buf, BLANK_LINE, end);
      JoinNil();
    } else {
      NextLine(buf, pos, end);
      var eol := FindFrom(buf, CRLF, pos);
      BlockSplits(buf, eol + 2, end);
      var l, ls := buf[pos..eol], BlockLines(buf, eol + 2, end);
      JoinCons(l, ls);
      hide Join;
      CrlfSlice(buf, pos, eol, end + 2);
    }
  }

  lemma CrlfSlice(buf: string, pos: nat, eol: nat, e: nat)
    requires pos <= eol && eol + 2 <= e <= |buf| && At(buf, CRLF, eol)
    ensures buf[pos..e] == Line(buf[pos..eol]) + buf[eol + 2..e]
  {
    AtCrlf(buf, eol);
  }

  lemma ColonField(line: string)
    requires Find(line, ":") >= 0
    ensures Find(line, ":") < |line| && FieldIs(line, HeaderOf(line, Find(line, ":")))
  {
    var k := Find(line, ":");
    FindCharAbsent(line, ':');
    OneChar(line, k);
    hide FindFrom, Trim, Trimmed;
    TrimIsTrimmed(line[..k]);
    TrimIsTrimmed(line[k + 1..]);
    assert line[k] == ':' && NoChar(line[..k], ':');
  }

  lemma FieldColon(line: string, h: Header)
    requires FieldIs(line, h)
    ensures 0 <= Find(line, ":") < |line| && HeaderOf(line, Find(line, ":")) == h
  {
    hide Trim, Trimmed;
    var k :| 0 <= k < |line| && line[k] == ':' && NoChar(line[..k], ':') && Trimmed(line[..k], h.name) && Trimmed(line[k + 1..], h.value);
    TrimIff(line[..k], h.name);
    TrimIff(line[k + 1..], h.value);
    forall i | 0 <= i < k ensures line[i] != ':' { assert line[..k][i] == line[i]; }
    FindChar(line, ':', 0, k);
  }

  // What the header loop accepts, it reads line by line.
  lemma {:induction false} BlockFields(buf: string, pos: nat, end: nat, acc: seq<Header>)
    requires ParseHeaders(buf, pos, end, acc).0
    ensures var ls, hs := BlockLines(buf, pos, end), ParseHeaders(buf, pos, end, acc).1;
            && |hs| == |acc| + |ls| && hs[..|acc|] == acc
            && forall i :: 0 <= i < |ls| ==> FieldIs(ls[i], hs[|acc| + i])
    decreases end - pos
  {
    hide FindFrom, HeaderOf, FieldIs, Find;
    if pos < end {
      var eol := FindFrom(buf, CRLF, pos);
      if pos < eol <= end {
        var l := buf[pos..eol];
        ColonField(l);
        var more := acc + [HeaderOf(l, Find(l, ":"))];
        BlockFields(buf, eol + 2, end, more);
        ShiftFields(l, BlockLines(buf, eol + 2, end), acc, HeaderOf(l, Find(l, ":")), ParseHeaders(buf, eol + 2, end, more).1);
        hide ShiftedFields;
      }
    }
  }

  ghost predicate ShiftedFields(ls: seq<string>, acc: seq<Header>, hs: seq<Header>) {
    && |hs| == |acc| + |ls| && hs[..|acc|] == acc
    && forall i :: 0 <= i < |ls| ==> FieldIs(ls[i], hs[|acc| + i])
  }

  lemma ShiftFields(l: string, ls: seq<string>, acc: seq<Header>, h: Header, hs: seq<Header>)
    requires FieldIs(l, h) && ShiftedFields(ls, acc + [h], hs)
    ensures ShiftedFields([l] + ls, acc, hs)
  {
    hide FieldIs;
    assert hs[|acc|] == hs[..|acc| + 1][|acc|] == h;
    assert hs[..|acc|] == hs[..|acc| + 1][..|acc|] == acc;
    forall i | 0 <= i < |[l] + ls| ensures FieldIs(([l] + ls)[i], hs[|acc| + i]) {
      if i > 0 { assert FieldIs(ls[i - 1], hs[|acc + [h]| + (i - 1)]); }
    }
  }

  // One turn of the header loop, at a line that stands for `h`.
  lemma LineTurn(s: string, pos: nat, end: nat, l: string, h: Header, more: string, acc: seq<Header>)
    requires pos <= end + 2 <= |s| && s[pos..end + 2] == Line(l) + more && l != "" && NoCrlf(l) && FieldIs(l, h)
    ensures pos + |l| + 2 <= end + 2 && s[pos + |l| + 2..end + 2] == more
    ensures ParseHeaders(s, pos, end, acc) == ParseHeaders(s, pos + |l| + 2, end, acc + [h])
  {
    hide FindFrom, Find, NoCrlf, HeaderOf, FieldIs, Line;
    LineAt(s, pos, end + 2, l, more);
    FieldColon(l, h);
  }

  // Lines written by the grammar are read as their fields.
  lemma {:induction false} LinesRead(s: string, pos: nat, end: nat, ls: seq<string>, hs: seq<Header>, acc: seq<Header>)
    requires pos <= end + 2 <= |s| && s[pos..end + 2] == Join(ls) && LinesAre(ls, hs)
    ensures ParseHeaders(s, pos, end, acc) == (true, acc + hs)
    decreases |ls|
  {
    hide Join, ParseHeaders, LinesAre, NoCrlf, FieldIs, Line;
    if ls == [] {
      NoLinesRead(s, pos, end, hs, acc);
    } else {
      JoinUncons(ls);
      LinesTail(ls, hs);
      HeadThenTail(acc, hs);
      LineTurn(s, pos, end, ls[0], hs[0], Join(ls[1..]), acc);
      LinesRead(s, pos + |ls[0]| + 2, end, ls[1..], hs[1..], acc + [hs[0]]);
    }
  }

  lemma NoLinesRead(s: string, pos: nat, end: nat, hs: seq<Header>, acc: seq<Header>)
    requires pos <= end + 2 <= |s| && s[pos..end + 2] == Join([]) && LinesAre([], hs)
    ensures ParseHeaders(s, pos, end, acc) == (true, acc + hs)
  {
    JoinNil();
    assert acc + hs == acc;
  }

  lemma LinesTail(ls: seq<string>, hs: seq<Header>)
    requires LinesAre(ls, hs) && ls != []
    ensures hs != [] && LinesAre(ls[1..], hs[1..]) && ls[0] != "" && NoCrlf(ls[0]) && FieldIs(ls[0], hs[0])
  {
    hide NoCrlf, FieldIs;
  }

  lemma HeadThenTail<T>(acc: seq<T>, hs: seq<T>)
    requires hs != []
    ensures acc + [hs[0]] + hs[1..] == acc + hs
  {
  }

  lemma JoinUncons(ls: seq<string>)
    requires ls != []
    ensures Join(ls) == Line(ls[0]) + Join(ls[1..])
  {
    hide Line;
  }

  // ---- framing --------------------------------------------------------------------------------

  lemma {:induction false} HeaderValueIsFirst(hs: seq<Header>, name: string)
    ensures FirstValueIs(hs, Lower(name), HeaderValue(hs, name))
  {
    hide Lower;
    if hs != [] && Lower(hs[0].name) != Lower(name) {
      var rest, n := hs[1..], Lower(name);
      HeaderValueIsFirst(rest, name);
      if exists i :: 0 <= i < |rest| && Lower(rest[i].name) == n {
        var i :| 0 <= i < |rest| && Lower(rest[i].name) == n && rest[i].value == HeaderValue(rest, name)
                 && forall j :: 0 <= j < i ==> Lower(rest[j].name) != n;
        assert hs[i + 1] == rest[i];
        forall j | 0 <= j < i + 1 ensures Lower(hs[j].name) != n { if j > 0 { assert hs[j] == rest[j - 1]; } }
      } else {
        forall i | 0 <= i < |hs| ensures Lower(hs[i].name) != n { if i > 0 { assert hs[i] == rest[i - 1]; } }
      }
    }
  }

  lemma FirstValueIsUnique(hs: seq<Header>, name: string, v: string, u: string)
    requires FirstValueIs(hs, name, v) && FirstValueIs(hs, name, u)
    ensures v == u
  {
    hide Lower;
  }

  lemma FramedAs(o: Request, req: Request)
    requires o.contentLength == 0 && ParseFraming(o) == (Ok, req)
    ensures req == o.(contentLength := req.contentLength)
    ensures FramingIs(req, HeaderValue(o.headers, "Transfer-Encoding"), HeaderValue(o.headers, "Content-Length"))
  {
    FramingIsRead(o);
    HeaderValueIsFirst(o.headers, "Transfer-Encoding");
    HeaderValueIsFirst(o.headers, "Content-Length");
    LowerNames();
    hide Lower, HeaderValue, ParseFraming, FirstValueIs, At, ToNat;
  }

  lemma FramingReads(o: Request, req: Request, te: string, cl: string)
    requires o.contentLength == 0 && req == o.(contentLength := req.contentLength) && FramingIs(req, te, cl)
    ensures ParseFraming(o) == (Ok, req)
  {
    FramingIsRead(o);
    HeaderValueIsFirst(o.headers, "Transfer-Encoding");
    HeaderValueIsFirst(o.headers, "Content-Length");
    LowerNames();
    FirstValueIsUnique(o.headers, "transfer-encoding", te, HeaderValue(o.headers, "Transfer-Encoding"));
    FirstValueIsUnique(o.headers, "content-length", cl, HeaderValue(o.headers, "Content-Length"));
    hide Lower, HeaderValue, FirstValueIs, At, ToNat;
    assert ParseFraming(o).0 != NotImplemented;
    hide ParseFraming;
  }

  // ---- the theorem ----------------------------------------------------------------------------

  // Where the parser looked in a text whose lines it could read.
  ghost predicate Reached(buf: string, eol: nat, end: nat, o: Request, hs: seq<Header>) {
    && Find(buf, BLANK_LINE) == end && Find(buf, CRLF) == eol && 0 < eol <= end && end + 4 <= |buf|
    && ParseRequestLine(buf[..eol], FRESH.(headerBytes := end + 4)) == (Ok, o)
    && ParseHeaders(buf, eol + 2, end, o.headers) == (true, hs)
  }

  // The lines of a text can be read, or the result is a verdict on them.
  lemma LinesDecide(buf: string) returns (eol: nat, end: nat, o: Request, hs: seq<Header>)
    requires Parse(buf, FRESH).0 in {Ok, NotImplemented}
    ensures || (Reached(buf, eol, end, o, hs) && Parse(buf, FRESH) == ParseFraming(o.(headers := hs)))
            || (Find(buf, BLANK_LINE) == end && Find(buf, CRLF) == eol && 0 < eol <= |buf|
                && ParseRequestLine(buf[..eol], FRESH.(headerBytes := end + 4)).0.NotImplemented?
                && Parse(buf, FRESH).0.NotImplemented?)
  {
    hide ParseRequestLine, ParseHeaders, ParseFraming, FindFrom, At;
    end, eol := Find(buf, BLANK_LINE), Find(buf, CRLF);
    AtBounds(buf, CRLF, eol);
    o := ParseRequestLine(buf[..eol], FRESH.(headerBytes := end + 4)).1;
    hs := ParseHeaders(buf, eol + 2, end, o.headers).1;
    AtBounds(buf, BLANK_LINE, end);
    BlankLineHasCrlf(buf, end);
    FindFirst(buf, CRLF, 0);
  }

  lemma WholeText(buf: string, eol: nat, end: nat, ls: seq<string>)
    requires eol <= end && end + 4 <= |buf| && At(buf, CRLF, eol) && At(buf, BLANK_LINE, end) && Join(ls) == buf[eol + 2..end + 2]
    ensures Join([buf[..eol]] + ls) + (CRLF + buf[end + 4..]) == buf
  {
    JoinCons(buf[..eol], ls);
    CrlfSlice(buf, 0, eol, end + 2);
    AtBlankLine(buf, end);
    TailText(buf, end + 2);
    hide Join, At, Line;
    assert buf[0..eol] == buf[..eol];
    Halves(buf, end + 2);
  }

  lemma TailText(buf: string, n: nat)
    requires n + 2 <= |buf| && At(buf, CRLF, n)
    ensures buf[n..] == CRLF + buf[n + 2..]
  {
    AtCrlf(buf, n);
  }

  lemma Halves(buf: string, n: nat)
    requires n <= |buf|
    ensures buf[0..n] + buf[n..] == buf
  {
  }

  lemma ReachedIsShaped(buf: string, eol: nat, end: nat, o: Request, hs: seq<Header>) returns (w: Written)
    requires Reached(buf, eol, end, o, hs)
    ensures TextOf(w) == buf && Shaped(w, o.(headers := hs)) && o.contentLength == 0
  {
    hide ParseRequestLine, ParseHeaders, FindFrom, Find, At, NoCrlf, TargetIs, NoChar, FieldIs, TargetText, Join;
    var line, ls := buf[..eol], BlockLines(buf, eol + 2, end);
    FoundAt(buf, eol, end);
    BlockSplits(buf, eol + 2, end);
    WholeText(buf, eol, end, ls);
    var u := LineParts(line, FRESH.(headerBytes := end + 4));
    w := u.(lines := ls, body := buf[end + 4..]);
    SameTargetText(u, w);
    assert FirstLine(w) == line;
    LineIsClean(buf, 0);
    assert buf[0..eol] == line;
    BlockFields(buf, eol + 2, end, []);
    hide BlockLines;
  }

  // The framing fields do not take part in the shape.
  lemma ShapedSame(w: Written, o: Request, req: Request)
    requires Shaped(w, o) && req == o.(contentLength := req.contentLength)
    ensures Shaped(w, req)
  {
    hide TextOf, TargetIs, LinesAre, FirstLine, TargetText;
  }

  lemma AcceptedIsWritten(buf: string, req: Request) returns (w: Written)
    requires Accepted(buf, req)
    ensures TextOf(w) == buf && Means(w, req)
  {
    hide Reached, ParseFraming, Parse, FramingIs, Shaped, TextOf;
    var eol, end, o, hs := LinesDecide(buf);
    w := ReachedIsShaped(buf, eol, end, o, hs);
    FramedAs(o.(headers := hs), req);
    ShapedSame(w, o.(headers := hs), req);
  }

  lemma FoundAt(buf: string, eol: nat, end: nat)
    requires Find(buf, BLANK_LINE) == end && Find(buf, CRLF) == eol
    ensures At(buf, BLANK_LINE, end) && At(buf, CRLF, eol) && FindFrom(buf, CRLF, 0) == eol
  {
  }

  lemma BlockReads(w: Written, hs: seq<Header>)
    requires NoCrlf(FirstLine(w)) && LinesAre(w.lines, hs)
    ensures var s, first := TextOf(w), FirstLine(w);
            var end := |s| - |w.body| - 4;
            && 0 < |first| <= end && end + 4 <= |s| && Find(s, BLANK_LINE) == end && Find(s, CRLF) == |first|
            && s[..|first|] == first && ParseHeaders(s, |first| + 2, end, []) == (true, hs)
  {
    var first, s := FirstLine(w), TextOf(w);
    FirstLineIsLong(w);
    hide FirstLine, NoCrlf, Find, FindFrom, FieldIs, ParseHeaders;
    BlockIsFound(first, w.lines, w.body);
    LinesRead(s, |first| + 2, |s| - |w.body| - 4, w.lines, hs, []);
    assert [] + hs == hs;
  }

  // The request as the parser has it before and after the header block.
  function LineRequest(req: Request): (o: Request) {
    FRESH.(headerBytes := req.headerBytes, method_ := req.method_, version := req.version, host := req.host,
           port := req.port, path := req.path)
  }

  lemma LineRequestIs(req: Request)
    ensures LineRequest(req).headers == []
    ensures LineRequest(req).(headers := req.headers).contentLength == 0
    ensures LineRequest(req).(headers := req.headers).(contentLength := req.contentLength) == req
  {
  }

  lemma ShapedParts(w: Written, req: Request)
    requires Shaped(w, req)
    ensures KnownMethod(w.method_) && NoCrlf(FirstLine(w)) && LinesAre(w.lines, req.headers)
    ensures req.headerBytes == |TextOf(w)| - |w.body|
    ensures ParseRequestLine(FirstLine(w), FRESH.(headerBytes := req.headerBytes)) == (Ok, LineRequest(req))
  {
    MethodIsKnown(w.method_);
    hide ParseRequestLine, NoCrlf, TargetIs, NoChar, LinesAre, FirstLine, KnownMethod, TextOf, TargetText;
    LineReads(w, req.host, req.port, req.path, FRESH.(headerBytes := req.headerBytes));
  }

  lemma ParsesUpToFraming(w: Written, req: Request)
    requires Shaped(w, req)
    ensures Parse(TextOf(w), FRESH) == ParseFraming(LineRequest(req).(headers := req.headers))
  {
    hide ParseRequestLine, ParseHeaders, ParseFraming, Find, NoCrlf, Parse, LinesAre, FirstLine,
         KnownMethod, TextOf, LineRequest, Shaped;
    ShapedParts(w, req);
    BlockReads(w, req.headers);
    LineRequestIs(req);
    ParseInSteps(TextOf(w), FirstLine(w), req.headerBytes - 4, LineRequest(req), req.headers);
  }

  lemma WrittenIsAccepted(w: Written, req: Request)
    requires Means(w, req)
    ensures Accepted(TextOf(w), req)
  {
    ParsesUpToFraming(w, req);
    var te, cl :| FramingIs(req, te, cl);
    LineRequestIs(req);
    FramingReads(LineRequest(req).(headers := req.headers), req, te, cl);
    hide Parse, ParseFraming, TextOf, LineRequest, Means, FramingIs;
  }

  lemma MethodIsKnown(m: string)
    requires m == "GET" || m == "HEAD" || m == "POST"
    ensures KnownMethod(m)
  {
  }

  lemma FirstLineIsLong(w: Written)
    ensures |FirstLine(w)| >= 2
  {
  }

  // Where the parser finds the parts of a written text.
  lemma BlockIsFound(first: string, ls: seq<string>, body: string)
    requires first != "" && NoCrlf(first) && forall i :: 0 <= i < |ls| ==> ls[i] != "" && NoCrlf(ls[i])
    ensures var s := Join([first] + ls) + (CRLF + body);
            var end := |s| - |body| - 4;
            && |first| <= end && Find(s, BLANK_LINE) == end && Find(s, CRLF) == |first| && s[..|first|] == first
            && |first| + 2 <= end + 2 <= |s| && s[|first| + 2..end + 2] == Join(ls)
  {
    hide NoCrlf, FindFrom, At;
    var s, tail := Join([first] + ls) + (CRLF + body), CRLF + body;
    BlankLineEndsText("", [first] + ls, body);
    assert "" + Join([first] + ls) + tail == s;
    JoinCons(first, ls);
    hide Join;
    LineEnd("", first, Join(ls) + tail);
    Assoc(Line(first), Join(ls), tail);
    assert "" + Line(first) + (Join(ls) + tail) == s;
    assert s[0..|first|] == s[..|first|];
    assert s[|first| + 2..|first| + 2 + |Join(ls)|] == Join(ls);
  }

  // parse_request accepts exactly the texts of the grammar, each as what it means.
  lemma AcceptedIff(buf: string, req: Request)
    ensures Accepted(buf, req) <==> exists w :: TextOf(w) == buf && Means(w, req)
  {
    hide Accepted, Means, TextOf;
    if Accepted(buf, req) {
      var w := AcceptedIsWritten(buf, req);
    }
    if exists w :: TextOf(w) == buf && Means(w, req) {
      var w :| TextOf(w) == buf && Means(w, req);
      WrittenIsAccepted(w, req);
    }
  }

  // ---- what is refused as not implemented -----------------------------------------------------

  // The first of three words is no method the proxy knows.
  ghost predicate UnknownMethod(buf: string) {
    && (exists i :: At(buf, BLANK_LINE, i))
    && exists m, url, version, rest :: UnknownMethodIn(buf, m, url, version, rest)
  }

  ghost predicate UnknownMethodIn(buf: string, m: string, url: string, version: string, rest: string) {
    && m != "GET" && m != "HEAD" && m != "POST" && NoChar(m, ' ') && NoChar(url, ' ')
    && NoCrlf(m + " " + url + " " + version)
    && buf == Line(m + " " + url + " " + version) + rest
  }

  // Well formed, and its first Transfer-Encoding field says chunked.
  ghost predicate Chunked(buf: string) {
    exists w, req, te :: TextOf(w) == buf && Shaped(w, req) && SaysChunked(req.headers, te)
  }

  ghost predicate SaysChunked(hs: seq<Header>, te: string) {
    FirstValueIs(hs, "transfer-encoding", te) && exists i :: At(Lower(te), "chunked", i)
  }

  lemma ChunkedIff(o: Request, te: string)
    ensures ParseFraming(o).0.NotImplemented? ==> SaysChunked(o.headers, HeaderValue(o.headers, "Transfer-Encoding"))
    ensures SaysChunked(o.headers, te) ==> ParseFraming(o).0.NotImplemented?
  {
    FramingIsRead(o);
    HeaderValueIsFirst(o.headers, "Transfer-Encoding");
    LowerNames();
    hide Lower, HeaderValue, FirstValueIs, At, ParseFraming;
    if SaysChunked(o.headers, te) { FirstValueIsUnique(o.headers, "transfer-encoding", te, HeaderValue(o.headers, "Transfer-Encoding")); }
  }

  lemma UnknownWords(line: string, out: Request) returns (m: string, url: string, version: string)
    requires ParseRequestLine(line, out).0.NotImplemented?
    ensures line == m + " " + url + " " + version && NoChar(m, ' ') && NoChar(url, ' ') && m != "GET" && m != "HEAD" && m != "POST"
  {
    hide SplitAbsoluteUrl;
    var sp1 := Find(line, " ");
    var sp2 := FindFrom(line, " ", sp1 + 1);
    m, url, version := line[..sp1], line[sp1 + 1..sp2], line[sp2 + 1..];
    BlankBetween(line, sp1 + 1);
    FindCharAbsent(line, ' ');
    OneChar(line, sp1);
    OneChar(line, sp2);
    ThreeWords(line, sp1, sp2);
    hide FindFrom, At;
  }

  lemma UnknownLine(m: string, url: string, version: string, out: Request)
    requires m != "GET" && m != "HEAD" && m != "POST" && NoChar(m, ' ') && NoChar(url, ' ')
    ensures ParseRequestLine(m + " " + url + " " + version, out).0.NotImplemented?
  {
    hide SplitAbsoluteUrl, Find, FindFrom, At;
    Words(m, url, version);
    assert (m + " " + url + " " + version)[..|m|] == m;
  }

  lemma RefusedLine(buf: string, eol: nat, end: nat)
    requires Find(buf, BLANK_LINE) == end && Find(buf, CRLF) == eol && eol <= |buf|
    requires ParseRequestLine(buf[..eol], FRESH.(headerBytes := end + 4)).0.NotImplemented?
    ensures UnknownMethod(buf)
  {
    hide ParseRequestLine, FindFrom, Find, At, NoCrlf, NoChar;
    FoundAt(buf, eol, end);
    var m, url, version := UnknownWords(buf[..eol], FRESH.(headerBytes := end + 4));
    LineIsClean(buf, 0);
    assert buf[0..eol] == buf[..eol];
    AtBounds(buf, CRLF, eol);
    CrlfSlice(buf, 0, eol, |buf|);
    assert buf[0..|buf|] == buf && buf[eol + 2..|buf|] == buf[eol + 2..];
    assert UnknownMethodIn(buf, m, url, version, buf[eol + 2..]);
  }

  lemma LineIsRefused(buf: string, m: string, url: string, version: string, rest: string)
    requires UnknownMethodIn(buf, m, url, version, rest) && exists i :: At(buf, BLANK_LINE, i)
    ensures Parse(buf, FRESH).0.NotImplemented?
  {
    hide ParseRequestLine, ParseHeaders, ParseFraming, At, NoCrlf, NoChar;
    var line := m + " " + url + " " + version;
    LineEnd("", line, rest);
    assert "" + Line(line) + rest == buf;
    FoundIffThere(buf, BLANK_LINE);
    hide FindFrom;
    UnknownLine(m, url, version, FRESH.(headerBytes := Find(buf, BLANK_LINE) + 4));
    assert buf[..|line|] == line by { assert buf[0..|line|] == buf[..|line|]; }
  }

  // Exactly these texts are answered with 501.
  lemma NotImplementedIff(buf: string)
    ensures Parse(buf, FRESH).0.NotImplemented? <==> UnknownMethod(buf) || Chunked(buf)
  {
    hide Parse, ParseFraming, ParseRequestLine, Reached, Shaped, TextOf, SaysChunked, UnknownMethodIn, At, Find, LineRequest;
    if Parse(buf, FRESH).0.NotImplemented? {
      var eol, end, o, hs := LinesDecide(buf);
      if Reached(buf, eol, end, o, hs) && Parse(buf, FRESH) == ParseFraming(o.(headers := hs)) {
        var w := ReachedIsShaped(buf, eol, end, o, hs);
        ChunkedIff(o.(headers := hs), "");
      } else {
        RefusedLine(buf, eol, end);
      }
    }
    if UnknownMethod(buf) {
      var m, url, version, rest :| UnknownMethodIn(buf, m, url, version, rest);
      LineIsRefused(buf, m, url, version, rest);
    }
    if Chunked(buf) {
      var w, req, te :| TextOf(w) == buf && Shaped(w, req) && SaysChunked(req.headers, te);
      ParsesUpToFraming(w, req);
      ChunkedIff(LineRequest(req).(headers := req.headers), te);
    }
  }
}
