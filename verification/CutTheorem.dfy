// Exactly when the verdict on a client's bytes does not depend on how the network cuts them into
// reads of at least one byte and at most one chunk.
module CutTheorem {
  import opened Text
  import opened Http
  import opened Basics
  import opened RequestProofs
  import opened Reparse
  import opened WireRequests
  import opened ConnMachine
  import opened Cuts

  // What a sequence of read calls can bring.
  ghost predicate Receivable(cfg: Config, cuts: seq<string>) {
    forall i :: 0 <= i < |cuts| ==> 1 <= |cuts[i]| <= Chunk(cfg)
  }

  ghost predicate CutOf(cfg: Config, cuts: seq<string>, s: string) { Receivable(cfg, cuts) && Concat(cuts) == s }

  ghost predicate AllCutsAgree(cfg: Config, client: Desc, s: string) {
    forall a, b :: CutOf(cfg, a, s) && CutOf(cfg, b, s) ==>
      VerdictOf(Feed(cfg, Init(client), a)) == VerdictOf(Feed(cfg, Init(client), b))
  }

  // Can be told from the stream: its block is open, or malformed, or longer than the limit and one
  // read; or short enough, and either the body length does not wrap around or there is no byte of
  // body that a read could add or leave.
  ghost predicate CutProof(cfg: Config, s: string) {
    var n := Find(s, BLANK_LINE) + 4;
    || Find(s, BLANK_LINE) < 0
    || Judge(cfg, s) == Rejected(Error400())
    || n > cfg.maxHeaderBytes + Chunk(cfg)
    || (n <= cfg.maxHeaderBytes + 1 && (NoOverflow(cfg, s) || |s| == n || Chunk(cfg) <= 1))
  }

  // ---- cuts with one long read ----------------------------------------------------------------

  function Singles(s: string): (cuts: seq<string>)
    ensures |cuts| == |s| && forall i :: 0 <= i < |s| ==> cuts[i] == [s[i]]
  {
    seq(|s|, i requires 0 <= i < |s| => [s[i]])
  }

  // s byte by byte, except that [i, j) is one read.
  function Split(s: string, i: nat, j: nat): (cuts: seq<string>)
    requires i < j <= |s|
  {
    Singles(s[..i]) + [s[i..j]] + Singles(s[j..])
  }

  lemma {:induction false} SinglesPrefix(s: string, k: nat)
    requires k <= |s|
    ensures Concat(Singles(s)[..k]) == s[..k]
  {
    if k > 0 {
      var first := Singles(s)[..k];
      SinglesPrefix(s, k - 1);
      assert first[..k - 1] == Singles(s)[..k - 1];
      assert s[..k - 1] + [s[k - 1]] == s[..k];
    }
  }

  lemma {:induction false} ConcatAppend(a: seq<string>, b: seq<string>)
    ensures Concat(a + b) == Concat(a) + Concat(b)
    decreases |b|
  {
    if b == [] {
      assert a + b == a;
    } else {
      ConcatAppend(a, b[..|b| - 1]);
      assert (a + b)[..|a + b| - 1] == a + b[..|b| - 1];
    }
  }

  // Where the k-th read of such a cut ends.
  function Reach(i: nat, j: nat, k: nat): (n: int) { if k <= i then k else j + k - i - 1 }

  lemma SplitLeft(s: string, i: nat, j: nat, k: nat)
    requires k <= i < j <= |s|
    ensures k <= |Split(s, i, j)| && Concat(Split(s, i, j)[..k]) == s[..k]
  {
    hide Concat;
    assert Split(s, i, j)[..k] == Singles(s[..i])[..k];
    SinglesPrefix(s[..i], k);
    assert s[..i][..k] == s[..k];
  }

  lemma SplitRight(s: string, i: nat, j: nat, m: nat)
    requires i < j <= |s| && m <= |s| - j
    ensures i + 1 + m <= |Split(s, i, j)| && Concat(Split(s, i, j)[..i + 1 + m]) == s[..j + m]
  {
    hide Concat;
    var left, right := Split(s, i, j)[..i], Singles(s[j..])[..m];
    assert Split(s, i, j)[..i + 1 + m] == left + ([s[i..j]] + right);
    SplitLeft(s, i, j, i);
    SinglesPrefix(s[j..], m);
    ConcatAppend([s[i..j]], right);
    ConcatAppend(left, [s[i..j]] + right);
    OneCut(s[i..j]);
    hide Split, Singles;
    assert s[..i] + (s[i..j] + s[j..][..m]) == s[..j + m];
  }

  lemma SplitPrefix(s: string, i: nat, j: nat, k: nat)
    requires i < j <= |s| && k <= |Split(s, i, j)|
    ensures |Split(s, i, j)| == |s| - (j - i) + 1
    ensures 0 <= Reach(i, j, k) <= |s| && Concat(Split(s, i, j)[..k]) == s[..Reach(i, j, k)]
  {
    hide Concat;
    if k <= i { SplitLeft(s, i, j, k); } else { SplitRight(s, i, j, k - i - 1); }
  }

  lemma OneCut(s: string)
    ensures Concat([s]) == s
  {
    assert [s][..0] == [];
    assert Concat([]) == "" && "" + s == s;
  }

  lemma SplitIsCut(cfg: Config, s: string, i: nat, j: nat)
    requires i < j <= |s| && j - i <= Chunk(cfg)
    ensures CutOf(cfg, Split(s, i, j), s)
  {
    var cuts := Split(s, i, j);
    SplitPrefix(s, i, j, |cuts|);
    assert cuts[..|cuts|] == cuts && s[..|s|] == s;
  }

  // ---- the wrapped sum ------------------------------------------------------------------------

  // The wrapped sum is below the header length.
  lemma WrappedNeeded(req: Request)
    requires req.headerBytes <= SIZE_MAX && req.contentLength <= SIZE_MAX
    requires req.headerBytes + req.contentLength > SIZE_MAX
    ensures Needed(req) < req.headerBytes && req.contentLength > SIZE_MAX - req.headerBytes
  {
  }

  // When the sum wraps around, whatever has been read past the block is forwarded as the body.
  lemma WrappedJudge(cfg: Config, s: string, n: nat)
    requires !NoOverflow(cfg, s) && |s| <= SIZE_MAX && Find(s, BLANK_LINE) + 4 <= n <= |s|
    ensures var req := Parse(s, FRESH).1;
            && 0 <= Find(s, BLANK_LINE) && req.headerBytes == Find(s, BLANK_LINE) + 4
            && Judge(cfg, s[..n]) == Forwards(req, Build(req, s[req.headerBytes..n]))
  {
    hide Parse, FindFrom, Find, At, Build, CleanTarget, CleanHeaders, Needed, Error400, Error413, Error501;
    var p := Parse(s, FRESH);
    AcceptedIsClean(s, p.1);
    ParseIsLocal(s, FRESH, n);
    OpenPrefix(s, n);
    WrappedNeeded(p.1);
    assert Substr(s[..n], p.1.headerBytes, p.1.contentLength) == s[p.1.headerBytes..n];
  }

  lemma BuildLength(req: Request, body: string)
    ensures |Build(req, body)| == |Build(req, "")| + |body|
  {
    hide Join, HeaderLines, RequestLine, UpstreamHeaders;
  }

  // ---- agreement ------------------------------------------------------------------------------

  lemma OpenCutsAgree(cfg: Config, client: Desc, s: string, a: seq<string>)
    requires CutOf(cfg, a, s) && Find(s, BLANK_LINE) < 0
    ensures VerdictOf(Feed(cfg, Init(client), a)) == if |s| > cfg.maxHeaderBytes then Rejected(Error400()) else Undecided
  {
    hide Feed, VerdictOf, Init, Find, Concat, Error400, Parse, Receivable;
    assert a[..|a|] == a;
    if |s| > cfg.maxHeaderBytes {
      RejectedBy(cfg, client, a, |a|);
    } else {
      ParseIncomplete(s);
      CutVerdict(cfg, client, a);
      ShortHeaderNeverOver(cfg, a);
    }
  }

  lemma MalformedIsRejected(cfg: Config, client: Desc, s: string, a: seq<string>)
    requires CutOf(cfg, a, s) && Judge(cfg, s) == Rejected(Error400())
    ensures VerdictOf(Feed(cfg, Init(client), a)) == Rejected(Error400())
  {
    hide Feed, VerdictOf, Init, Find, Concat, Error400, Error413, Error501, Parse, Receivable, SomeReadOverLimit, Build,
         Substr, Needed;
    assert NoOverflow(cfg, s);
    CutVerdict(cfg, client, a);
  }

  // With no byte after the block, the last read closes it and forwards an empty body.
  lemma LastReadDecides(cfg: Config, client: Desc, s: string, a: seq<string>)
    requires CutOf(cfg, a, s) && !NoOverflow(cfg, s) && |s| <= SIZE_MAX
    requires Find(s, BLANK_LINE) + 4 == |s| <= cfg.maxHeaderBytes + 1
    ensures VerdictOf(Feed(cfg, Init(client), a)) == Judge(cfg, s)
  {
    hide Feed, VerdictOf, Init, Find, Error400, Parse, NoOverflow, Build;
    WrappedJudge(cfg, s, |s|);
    assert s[..|s|] == s;
    hide Judge;
    var before := a[..|a| - 1];
    assert Concat(before) + a[|a| - 1] == s && a[..|a|] == a;
    assert s[..|Concat(before)|] == Concat(before);
    OpenPrefix(s, |Concat(before)|);
    hide Concat;
    ShortHeaderNeverOver(cfg, before);
    DecidedBy(cfg, client, a, |a|);
  }

  // With reads of one byte there is only one cut.
  lemma {:induction false} OneByteCuts(cfg: Config, a: seq<string>, b: seq<string>)
    requires Chunk(cfg) <= 1 && Receivable(cfg, a) && Receivable(cfg, b) && Concat(a) == Concat(b)
    ensures a == b
    decreases |a|
  {
    OneByteLength(cfg, a);
    OneByteLength(cfg, b);
    if a != [] {
      var n := |a| - 1;
      OneByteLength(cfg, a[..n]);
      OneByteLength(cfg, b[..n]);
      var x, y := Concat(a[..n]), Concat(b[..n]);
      assert Concat(a) == x + a[n] && Concat(b) == y + b[n];
      assert (x + a[n])[..n] == x && (y + b[n])[..n] == y;
      assert (x + a[n])[n..] == a[n] && (y + b[n])[n..] == b[n];
      OneByteCuts(cfg, a[..n], b[..n]);
      assert a == a[..n] + [a[n]] && b == b[..n] + [b[n]];
    }
  }

  lemma {:induction false} OneByteLength(cfg: Config, a: seq<string>)
    requires Chunk(cfg) <= 1 && Receivable(cfg, a)
    ensures |Concat(a)| == |a|
  {
    if a != [] { OneByteLength(cfg, a[..|a| - 1]); }
  }

  lemma ProofCutsAgree(cfg: Config, client: Desc, s: string, a: seq<string>, b: seq<string>)
    requires CutProof(cfg, s) && (NoOverflow(cfg, s) || |s| <= SIZE_MAX) && CutOf(cfg, a, s) && CutOf(cfg, b, s)
    ensures VerdictOf(Feed(cfg, Init(client), a)) == VerdictOf(Feed(cfg, Init(client), b))
  {
    hide Feed, VerdictOf, Init, Find, Error400, Judge, NoOverflow, Concat;
    var n := Find(s, BLANK_LINE) + 4;
    OpenPrefix(s, |s|);
    if Find(s, BLANK_LINE) < 0 {
      OpenCutsAgree(cfg, client, s, a);
      OpenCutsAgree(cfg, client, s, b);
    } else if Judge(cfg, s) == Rejected(Error400()) {
      MalformedIsRejected(cfg, client, s, a);
      MalformedIsRejected(cfg, client, s, b);
    } else if n > cfg.maxHeaderBytes + Chunk(cfg) {
      LongHeaderIsRejected(cfg, client, a);
      LongHeaderIsRejected(cfg, client, b);
    } else if NoOverflow(cfg, s) {
      CutsAgree(cfg, client, a, b);
    } else if |s| == n {
      LastReadDecides(cfg, client, s, a);
      LastReadDecides(cfg, client, s, b);
    } else {
      OneByteCuts(cfg, a, b);
    }
  }

  // ---- disagreement ---------------------------------------------------------------------------

  // A block that ends more than one byte and at most one read past the limit: read byte by byte it
  // is refused, with one read across the limit it is judged.
  lemma MiddleCutsDisagree(cfg: Config, client: Desc, s: string)
    requires NoOverflow(cfg, s) || |s| <= SIZE_MAX
    requires 0 <= Find(s, BLANK_LINE) && Judge(cfg, s) != Rejected(Error400())
    requires cfg.maxHeaderBytes + 1 < Find(s, BLANK_LINE) + 4 <= cfg.maxHeaderBytes + Chunk(cfg)
    ensures var m, n := cfg.maxHeaderBytes, Find(s, BLANK_LINE) + 4;
            && n <= |s| && CutOf(cfg, Split(s, m, m + 1), s) && CutOf(cfg, Split(s, m, n), s)
            && VerdictOf(Feed(cfg, Init(client), Split(s, m, m + 1))) == Rejected(Error400())
            && VerdictOf(Feed(cfg, Init(client), Split(s, m, n))) != Rejected(Error400())
  {
    hide Feed, VerdictOf, Init, FindFrom, Error400, Judge, NoOverflow, Concat, Split;
    var m, n := cfg.maxHeaderBytes, Find(s, BLANK_LINE) + 4;
    OpenPrefix(s, |s|);
    SplitIsCut(cfg, s, m, m + 1);
    SplitIsCut(cfg, s, m, n);
    SplitPrefix(s, m, m + 1, 0);
    SplitPrefix(s, m, m + 1, m + 1);
    OpenPrefix(s, m + 1);
    RejectedBy(cfg, client, Split(s, m, m + 1), m + 1);
    hide Find;
    LongReadIsJudged(cfg, client, s);
  }

  lemma LongReadIsJudged(cfg: Config, client: Desc, s: string)
    requires NoOverflow(cfg, s) || |s| <= SIZE_MAX
    requires 0 <= Find(s, BLANK_LINE) && Find(s, BLANK_LINE) + 4 <= |s| && Judge(cfg, s) != Rejected(Error400())
    requires cfg.maxHeaderBytes + 1 < Find(s, BLANK_LINE) + 4 <= cfg.maxHeaderBytes + Chunk(cfg)
    ensures VerdictOf(Feed(cfg, Init(client), Split(s, cfg.maxHeaderBytes, Find(s, BLANK_LINE) + 4))) != Rejected(Error400())
  {
    hide Feed, VerdictOf, Init, Find, Error400, Judge, NoOverflow, Concat, Split, Parse, Build;
    var m, n := cfg.maxHeaderBytes, Find(s, BLANK_LINE) + 4;
    var cuts := Split(s, m, n);
    SplitPrefix(s, m, n, 0);
    forall k | 0 <= k <= |cuts| ensures !OverLimit(cfg, Concat(cuts[..k])) {
      SplitPrefix(s, m, n, k);
      OpenPrefix(s, Reach(m, n, k));
    }
    SplitIsCut(cfg, s, m, n);
    if NoOverflow(cfg, s) {
      CutVerdict(cfg, client, cuts);
    } else {
      NeverOverBefore(cfg, cuts, m);
      SplitPrefix(s, m, n, m);
      SplitPrefix(s, m, n, m + 1);
      OpenPrefix(s, m);
      OpenPrefix(s, n);
      WrappedJudge(cfg, s, n);
      DecidedBy(cfg, client, cuts, m + 1);
    }
  }

  lemma NeverOverBefore(cfg: Config, cuts: seq<string>, k: nat)
    requires k <= |cuts| && forall i :: 0 <= i <= |cuts| ==> !OverLimit(cfg, Concat(cuts[..i]))
    ensures !SomeReadOverLimit(cfg, cuts[..k])
  {
    hide OverLimit, Concat;
    forall i | 0 <= i <= k ensures !OverLimit(cfg, Concat(cuts[..k][..i])) { assert cuts[..k][..i] == cuts[..i]; }
  }

  // A wrapped sum and a byte of body: a read that ends with the block forwards nothing of the body, a
  // read that takes one byte more forwards that byte.
  lemma WrappedCutsDisagree(cfg: Config, client: Desc, s: string)
    requires !NoOverflow(cfg, s) && Chunk(cfg) >= 2
    requires Find(s, BLANK_LINE) + 4 < |s| <= SIZE_MAX && Find(s, BLANK_LINE) + 4 <= cfg.maxHeaderBytes + 1
    ensures var n := Find(s, BLANK_LINE) + 4;
            && n >= 4 && CutOf(cfg, Split(s, n - 1, n), s) && CutOf(cfg, Split(s, n - 1, n + 1), s)
            && VerdictOf(Feed(cfg, Init(client), Split(s, n - 1, n)))
               != VerdictOf(Feed(cfg, Init(client), Split(s, n - 1, n + 1)))
  {
    hide Feed, VerdictOf, Init, FindFrom, Error400, Judge, NoOverflow, Concat, Split, Parse, Build;
    var n := Find(s, BLANK_LINE) + 4;
    WrappedJudge(cfg, s, n);
    WrappedJudge(cfg, s, n + 1);
    var req := Parse(s, FRESH).1;
    BuildLength(req, s[n..n]);
    BuildLength(req, s[n..n + 1]);
    SplitIsCut(cfg, s, n - 1, n);
    SplitIsCut(cfg, s, n - 1, n + 1);
    hide Find;
    WrappedDecided(cfg, client, s, n);
    WrappedDecided(cfg, client, s, n + 1);
  }

  lemma WrappedDecided(cfg: Config, client: Desc, s: string, j: nat)
    requires !NoOverflow(cfg, s) && 0 <= Find(s, BLANK_LINE)
    requires Find(s, BLANK_LINE) + 4 <= j <= |s| <= SIZE_MAX && Find(s, BLANK_LINE) + 4 <= cfg.maxHeaderBytes + 1
    ensures VerdictOf(Feed(cfg, Init(client), Split(s, Find(s, BLANK_LINE) + 3, j))) == Judge(cfg, s[..j])
  {
    hide Feed, VerdictOf, Init, Find, Error400, Judge, NoOverflow, Concat, Split, Parse, Build;
    var i := Find(s, BLANK_LINE) + 3;
    var cuts := Split(s, i, j);
    SplitPrefix(s, i, j, 0);
    SplitPrefix(s, i, j, i);
    SplitPrefix(s, i, j, i + 1);
    OpenPrefix(s, i);
    OpenPrefix(s, j);
    WrappedJudge(cfg, s, j);
    ShortHeaderNeverOver(cfg, cuts[..i]);
    DecidedBy(cfg, client, cuts, i + 1);
  }

  // ---- the theorem ----------------------------------------------------------------------------

  // All cuts of a stream into reads get the same verdict, Request and upstream bytes if and only if
  // the stream is cut-proof.
  lemma VerdictIgnoresTheCutIff(cfg: Config, client: Desc, s: string)
    requires NoOverflow(cfg, s) || |s| <= SIZE_MAX
    ensures AllCutsAgree(cfg, client, s) <==> CutProof(cfg, s)
  {
    hide Feed, VerdictOf, Init, FindFrom, Error400, Judge, NoOverflow, Concat, Split, CutOf;
    if CutProof(cfg, s) {
      forall a, b | CutOf(cfg, a, s) && CutOf(cfg, b, s)
        ensures VerdictOf(Feed(cfg, Init(client), a)) == VerdictOf(Feed(cfg, Init(client), b))
      {
        ProofCutsAgree(cfg, client, s, a, b);
      }
    } else {
      OpenPrefix(s, |s|);
      if Find(s, BLANK_LINE) + 4 > cfg.maxHeaderBytes + 1 {
        MiddleCutsDisagree(cfg, client, s);
      } else {
        WrappedCutsDisagree(cfg, client, s);
      }
    }
  }

  // ---- two such streams -----------------------------------------------------------------------

  // GET http://h/ HTTP/1.1 and an empty line: 26 bytes.
  function PlainGet(): (s: string) { RequestText("GET", HOST, "HTTP/1.1", [], "") }

  lemma PlainGetText()
    ensures |PlainGet()| == 26 && NoCrlf(StartLine("GET", HOST, "HTTP/1.1"))
  {
    var line := StartLine("GET", HOST, "HTTP/1.1");
    assert line == "GET http://h/ HTTP/1.1";
    NoCrlfOfNoReturn(line);
    hide StartLine, NoCrlf;
    assert HeaderLines([]) == [] && [line] + [] == [line];
    assert Join([line]) == Line(line) by { assert [line][1..] == []; }
  }

  lemma PlainGetParses()
    ensures |PlainGet()| == 26 && Find(PlainGet(), BLANK_LINE) == 22
    ensures Parse(PlainGet(), FRESH).0.Ok? && Parse(PlainGet(), FRESH).1.headerBytes == 26
    ensures Parse(PlainGet(), FRESH).1.contentLength == 0
  {
    hide Parse, Find, Join, StartLine, NoCrlf, RequestText;
    PlainGetText();
    RequestReadsBack("GET", HOST, "HTTP/1.1", [], "");
    AcceptedIsClean(PlainGet(), Parse(PlainGet(), FRESH).1);
  }

  // A complete request without a body is forwarded.
  lemma BodilessIsForwarded(cfg: Config, s: string)
    requires var p := Parse(s, FRESH); p.0.Ok? && p.1.contentLength == 0 && p.1.headerBytes <= |s| <= SIZE_MAX
    ensures Judge(cfg, s).Forwards? && NoOverflow(cfg, s)
  {
    hide Parse, Build, Error400, Error413, Error501, Substr;
  }

  // A limit of 20 bytes and reads of 16: the cut decides about a plain GET.
  lemma PlainGetDependsOnTheCut(client: Desc)
    ensures !AllCutsAgree(Config(20, 0, 16, false, false, 0, false), client, PlainGet())
  {
    var cfg := Config(20, 0, 16, false, false, 0, false);
    hide AllCutsAgree, Find, Parse, Error400, PlainGet, Judge, NoOverflow;
    PlainGetParses();
    BodilessIsForwarded(cfg, PlainGet());
    assert !CutProof(cfg, PlainGet());
    VerdictIgnoresTheCutIff(cfg, client, PlainGet());
  }

  // A POST that announces the largest length there is, with one byte of body.
  function HugeHeaders(): (hs: seq<Header>) { [Header("Content-Length", Decimal(SIZE_MAX))] }

  function HugePost(): (s: string) { PostText(HugeHeaders(), "x") }

  function Pow10(k: nat): (n: nat) { if k == 0 then 1 else 10 * Pow10(k - 1) }

  lemma {:induction false} DecimalLength(n: nat, k: nat)
    requires 0 < k && n < Pow10(k)
    ensures |Decimal(n)| <= k
  {
    if n >= 10 { DecimalLength(n / 10, k - 1); }
  }

  lemma HugeIsShort()
    ensures 1 <= |Decimal(SIZE_MAX)| <= 20
  {
    assert Pow10(5) == 100000;
    assert Pow10(10) == 10000000000;
    assert Pow10(15) == 1000000000000000;
    assert Pow10(20) == 100000000000000000000;
    DecimalLength(SIZE_MAX, 20);
  }

  // Its header fields, read back.
  lemma HugeFraming(o: Request)
    requires o.headers == HugeHeaders()
    ensures ParseFraming(o) == (Ok, o.(contentLength := SIZE_MAX))
  {
    hide Decimal, At;
    var d := Decimal(SIZE_MAX);
    assert HeaderValue(o.headers, "Content-Length") == d;
    assert Lower("Content-Length")[0] == 'c' && Lower("Transfer-Encoding")[0] == 't';
    assert o.headers[1..] == [];
    assert HeaderValue(o.headers, "Transfer-Encoding") == "";
    FramingIsRead(o);
    assert Lower("") == "";
  }

  lemma HugeLength()
    ensures |HugePost()| == 46 + |Decimal(SIZE_MAX)|
  {
    hide Decimal;
    var line, hs := StartLine("POST", HOST, "HTTP/1.1"), HugeHeaders();
    assert line == "POST http://h/ HTTP/1.1";
    JoinCons(line, HeaderLines(hs));
    assert HeaderLines(hs) == [HeaderLine(hs[0])] + [];
    JoinCons(HeaderLine(hs[0]), []);
    JoinNil();
    hide Join;
  }

  lemma HugeIsSendable()
    ensures forall i :: 0 <= i < |HugeHeaders()| ==> Sendable(HugeHeaders()[i])
    ensures ReadBackAll(HugeHeaders()) == HugeHeaders()
  {
    hide Decimal, Sendable;
    DigitsAreSendable("Content-Length", Decimal(SIZE_MAX));
    DigitsTrim(Decimal(SIZE_MAX));
    hide Trim;
  }

  lemma HugePostParses()
    ensures var s := HugePost(); var p := Parse(s, FRESH);
            && 40 < |s| <= 66 && Find(s, BLANK_LINE) + 4 == |s| - 1
            && p.0.Ok? && p.1.contentLength == SIZE_MAX && p.1.headerBytes == |s| - 1
  {
    HugeLength();
    HugeIsShort();
    HugeIsSendable();
    hide Parse, Sendable, Decimal, Find, HugeHeaders, ReadBackAll, ParseFraming, PostText, CleanTarget, CleanHeaders;
    PostReadsBack(HugeHeaders(), "x");
    HugeFraming(PostWith(HugeHeaders(), |HugePost()| - 1));
    AcceptedIsClean(HugePost(), Parse(HugePost(), FRESH).1);
  }

  // Its sum wraps around, so it is not cut-proof.
  lemma HugeIsNotProof(cfg: Config)
    requires cfg.maxHeaderBytes == 1000 && cfg.maxBodyBytes == SIZE_MAX && Chunk(cfg) == 2
    ensures !CutProof(cfg, HugePost()) && |HugePost()| <= SIZE_MAX
  {
    HugePostParses();
    hide Find, Parse, Error400, HugePost, Build;
    var s := HugePost();
    assert !NoOverflow(cfg, s);
    WrappedJudge(cfg, s, |s|);
    assert s[..|s|] == s;
    hide Judge, NoOverflow;
  }

  // With no limit on the body to speak of and reads of two bytes, the cut decides what is forwarded.
  lemma HugePostDependsOnTheCut(client: Desc)
    ensures !AllCutsAgree(Config(1000, SIZE_MAX, 2, false, false, 0, false), client, HugePost())
  {
    hide AllCutsAgree, CutProof, HugePost, NoOverflow;
    var cfg := Config(1000, SIZE_MAX, 2, false, false, 0, false);
    HugeIsNotProof(cfg);
    VerdictIgnoresTheCutIff(cfg, client, HugePost());
  }
}
