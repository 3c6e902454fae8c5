// Request reading does not depend on how the network cuts the client's bytes into reads, except for
// header blocks around the size limit; here it is settled exactly which cuts matter.
module Cuts {
  import opened Text
  import opened Http
  import opened Basics
  import opened RequestProofs
  import opened ConnMachine

  datatype Verdict = Undecided | Rejected(response: string) | Forwards(req: Request, upstream: string)

  function VerdictOf(s: Stage): (v: Verdict) {
    match s
    case Complete(c) => Forwards(c.req, c.outUpstream)
    case Returns(c) => if c.state == ReadingRequest then Undecided else Rejected(c.outClient)
  }

  // The client's bytes handed over read by read, until the request is decided.
  function Feed(cfg: Config, c: Conn, cuts: seq<string>): (s: Stage) {
    if cuts == [] then Returns(c)
    else
      var s := Feed(cfg, c, cuts[..|cuts| - 1]);
      if VerdictOf(s).Undecided? then Receive(cfg, s.c, cuts[|cuts| - 1]) else s
  }

  function Concat(cuts: seq<string>): (s: string) {
    if cuts == [] then "" else Concat(cuts[..|cuts| - 1]) + cuts[|cuts| - 1]
  }

  // The verdict on a byte stream looked at in one piece, with no limit on the header block.
  function Judge(cfg: Config, s: string): (v: Verdict) {
    var p := Parse(s, FRESH);
    match p.0
    case Incomplete => Undecided
    case BadRequest => Rejected(Error400())
    case NotImplemented => Rejected(Error501())
    case Ok =>
      if p.1.contentLength > cfg.maxBodyBytes then Rejected(Error413())
      else if |s| < Needed(p.1) then Undecided
      else Forwards(p.1, Build(p.1, Substr(s, p.1.headerBytes, p.1.contentLength)))
  }

  // A read ended past the header limit with the header block still open.
  predicate OverLimit(cfg: Config, s: string) {
    |s| > cfg.maxHeaderBytes && Find(s, BLANK_LINE) < 0
  }

  ghost predicate SomeReadOverLimit(cfg: Config, cuts: seq<string>) {
    exists i :: 0 <= i <= |cuts| && OverLimit(cfg, Concat(cuts[..i]))
  }

  // header_bytes + content_length fits a size_t, unless the length is refused anyway.
  ghost predicate NoOverflow(cfg: Config, s: string) {
    var p := Parse(s, FRESH);
    p.0.Ok? && p.1.contentLength <= cfg.maxBodyBytes ==> p.1.headerBytes + p.1.contentLength <= SIZE_MAX
  }

  // ---- one read -------------------------------------------------------------------------------

  // c is still reading and has seen exactly s.
  ghost predicate HasRead(cfg: Config, c: Conn, s: string) {
    && c.state == ReadingRequest && c.inClient == s
    && if c.parsed then Accepted(s, c.req) && c.req.contentLength <= cfg.maxBodyBytes && |s| < Needed(c.req)
       else c.req == FRESH && Find(s, BLANK_LINE) < 0
  }

  lemma BodyVerdict(c: Conn)
    requires c.state == ReadingRequest
    ensures VerdictOf(BodyStage(c)) ==
            if |c.inClient| < Needed(c.req) then Undecided
            else Forwards(c.req, Build(c.req, Substr(c.inClient, c.req.headerBytes, c.req.contentLength)))
    ensures VerdictOf(BodyStage(c)).Undecided? ==> BodyStage(c).c == c
  {
    hide Build, Substr, Needed;
  }

  lemma FailVerdict(c: Conn, response: string)
    ensures VerdictOf(Returns(FailWith(c, response))) == Rejected(response)
  {
  }

  lemma HeaderVerdict(cfg: Config, c: Conn)
    requires c.state == ReadingRequest && !c.parsed && c.req == FRESH
    ensures VerdictOf(HeaderStage(cfg, c)) ==
            if OverLimit(cfg, c.inClient) then Rejected(Error400()) else Judge(cfg, c.inClient)
    ensures VerdictOf(HeaderStage(cfg, c)).Undecided? ==> HasRead(cfg, HeaderStage(cfg, c).c, c.inClient)
  {
    hide Parse, BodyStage, FailWith, VerdictOf, Error400, Error413, Error501, Find, Needed, Build, Substr;
    var p := Parse(c.inClient, FRESH);
    var c' := c.(req := p.1);
    ParseIncomplete(c.inClient);
    FailVerdict(c', Error400());
    FailVerdict(c', Error413());
    FailVerdict(c', Error501());
    BodyVerdict(c'.(parsed := true));
    StillReading(c');
    assert p.0.Incomplete? ==> c' == c;
  }

  lemma StillReading(c: Conn)
    ensures c.state == ReadingRequest ==> VerdictOf(Returns(c)).Undecided?
  {
  }

  // One more read: the verdict on everything seen so far, unless this read ended over the limit.
  lemma ReadVerdict(cfg: Config, c: Conn, s: string, bytes: string)
    requires HasRead(cfg, c, s)
    ensures VerdictOf(Receive(cfg, c, bytes)) ==
            if OverLimit(cfg, s + bytes) then Rejected(Error400()) else Judge(cfg, s + bytes)
    ensures VerdictOf(Receive(cfg, c, bytes)).Undecided? ==> HasRead(cfg, Receive(cfg, c, bytes).c, s + bytes)
  {
    hide HeaderStage, Parse, VerdictOf, Error400, Error413, Error501, Find, Needed, Build, Substr, Judge;
    var d := c.(inClient := c.inClient + bytes, log := c.log.(fromClient := c.log.fromClient + bytes));
    if c.parsed {
      AcceptedGrows(s, bytes, c.req);
      ParsedVerdict(cfg, d);
    } else {
      HeaderVerdict(cfg, d);
    }
  }

  lemma ParsedVerdict(cfg: Config, d: Conn)
    requires d.state == ReadingRequest && d.parsed && Accepted(d.inClient, d.req) && d.req.contentLength <= cfg.maxBodyBytes
    ensures !OverLimit(cfg, d.inClient)
    ensures VerdictOf(HeaderStage(cfg, d)) == Judge(cfg, d.inClient)
    ensures VerdictOf(HeaderStage(cfg, d)).Undecided? ==> HasRead(cfg, HeaderStage(cfg, d).c, d.inClient)
  {
    hide Parse, BodyStage, VerdictOf, Find, Needed, Build, Substr;
    ParseIncomplete(d.inClient);
    BodyVerdict(d);
  }

  // ---- more bytes do not change a verdict -----------------------------------------------------

  lemma SubstrOfPrefix(s: string, t: string, pos: nat, n: nat)
    requires pos + n <= |s|
    ensures Substr(s + t, pos, n) == Substr(s, pos, n)
  {
    if n > 0 && pos < |s| { assert (s + t)[pos..pos + n] == s[pos..pos + n]; }
  }

  lemma VerdictIsFinal(cfg: Config, s: string, t: string)
    requires !Judge(cfg, s).Undecided? && NoOverflow(cfg, s)
    ensures Judge(cfg, s + t) == Judge(cfg, s) && NoOverflow(cfg, s + t)
  {
    hide Parse, Build, Substr, Error400, Error413, Error501, Find;
    ParseIncomplete(s);
    assert (s + t)[..|s|] == s;
    FindGrows(s, t);
    ParseIsLocal(s + t, FRESH, |s|);
    var p := Parse(s, FRESH);
    if p.0.Ok? && p.1.contentLength <= cfg.maxBodyBytes {
      SubstrOfPrefix(s, t, p.1.headerBytes, p.1.contentLength);
    }
  }

  lemma FindGrows(s: string, t: string)
    ensures Find(s, BLANK_LINE) >= 0 ==> Find(s + t, BLANK_LINE) == Find(s, BLANK_LINE) && Find(s, BLANK_LINE) + 4 <= |s|
  {
    assert (s + t)[..|s|] == s;
    FindInPrefix(s + t, BLANK_LINE, 0, |s|);
  }

  // ---- all reads ------------------------------------------------------------------------------

  // Whatever the cut: 400 if some read ended past the limit inside the header block, and otherwise
  // the verdict on the whole stream.
  lemma {:induction false} CutVerdict(cfg: Config, client: Desc, cuts: seq<string>)
    requires NoOverflow(cfg, Concat(cuts))
    ensures VerdictOf(Feed(cfg, Init(client), cuts)) ==
            if SomeReadOverLimit(cfg, cuts) then Rejected(Error400()) else Judge(cfg, Concat(cuts))
    ensures VerdictOf(Feed(cfg, Init(client), cuts)).Undecided? ==> HasRead(cfg, Feed(cfg, Init(client), cuts).c, Concat(cuts))
  {
    hide Receive, VerdictOf, Judge, NoOverflow, OverLimit, HasRead, Error400, Init;
    if cuts == [] {
      NothingRead(cfg, client);
      assert Concat(cuts[..0]) == "";
    } else {
      var before, last := cuts[..|cuts| - 1], cuts[|cuts| - 1];
      EarlierNoOverflow(cfg, Concat(before), last);
      CutVerdict(cfg, client, before);
      var s := Feed(cfg, Init(client), before);
      LimitStep(cfg, cuts);
      if VerdictOf(s).Undecided? {
        ReadVerdict(cfg, s.c, Concat(before), last);
        assert !SomeReadOverLimit(cfg, before) by { RejectedIsDecided(); }
      } else {
        DecidedStays(cfg, before, last);
      }
    }
  }

  lemma RejectedIsDecided()
    ensures Rejected(Error400()) != Undecided
  {
  }

  lemma NothingRead(cfg: Config, client: Desc)
    ensures VerdictOf(Returns(Init(client))) == Undecided && Judge(cfg, "") == Undecided && !OverLimit(cfg, "")
    ensures HasRead(cfg, Init(client), "")
  {
    ParseIncomplete("");
  }

  lemma EarlierNoOverflow(cfg: Config, s: string, t: string)
    requires NoOverflow(cfg, s + t)
    ensures NoOverflow(cfg, s)
  {
    hide Parse, Find;
    ParseIncomplete(s);
    if Parse(s, FRESH).0.Ok? {
      FindGrows(s, t);
      assert (s + t)[..|s|] == s;
      ParseIsLocal(s + t, FRESH, |s|);
    }
  }

  // The reads over the limit of a longer list are those of the shorter one, and perhaps the last.
  lemma LimitStep(cfg: Config, cuts: seq<string>)
    requires cuts != []
    ensures SomeReadOverLimit(cfg, cuts) <==>
            SomeReadOverLimit(cfg, cuts[..|cuts| - 1]) || OverLimit(cfg, Concat(cuts))
  {
    hide OverLimit, Concat;
    var before := cuts[..|cuts| - 1];
    if SomeReadOverLimit(cfg, before) {
      var i :| 0 <= i <= |before| && OverLimit(cfg, Concat(before[..i]));
      assert before[..i] == cuts[..i];
    }
    if SomeReadOverLimit(cfg, cuts) {
      var i :| 0 <= i <= |cuts| && OverLimit(cfg, Concat(cuts[..i]));
      if i < |cuts| { assert before[..i] == cuts[..i]; } else { assert cuts[..i] == cuts; }
    }
    assert cuts[..|cuts|] == cuts;
  }

  // A decided prefix leaves nothing for the last read to change.
  lemma DecidedStays(cfg: Config, before: seq<string>, last: string)
    requires NoOverflow(cfg, Concat(before))
    requires SomeReadOverLimit(cfg, before) || !Judge(cfg, Concat(before)).Undecided?
    ensures !SomeReadOverLimit(cfg, before) ==>
            Judge(cfg, Concat(before) + last) == Judge(cfg, Concat(before)) && !OverLimit(cfg, Concat(before) + last)
  {
    hide Judge, NoOverflow, Parse, Find;
    var s := Concat(before);
    if !SomeReadOverLimit(cfg, before) {
      VerdictIsFinal(cfg, s, last);
      DecidedIsClosed(cfg, s);
      FindGrows(s, last);
    }
  }

  lemma DecidedIsClosed(cfg: Config, s: string)
    requires !Judge(cfg, s).Undecided?
    ensures Find(s, BLANK_LINE) >= 0
  {
    hide Parse, Find, Build, Substr, Needed, Error400, Error413, Error501;
    ParseIncomplete(s);
  }

  // ---- consequences ---------------------------------------------------------------------------

  lemma {:induction false} PrefixOfConcat(cuts: seq<string>, i: nat)
    requires i <= |cuts|
    ensures Concat(cuts[..i]) <= Concat(cuts)
  {
    if i < |cuts| {
      var before := cuts[..|cuts| - 1];
      PrefixOfConcat(before, i);
      assert before[..i] == cuts[..i];
    } else {
      assert cuts[..i] == cuts;
    }
  }

  // With a header block that no read can leave open past the limit, any two cuts of one stream get
  // the same verdict, the same Request and the same upstream bytes.
  lemma CutsAgree(cfg: Config, client: Desc, a: seq<string>, b: seq<string>)
    requires Concat(a) == Concat(b) && NoOverflow(cfg, Concat(a))
    requires var end := Find(Concat(a), BLANK_LINE);
             if end < 0 then |Concat(a)| <= cfg.maxHeaderBytes else end + 4 <= cfg.maxHeaderBytes + 1
    ensures VerdictOf(Feed(cfg, Init(client), a)) == VerdictOf(Feed(cfg, Init(client), b)) == Judge(cfg, Concat(a))
  {
    hide Feed, VerdictOf, Judge, NoOverflow, Init, Find, Concat, Error400;
    CutVerdict(cfg, client, a);
    CutVerdict(cfg, client, b);
    ShortHeaderNeverOver(cfg, a);
    ShortHeaderNeverOver(cfg, b);
  }

  // Where in a stream its header block is still open.
  lemma OpenPrefix(s: string, n: nat)
    requires n <= |s|
    ensures Find(s, BLANK_LINE) < 0 || n < Find(s, BLANK_LINE) + 4 ==> Find(s[..n], BLANK_LINE) < 0
    ensures Find(s, BLANK_LINE) >= 0 && n >= Find(s, BLANK_LINE) + 4 ==> Find(s[..n], BLANK_LINE) == Find(s, BLANK_LINE)
    ensures Find(s, BLANK_LINE) >= 0 ==> Find(s, BLANK_LINE) + 4 <= |s|
  {
    FindInPrefix(s, BLANK_LINE, 0, n);
    FoundFits(s[..n]);
    FoundFits(s);
    hide FindFrom;
  }

  lemma FoundFits(s: string)
    ensures Find(s, BLANK_LINE) >= 0 ==> Find(s, BLANK_LINE) + 4 <= |s|
  {
  }

  lemma ShortHeaderNeverOver(cfg: Config, cuts: seq<string>)
    requires var end := Find(Concat(cuts), BLANK_LINE);
             if end < 0 then |Concat(cuts)| <= cfg.maxHeaderBytes else end + 4 <= cfg.maxHeaderBytes + 1
    ensures !SomeReadOverLimit(cfg, cuts)
  {
    hide Concat, Find;
    forall i | 0 <= i <= |cuts| ensures !OverLimit(cfg, Concat(cuts[..i])) {
      PrefixOfConcat(cuts, i);
      var s, t := Concat(cuts[..i]), Concat(cuts);
      assert t[..|s|] == s;
      OpenPrefix(t, |s|);
    }
  }

  // A decision stays.
  lemma {:induction false} FeedStays(cfg: Config, c: Conn, cuts: seq<string>, k: nat)
    requires k <= |cuts| && !VerdictOf(Feed(cfg, c, cuts[..k])).Undecided?
    ensures Feed(cfg, c, cuts) == Feed(cfg, c, cuts[..k])
  {
    hide Receive, VerdictOf;
    if k < |cuts| {
      var before := cuts[..|cuts| - 1];
      assert before[..k] == cuts[..k];
      FeedStays(cfg, c, before, k);
    } else {
      assert cuts[..k] == cuts;
    }
  }

  // A read that ends past the limit inside the block settles it, whatever follows.
  lemma RejectedBy(cfg: Config, client: Desc, cuts: seq<string>, k: nat)
    requires k <= |cuts| && OverLimit(cfg, Concat(cuts[..k]))
    ensures VerdictOf(Feed(cfg, Init(client), cuts)) == Rejected(Error400())
  {
    hide Feed, VerdictOf, Judge, Init, Find, Concat, Error400, Parse;
    var first := cuts[..k];
    ParseIncomplete(Concat(first));
    CutVerdict(cfg, client, first);
    assert first[..k] == first;
    FeedStays(cfg, Init(client), cuts, k);
  }

  // The read that closes the block settles it, if it settles anything.
  lemma DecidedBy(cfg: Config, client: Desc, cuts: seq<string>, k: nat)
    requires 0 < k <= |cuts| && !SomeReadOverLimit(cfg, cuts[..k - 1])
    requires Find(Concat(cuts[..k - 1]), BLANK_LINE) < 0 <= Find(Concat(cuts[..k]), BLANK_LINE)
    requires !Judge(cfg, Concat(cuts[..k])).Undecided?
    ensures VerdictOf(Feed(cfg, Init(client), cuts)) == Judge(cfg, Concat(cuts[..k]))
  {
    hide VerdictOf, Init, Find, Error400, Parse, Receive, SomeReadOverLimit, HasRead;
    var before, first := cuts[..k - 1], cuts[..k];
    assert first[..k - 1] == before && first[k - 1] == cuts[k - 1];
    ParseIncomplete(Concat(before));
    CutVerdict(cfg, client, before);
    var s := Feed(cfg, Init(client), before);
    ReadVerdict(cfg, s.c, Concat(before), cuts[k - 1]);
    assert Concat(first) == Concat(before) + cuts[k - 1];
    hide Judge;
    FeedStays(cfg, Init(client), cuts, k);
  }

  // A header block longer than the limit plus one read is rejected under every cut, once more bytes
  // than the limit have arrived.
  lemma LongHeaderIsRejected(cfg: Config, client: Desc, cuts: seq<string>)
    requires |Concat(cuts)| > cfg.maxHeaderBytes
    requires forall i :: 0 <= i < |cuts| ==> |cuts[i]| <= Chunk(cfg)
    requires var end := Find(Concat(cuts), BLANK_LINE); end < 0 || end + 4 > cfg.maxHeaderBytes + Chunk(cfg)
    ensures VerdictOf(Feed(cfg, Init(client), cuts)) == Rejected(Error400())
  {
    hide Feed, VerdictOf, Init, Find, Error400, OverLimit, Concat;
    FirstReadPastLimit(cfg, cuts, cuts);
    var k :| 0 <= k <= |cuts| && OverLimit(cfg, Concat(cuts[..k]));
    RejectedBy(cfg, client, cuts, k);
  }

  lemma {:induction false} FirstReadPastLimit(cfg: Config, cuts: seq<string>, all: seq<string>)
    requires cuts <= all && |Concat(cuts)| > cfg.maxHeaderBytes
    requires forall i :: 0 <= i < |all| ==> |all[i]| <= Chunk(cfg)
    requires var end := Find(Concat(all), BLANK_LINE); end < 0 || end + 4 > cfg.maxHeaderBytes + Chunk(cfg)
    ensures SomeReadOverLimit(cfg, all)
  {
    hide Find;
    var before := cuts[..|cuts| - 1];
    if |Concat(before)| > cfg.maxHeaderBytes {
      FirstReadPastLimit(cfg, before, all);
    } else {
      assert all[..|cuts|] == cuts && all[|cuts| - 1] == cuts[|cuts| - 1];
      PrefixOfConcat(all, |cuts|);
      var s, t := Concat(cuts), Concat(all);
      assert t[..|s|] == s;
      OpenPrefix(t, |s|);
      assert OverLimit(cfg, Concat(all[..|cuts|]));
    }
  }
}
