// Whole runs of a connection told from the answers alone: what was read, which call chose a local
// response and why, how a run ends, and that a run without blocked calls does end.
module ConnAnswers {
  import opened Text
  import opened Http
  import opened Basics
  import opened RequestProofs
  import opened ConnMachine
  import opened ConnInv
  import opened ConnRuns
  import opened Cuts
  import opened CallSpec

  // The connection before call number i.
  function Before(cfg: Config, client: Desc, answers: seq<Answer>, i: nat): (c: Conn)
    requires i <= |answers|
  {
    Run(cfg, Init(client), answers[..i])
  }

  lemma {:induction false} FairPrefix(cfg: Config, c: Conn, answers: seq<Answer>, i: nat)
    requires FairRun(cfg, c, answers) && i <= |answers|
    ensures FairRun(cfg, c, answers[..i])
  {
    hide Run, Fair;
    if i == |answers| {
      assert answers[..i] == answers;
    } else {
      FairPrefix(cfg, c, answers[..|answers| - 1], i);
      assert answers[..|answers| - 1][..i] == answers[..i];
    }
  }

  // Where call number i stands in a fair run.
  lemma CallAt(cfg: Config, client: Desc, answers: seq<Answer>, i: nat)
    requires FairRun(cfg, Init(client), answers) && i < |answers|
    ensures var c := Before(cfg, client, answers, i);
            && Inv(cfg, c) && c.state != Done && Fair(cfg, c, answers[i])
            && Before(cfg, client, answers, i + 1) == Step(cfg, c, answers[i])
  {
    hide Step, Inv, Fair, Init;
    FairPrefix(cfg, Init(client), answers, i + 1);
    var upTo := answers[..i + 1];
    assert upTo[..|upTo| - 1] == answers[..i] && upTo[|upTo| - 1] == answers[i];
    RunInv(cfg, client, answers[..i]);
  }

  // Every call of every run does what its answers say.
  lemma EveryCallDoes(cfg: Config, client: Desc, answers: seq<Answer>, i: nat)
    requires FairRun(cfg, Init(client), answers) && i < |answers|
    ensures Does(cfg, Before(cfg, client, answers, i), answers[i], Before(cfg, client, answers, i + 1))
  {
    hide Step, Inv, Fair, Does, Before, FairRun, Init;
    CallAt(cfg, client, answers, i);
    StepDoes(cfg, Before(cfg, client, answers, i), answers[i]);
  }

  // ---- what was read --------------------------------------------------------------------------

  // The bytes the answers brought from one side.
  function Brought(cfg: Config, c: Conn, answers: seq<Answer>, w: Want): (s: string) {
    if answers == [] then ""
    else
      var before, a := answers[..|answers| - 1], answers[|answers| - 1];
      Brought(cfg, c, before, w) + if Run(cfg, c, before).want == w && a.read.ReadOk? then a.read.bytes else ""
  }

  lemma WantOf(cfg: Config, c: Conn)
    requires Inv(cfg, c)
    ensures c.want == ReadClient <==> c.state == ReadingRequest
    ensures c.want == ReadUpstream ==> c.state == Relaying
    ensures c.state == Relaying ==> c.want in {ReadUpstream, WriteClient}
    ensures c.state == Failing ==> c.want == WriteClient
  {
    hide Common, Asked, Tapped, Confirmed, SentPrefix, GaveUpHonestly, HitHonestly, Tied, Silent, Unconnected, Waiting;
  }

  lemma OneMoreRead(cfg: Config, c: Conn, a: Answer, d: Conn)
    requires Inv(cfg, c) && c.state != Done && Does(cfg, c, a, d)
    ensures d.log.fromClient == c.log.fromClient + (if c.want == ReadClient && a.read.ReadOk? then a.read.bytes else "")
    ensures d.log.fromUpstream == c.log.fromUpstream + (if c.want == ReadUpstream && a.read.ReadOk? then a.read.bytes else "")
  {
    hide Inv, ConnectsTo, Resolves, Bad502, VerdictOn, Hit, Owed;
    WantOf(cfg, c);
  }

  lemma {:induction false} LogsAreTheReads(cfg: Config, client: Desc, answers: seq<Answer>)
    requires FairRun(cfg, Init(client), answers)
    ensures var c := Run(cfg, Init(client), answers);
            && c.log.fromClient == Brought(cfg, Init(client), answers, ReadClient)
            && c.log.fromUpstream == Brought(cfg, Init(client), answers, ReadUpstream)
  {
    hide Step, Inv, Fair, Does;
    if answers != [] {
      var before, a := answers[..|answers| - 1], answers[|answers| - 1];
      var c := Run(cfg, Init(client), before);
      LogsAreTheReads(cfg, client, before);
      RunInv(cfg, client, before);
      StepDoes(cfg, c, a);
      OneMoreRead(cfg, c, a, Step(cfg, c, a));
    }
  }

  // ---- which call chose the local response, and why -------------------------------------------

  // No address, or no candidate left that does not refuse, or the origin takes no more bytes.
  ghost predicate NoOrigin(cfg: Config, c: Conn, a: Answer) {
    match c.state
    case ReadingRequest =>
      a.read.ReadOk? &&
      var v := VerdictOn(cfg, c.log.fromClient + a.read.bytes);
      v.Forwards? && !Hit(cfg, v.req, a) &&
      (match a.lookup
       case LookupHit(eps) => AllRefused(a.connects, |eps|)
       case LookupPending(_) => !cfg.asyncResolve
       case LookupFailed => true)
    case Resolving => a.job.JobFailed? || (a.job.JobOk? && AllRefused(a.connects, |a.job.eps|))
    case Connecting => !a.soOk && AllRefused(a.connects, |c.endpoints| - c.endpointIdx)
    case SendingUpstream => a.write.WriteError?
    case _ => false
  }

  ghost predicate FromCache(cfg: Config, c: Conn, a: Answer) {
    c.state == ReadingRequest && a.read.ReadOk? &&
    var v := VerdictOn(cfg, c.log.fromClient + a.read.bytes);
    v.Forwards? && Hit(cfg, v.req, a)
  }

  // The local response this call chooses, if it chooses one.
  ghost function Choice(cfg: Config, c: Conn, a: Answer): (r: Option<string>) {
    if NoOrigin(cfg, c, a) then Some(Error502())
    else if c.state == ReadingRequest && a.read.ReadOk? then
      match VerdictOn(cfg, c.log.fromClient + a.read.bytes)
      case Undecided => None
      case Rejected(r) => Some(r)
      case Forwards(req, _) => if Hit(cfg, req, a) then a.cached else None
    else None
  }

  lemma ConnectsChoice(d: Conn, eps: seq<Endpoint>, from: nat, connects: seq<ConnectAnswer>)
    requires ConnectsTo(d, eps, from, connects)
    ensures d.log.local == if AllRefused(connects, |eps| - from) then Some(Error502()) else None
    ensures AllRefused(connects, |eps| - from) ==> !d.log.hit
  {
    hide AllRefused, Error502, Refused;
  }

  lemma ResolvesChoice(cfg: Config, d: Conn, a: Answer)
    requires Resolves(cfg, d, a)
    ensures d.log.local == match a.lookup
                           case LookupHit(eps) => (if AllRefused(a.connects, |eps|) then Some(Error502()) else None)
                           case LookupPending(_) => (if cfg.asyncResolve then None else Some(Error502()))
                           case LookupFailed => Some(Error502())
  {
    hide AllRefused, Error502, ConnectsTo;
    if a.lookup.LookupHit? { ConnectsChoice(d, a.lookup.eps, 0, a.connects); }
  }

  lemma BytesChoice(cfg: Config, c: Conn, a: Answer, d: Conn)
    requires c.state == ReadingRequest && c.log.local.None? && ReadsClient(cfg, c, a, d)
    ensures d.log.local == Choice(cfg, c, a)
    ensures d.log.local.Some? ==> d.log.hit == FromCache(cfg, c, a)
  {
    hide AllRefused, Error502, Resolves, VerdictOn, Hit, MovesNothing;
    if a.read.ReadOk? {
      var v := VerdictOn(cfg, c.log.fromClient + a.read.bytes);
      if v.Forwards? && !Hit(cfg, v.req, a) { ResolvesChoice(cfg, d, a); }
    }
  }

  // A call changes the local response exactly by its choice.
  lemma CallChooses(cfg: Config, c: Conn, a: Answer, d: Conn)
    requires Does(cfg, c, a, d) && c.state !in {Failing, Done} && c.log.local.None? && !c.log.hit
    ensures d.log.local == Choice(cfg, c, a)
    ensures d.log.local.Some? ==> d.log.hit == FromCache(cfg, c, a)
  {
    hide AllRefused, Error502, ConnectsTo, ReadsClient, VerdictOn, Hit, MovesNothing, SameRequest, Owed;
    match c.state
    case ReadingRequest => BytesChoice(cfg, c, a, d);
    case Resolving => if a.job.JobOk? { ConnectsChoice(d, a.job.eps, 0, a.connects); }
    case Connecting => if !a.soOk { ConnectsChoice(d, c.endpoints, c.endpointIdx, a.connects); }
    case _ =>
  }

  // Before the choice nothing is Failing.
  lemma NotYet(cfg: Config, c: Conn)
    requires Inv(cfg, c) && c.state != Done
    ensures c.log.local.None? <==> c.state != Failing
    ensures c.log.local.None? ==> !c.log.hit
  {
    hide Common, Asked, Tapped, Confirmed, SentPrefix, GaveUpHonestly, Tied, Unconnected, Waiting;
  }

  lemma ChoiceStays(cfg: Config, c: Conn, a: Answer)
    requires Inv(cfg, c) && c.state != Done && c.log.local.Some?
    ensures Step(cfg, c, a).log.local == c.log.local && Step(cfg, c, a).log.hit == c.log.hit
  {
    LocalMeansFailing(cfg, c);
    hide Inv, DoReadClient, DoWriteClient, DoReadUpstream, DoWriteUpstream, FinishResolve, FinishConnect;
    RelayLocal(cfg, c, a);
  }

  lemma {:induction false} ChosenStays(cfg: Config, client: Desc, answers: seq<Answer>, n: nat)
    requires FairRun(cfg, Init(client), answers) && n <= |answers| && Before(cfg, client, answers, n).log.local.Some?
    ensures var c, early := Run(cfg, Init(client), answers), Before(cfg, client, answers, n);
            c.log.local == early.log.local && c.log.hit == early.log.hit
  {
    hide Step, Inv, Fair, Init;
    if n == |answers| {
      assert answers[..n] == answers;
    } else {
      var before := answers[..|answers| - 1];
      assert before[..n] == answers[..n];
      ChosenStays(cfg, client, before, n);
      RunInv(cfg, client, before);
      ChoiceStays(cfg, Run(cfg, Init(client), before), answers[|answers| - 1]);
    }
  }

  // Call number i of the run chooses the local response.
  ghost predicate ChoosesAt(cfg: Config, client: Desc, answers: seq<Answer>, i: nat)
    requires i < |answers|
  {
    Choice(cfg, Before(cfg, client, answers, i), answers[i]).Some?
  }

  lemma CallAtChooses(cfg: Config, client: Desc, answers: seq<Answer>, i: nat)
    requires FairRun(cfg, Init(client), answers) && i < |answers|
    ensures var c, d := Before(cfg, client, answers, i), Before(cfg, client, answers, i + 1);
            && (ChoosesAt(cfg, client, answers, i) ==> c.log.local.None?)
            && (c.log.local.None? ==> d.log.local == Choice(cfg, c, answers[i])
                                      && (d.log.local.Some? ==> d.log.hit == FromCache(cfg, c, answers[i])))
  {
    hide Step, Inv, Fair, Does, Before, FairRun, FromCache, VerdictOn, Hit;
    var c := Before(cfg, client, answers, i);
    CallAt(cfg, client, answers, i);
    StepDoes(cfg, c, answers[i]);
    NotYet(cfg, c);
    if c.log.local.None? {
      hide Choice;
      CallChooses(cfg, c, answers[i], Step(cfg, c, answers[i]));
    }
  }

  // What the call numbered i chose is what the client gets, and a response was chosen by some call.
  lemma ChosenByCall(cfg: Config, client: Desc, answers: seq<Answer>, i: nat)
    requires FairRun(cfg, Init(client), answers) && i < |answers| && ChoosesAt(cfg, client, answers, i)
    ensures var c, b := Run(cfg, Init(client), answers), Before(cfg, client, answers, i);
            c.log.local == Choice(cfg, b, answers[i]) && c.log.hit == FromCache(cfg, b, answers[i])
  {
    hide Run, Before, FairRun, Choice, FromCache;
    CallAtChooses(cfg, client, answers, i);
    ChosenStays(cfg, client, answers, i + 1);
  }

  lemma {:induction false} SomeCallChose(cfg: Config, client: Desc, answers: seq<Answer>) returns (i: nat)
    requires FairRun(cfg, Init(client), answers) && Run(cfg, Init(client), answers).log.local.Some?
    ensures i < |answers| && ChoosesAt(cfg, client, answers, i)
  {
    hide Step, Fair, Choice;
    assert answers != [];
    i := |answers| - 1;
    CallAtChooses(cfg, client, answers, i);
    assert answers[..i + 1] == answers;
    if Before(cfg, client, answers, i).log.local.Some? {
      i := SomeCallChose(cfg, client, answers[..i]);
      assert answers[..|answers| - 1][..i] == answers[..i];
    }
  }

  // A client gets a local response exactly when a call chose one.
  lemma LocalIff(cfg: Config, client: Desc, answers: seq<Answer>)
    requires FairRun(cfg, Init(client), answers)
    ensures Run(cfg, Init(client), answers).log.local.Some? <==> exists i: nat :: i < |answers| && ChoosesAt(cfg, client, answers, i)
  {
    hide Run, FairRun, ChoosesAt, Choice;
    if Run(cfg, Init(client), answers).log.local.Some? { var i := SomeCallChose(cfg, client, answers); }
    forall i: nat | i < |answers| && ChoosesAt(cfg, client, answers, i)
      ensures Run(cfg, Init(client), answers).log.local.Some?
    {
      ChosenByCall(cfg, client, answers, i);
      ChoiceSome(cfg, client, answers, i);
    }
  }

  lemma ChoiceSome(cfg: Config, client: Desc, answers: seq<Answer>, i: nat)
    requires i < |answers| && ChoosesAt(cfg, client, answers, i)
    ensures Choice(cfg, Before(cfg, client, answers, i), answers[i]).Some?
  {
  }

  // ---- the error texts ------------------------------------------------------------------------

  // An error page: status line, three fields, an empty line and the status again.
  function Page(status: string, len: string): (s: string) {
    "HTTP/1.1 " + status + CRLF +
    ("Content-Type: text/plain" + CRLF + ("Content-Length: " + len + CRLF + ("Connection: close" + CRLF))) + CRLF + (status + "\n")
  }

  lemma FourLines(a: string, b: string, c: string, d: string)
    ensures Join([a] + [b, c, d]) == a + CRLF + (b + CRLF + (c + CRLF + (d + CRLF)))
  {
    assert ([a] + [b, c, d])[1..] == [b, c, d];
    ThreeLines(b, c, d);
  }

  lemma ThreeLines(b: string, c: string, d: string)
    ensures Join([b, c, d]) == b + CRLF + (c + CRLF + (d + CRLF))
  {
    assert Join([d]) == Line(d) + Join([]) == d + CRLF;
    assert [b, c, d][1..] == [c, d] && [c, d][1..] == [d] && [d][1..] == [];
  }

  lemma FieldTexts(n: string)
    ensures HeaderLine(Header("Content-Type", "text/plain")) == "Content-Type: text/plain"
    ensures HeaderLine(Header("Content-Length", n)) == "Content-Length: " + n
    ensures HeaderLine(Header("Connection", "close")) == "Connection: close"
  {
    assert "Content-Length" + ": " == "Content-Length: ";
  }

  lemma ErrorText(code: nat, reason: string)
    ensures var status := Decimal(code) + " " + reason; ErrorResponse(code, reason) == Page(status, Decimal(|status| + 1))
  {
    var status := Decimal(code) + " " + reason;
    var n := Decimal(|status + "\n"|);
    var hs := [Header("Content-Type", "text/plain"), Header("Content-Length", n), Header("Connection", "close")];
    FieldTexts(n);
    assert HeaderLines(hs) == [HeaderLine(hs[0]), HeaderLine(hs[1]), HeaderLine(hs[2])];
    hide Join, HeaderLines, Decimal, HeaderLine;
    assert "HTTP/1.1 " + Decimal(code) + " " + reason == "HTTP/1.1 " + status;
    FourLines("HTTP/1.1 " + status, "Content-Type: text/plain", "Content-Length: " + n, "Connection: close");
  }

  function Digit(d: nat): (c: char) requires d < 10 { ('0' as int + d) as char }

  lemma DecimalEnds(n: nat)
    ensures Decimal(n) == (if n < 10 then [] else Decimal(n / 10)) + [Digit(n % 10)]
  {
    hide ToNat, AllDigits;
  }

  lemma TwoDigits(a: nat, b: nat)
    requires 0 < a < 10 && b < 10
    ensures Decimal(10 * a + b) == [Digit(a), Digit(b)]
  {
    hide Decimal, Digit, ToNat, AllDigits;
    var n := 10 * a + b;
    assert n / 10 == a && n % 10 == b && a % 10 == a;
    DecimalEnds(a);
    DecimalEnds(n);
  }

  lemma Numeral(a: nat, b: nat, c: nat)
    requires 0 < a < 10 && b < 10 && c < 10
    ensures Decimal(10 * a + b) == [Digit(a), Digit(b)]
    ensures Decimal(100 * a + 10 * b + c) == [Digit(a), Digit(b), Digit(c)]
  {
    hide Decimal, Digit, ToNat, AllDigits;
    TwoDigits(a, b);
    var n := 100 * a + 10 * b + c;
    assert n / 10 == 10 * a + b && n % 10 == c;
    DecimalEnds(n);
  }

  lemma BadRequestText()
    ensures Error400() == Page("400 Bad Request", "16")
  {
    hide Page, Decimal, ErrorResponse, ToNat, AllDigits;
    ErrorText(400, "Bad Request");
    Numeral(4, 0, 0);
    Numeral(1, 6, 0);
    assert "400" + " " + "Bad Request" == "400 Bad Request";
  }

  lemma TooLargeText()
    ensures Error413() == Page("413 Payload Too Large", "22")
  {
    hide Page, Decimal, ErrorResponse, ToNat, AllDigits;
    ErrorText(413, "Payload Too Large");
    Numeral(4, 1, 3);
    Numeral(2, 2, 0);
    assert "413" + " " + "Payload Too Large" == "413 Payload Too Large";
  }

  lemma NotImplementedText()
    ensures Error501() == Page("501 Not Implemented", "20")
  {
    hide Page, Decimal, ErrorResponse, ToNat, AllDigits;
    ErrorText(501, "Not Implemented");
    Numeral(5, 0, 1);
    Numeral(2, 0, 0);
    assert "501" + " " + "Not Implemented" == "501 Not Implemented";
  }

  lemma BadGatewayText()
    ensures Error502() == Page("502 Bad Gateway", "16")
  {
    hide Page, Decimal, ErrorResponse, ToNat, AllDigits;
    ErrorText(502, "Bad Gateway");
    Numeral(5, 0, 2);
    Numeral(1, 6, 0);
    assert "502" + " " + "Bad Gateway" == "502 Bad Gateway";
  }

  lemma PageStatus(status: string, len: string)
    requires |status| >= 3
    ensures |Page(status, len)| >= 12 && Page(status, len)[9..12] == status[..3]
  {
  }

  lemma ErrorsDiffer()
    ensures Error502() !in {Error400(), Error413(), Error501()}
  {
    hide Page, Error400, Error413, Error501, Error502;
    BadRequestText();
    TooLargeText();
    NotImplementedText();
    BadGatewayText();
    PageStatus("400 Bad Request", "16");
    PageStatus("413 Payload Too Large", "22");
    PageStatus("501 Not Implemented", "20");
    PageStatus("502 Bad Gateway", "16");
    assert "502 Bad Gateway"[..3][0] == '5' && "400 Bad Request"[..3][0] == '4' && "413 Payload Too Large"[..3][0] == '4';
    assert "502 Bad Gateway"[..3][2] == '2' && "501 Not Implemented"[..3][2] == '1';
  }

  lemma RejectionTexts(cfg: Config, s: string)
    ensures VerdictOn(cfg, s) != Rejected(Error502())
  {
    hide Error400, Error413, Error501, Error502, Parse, Build, OverLimit;
    ErrorsDiffer();
  }

  // A 502 of the proxy's own means that some call had no origin to go to, and conversely.
  lemma BadGatewayIff(cfg: Config, client: Desc, answers: seq<Answer>)
    requires FairRun(cfg, Init(client), answers)
    ensures var c := Run(cfg, Init(client), answers);
            c.log.local == Some(Error502()) && !c.log.hit <==>
            exists i: nat :: i < |answers| && NoOrigin(cfg, Before(cfg, client, answers, i), answers[i])
  {
    hide Run, FairRun, Error502, Init, Before, VerdictOn, Hit;
    var c := Run(cfg, Init(client), answers);
    if c.log.local == Some(Error502()) && !c.log.hit {
      var i := SomeCallChose(cfg, client, answers);
      ChosenByCall(cfg, client, answers, i);
      var b := Before(cfg, client, answers, i);
      if b.state == ReadingRequest && answers[i].read.ReadOk? { RejectionTexts(cfg, b.log.fromClient + answers[i].read.bytes); }
      hide NoOrigin;
    }
    forall i: nat | i < |answers| && NoOrigin(cfg, Before(cfg, client, answers, i), answers[i])
      ensures c.log.local == Some(Error502()) && !c.log.hit
    {
      ChosenByCall(cfg, client, answers, i);
    }
  }

  // ---- how a run ends -------------------------------------------------------------------------

  // The peer the call talks to is gone.
  predicate Breaks(c: Conn, a: Answer) {
    match c.state
    case ReadingRequest => a.read.ReadError? || a.read.ReadClosed?
    case Relaying => if c.want == ReadUpstream then a.read.ReadError? else a.write.WriteError?
    case Failing => a.write.WriteError?
    case _ => false
  }

  lemma NoEndWhileConnecting(cfg: Config, d: Conn, eps: seq<Endpoint>, from: nat, connects: seq<ConnectAnswer>)
    ensures ConnectsTo(d, eps, from, connects) ==> d.state != Done
    ensures Bad502(d) ==> d.state != Done
  {
    hide AllRefused, Refused, Error502;
  }

  lemma NoEndWhileReading(cfg: Config, c: Conn, a: Answer, d: Conn)
    requires c.state == ReadingRequest && ReadsClient(cfg, c, a, d) && c.state != Done
    ensures d.state == Done ==> Breaks(c, a) && d.log == c.log
  {
    hide ConnectsTo, Bad502, VerdictOn, Hit, MovesNothing;
    NoEndWhileConnecting(cfg, d, if a.lookup.LookupHit? then a.lookup.eps else [], 0, a.connects);
  }

  // What the last call of a finished run did.
  lemma LastCall(cfg: Config, c: Conn, a: Answer, d: Conn)
    requires Does(cfg, c, a, d) && c.state != Done && d.state == Done
    ensures c.state in {ReadingRequest, Relaying, Failing}
    ensures Breaks(c, a) ==> d.log == c.log
    ensures !Breaks(c, a) && c.state == Failing ==> c.log.local.Some? ==> d.log == c.log.(toClient := Owed(c.log))
    ensures !Breaks(c, a) && c.state == Relaying && c.log.local.None? ==> c.want == ReadUpstream && d.log == c.log.(eof := true)
    ensures c.state == ReadingRequest ==> Breaks(c, a)
  {
    hide ConnectsTo, Bad502, ReadsClient, Owed;
    NoEndWhileConnecting(cfg, d, if a.job.JobOk? then a.job.eps else c.endpoints, if a.job.JobOk? then 0 else c.endpointIdx, a.connects);
    NoEndWhileConnecting(cfg, d, c.endpoints, c.endpointIdx, a.connects);
    if c.state == ReadingRequest { NoEndWhileReading(cfg, c, a, d); }
    if c.state == Failing && a.write.WriteOk? {
      assert Owed(c.log)[..|Owed(c.log)|] == Owed(c.log);
    }
  }

  lemma LastFacts(cfg: Config, c: Conn)
    requires Inv(cfg, c) && c.state in {ReadingRequest, Relaying, Failing}
    ensures !c.log.eof
    ensures c.state == ReadingRequest ==> c.log.local.None?
    ensures c.state == Failing ==> c.log.local.Some? && c.log.toClient < c.log.local.value
    ensures c.state == Relaying ==> c.log.local.None? && c.log.request == Some(c.log.toUpstream)
    ensures c.state == Relaying && c.want == ReadUpstream ==> c.log.toClient == c.log.fromUpstream
  {
    hide Common, Tapped, Confirmed, SentPrefix, GaveUpHonestly, HitHonestly, Tied, Waiting, Unconnected, Keyed, Accepted, Needed, Build, Substr;
  }

  // The rebuilt request is the verdict on all the client's bytes.
  lemma RequestIsVerdict(cfg: Config, c: Conn)
    requires Inv(cfg, c) && c.log.request.Some?
    ensures VerdictOn(cfg, c.log.fromClient) == Forwards(c.req, c.log.request.value)
  {
    RequestIsWhole(cfg, c);
    WholeIsVerdict(cfg, c);
    hide Inv, Whole, VerdictOn;
  }

  lemma RequestIsWhole(cfg: Config, c: Conn)
    requires Inv(cfg, c) && c.log.request.Some?
    ensures Whole(cfg, c) && c.inClient == c.log.fromClient
  {
    hide Whole, Tapped, Confirmed, SentPrefix, GaveUpHonestly, HitHonestly, Keyed, Waiting, Unconnected, Silent;
  }

  lemma WholeIsVerdict(cfg: Config, c: Conn)
    requires Whole(cfg, c)
    ensures VerdictOn(cfg, c.inClient) == Forwards(c.req, c.log.request.value)
  {
    hide Parse, Build, Substr, Needed, Error400, Error413, Error501, Find;
    ParseIncomplete(c.inClient);
  }

  // The three ends of a run: a peer went away before the whole answer was out; or the client has all
  // of a local response; or the verdict on the client's bytes was to forward, exactly that request
  // reached the origin, and exactly the bytes read from the origin reached the client.
  lemma HowRunsEnd(cfg: Config, client: Desc, answers: seq<Answer>)
    requires FairRun(cfg, Init(client), answers) && Run(cfg, Init(client), answers).state == Done
    ensures answers != []
    ensures var c := Run(cfg, Init(client), answers);
            if Breaks(Before(cfg, client, answers, |answers| - 1), answers[|answers| - 1]) then
              !c.log.eof && (c.log.local.Some? ==> c.log.toClient < c.log.local.value)
            else if c.log.local.Some? then c.log.toClient == c.log.local.value
            else
              && VerdictOn(cfg, Brought(cfg, Init(client), answers, ReadClient)) == Forwards(c.req, c.log.toUpstream)
              && c.log.toClient == Brought(cfg, Init(client), answers, ReadUpstream) && c.log.eof
  {
    hide Inv, Fair, Step, Does, VerdictOn, Breaks, Brought;
    assert answers != [];
    var n := |answers| - 1;
    var b, c := Before(cfg, client, answers, n), Run(cfg, Init(client), answers);
    assert answers[..n + 1] == answers;
    CallAt(cfg, client, answers, n);
    EveryCallDoes(cfg, client, answers, n);
    LogsAreTheReads(cfg, client, answers);
    RunInv(cfg, client, answers);
    hide Run, Before, FairRun, Init;
    LastCall(cfg, b, answers[n], c);
    LastFacts(cfg, b);
    if c.log.request.Some? { RequestIsVerdict(cfg, c); }
  }

  // ---- runs without blocked calls -------------------------------------------------------------

  // The call finds nothing to do.
  predicate Blocked(c: Conn, a: Answer) {
    match c.state
    case ReadingRequest => a.read.ReadBlocked?
    case Resolving => a.job.JobNotReady?
    case Connecting => false
    case SendingUpstream => a.write.WriteBlocked?
    case Relaying => if c.want == ReadUpstream then a.read.ReadBlocked? else a.write.WriteBlocked?
    case Failing => a.write.WriteBlocked?
    case Done => true
  }

  lemma ConnectsElsewhere(c: Conn, d: Conn, eps: seq<Endpoint>, from: nat, connects: seq<ConnectAnswer>)
    requires ConnectsTo(d, eps, from, connects)
    ensures d.state == Failing || d.state == SendingUpstream || (d.state == Connecting && d.endpointIdx > from)
  {
    hide AllRefused, Refused, Error502;
  }

  lemma WriteMoves(cfg: Config, c: Conn, a: Answer)
    requires Inv(cfg, c) && c.state in {SendingUpstream, Relaying, Failing} && c.want != ReadUpstream && Fair(cfg, c, a)
    ensures a.write.WriteOk? ==> a.write.n > 0
  {
    hide Common, Asked, Tapped, Confirmed, SentPrefix, GaveUpHonestly, HitHonestly, Tied, Silent;
  }

  // A call leaves the connection as it was exactly when it found nothing to do.
  lemma IdleIff(cfg: Config, c: Conn, a: Answer, d: Conn)
    requires Inv(cfg, c) && c.state != Done && Fair(cfg, c, a) && Does(cfg, c, a, d)
    ensures d == c <==> Blocked(c, a)
  {
    hide Inv, ConnectsTo, AfterBytes, MovesNothing, SameRequest, Owed;
    WantOf(cfg, c);
    if c.state in {SendingUpstream, Relaying, Failing} && c.want != ReadUpstream { WriteMoves(cfg, c, a); }
    if c.state == Resolving && a.job.JobOk? { ConnectsElsewhere(c, d, a.job.eps, 0, a.connects); }
    if c.state == Connecting && !a.soOk { ConnectsElsewhere(c, d, c.endpoints, c.endpointIdx, a.connects); }
    if c.state == ReadingRequest && a.read.ReadOk? { assert AfterBytes(cfg, d, c.log.fromClient + a.read.bytes, a); BytesGrow(cfg, c, a, d); }
  }

  lemma BytesGrow(cfg: Config, c: Conn, a: Answer, d: Conn)
    requires a.read.ReadOk? && FairRead(cfg, a.read) && AfterBytes(cfg, d, c.log.fromClient + a.read.bytes, a)
    ensures |d.log.fromClient| > |c.log.fromClient|
  {
    hide VerdictOn, Resolves, Hit;
  }

  ghost predicate NeverBlocked(cfg: Config, client: Desc, answers: seq<Answer>) {
    forall i: nat :: i < |answers| ==> !Blocked(Before(cfg, client, answers, i), answers[i])
  }

  lemma {:induction false} UnblockedIsProductive(cfg: Config, client: Desc, answers: seq<Answer>)
    requires FairRun(cfg, Init(client), answers) && NeverBlocked(cfg, client, answers)
    ensures Productive(cfg, Init(client), answers) == |answers|
  {
    hide Inv, Fair, Step, Does, Blocked, Init;
    if answers != [] {
      var n := |answers| - 1;
      forall i: nat | i < n ensures !Blocked(Before(cfg, client, answers[..n], i), answers[..n][i]) {
        assert answers[..n][..i] == answers[..i];
        assert !Blocked(Before(cfg, client, answers, i), answers[i]);
      }
      UnblockedIsProductive(cfg, client, answers[..n]);
      CallAt(cfg, client, answers, n);
      EveryCallDoes(cfg, client, answers, n);
      assert answers[..n + 1] == answers;
      IdleIff(cfg, Before(cfg, client, answers, n), answers[n], Run(cfg, Init(client), answers));
    }
  }

  // A run in which no call blocks is over within a number of calls known from the sizes of what
  // passes through.
  lemma UnblockedRunsFinish(cfg: Config, client: Desc, answers: seq<Answer>, streamLen: nat, localLen: nat, requestLen: nat, candidates: nat)
    requires FairRun(cfg, Init(client), answers) && NeverBlocked(cfg, client, answers)
    requires var l := Run(cfg, Init(client), answers).log;
             && |l.fromUpstream| <= streamLen && (l.local.Some? ==> |l.local.value| <= localLen)
             && (l.request.Some? ==> |l.request.value| <= requestLen)
             && |Run(cfg, Init(client), answers).endpoints| <= candidates
    ensures var bound := 6 + InputBound(cfg) + candidates + requestLen + streamLen + Max(streamLen, localLen);
            && |answers| <= bound
            && (|answers| == bound ==> Run(cfg, Init(client), answers).state == Done)
  {
    hide Run, FairRun, NeverBlocked, Productive, InputBound, Init;
    UnblockedIsProductive(cfg, client, answers);
    StepsAreBounded(cfg, client, answers, streamLen, localLen, requestLen, candidates);
  }
}
