// What one call of on_ready() must come to, told from the bytes that passed and the answers of that
// call: the verdict on the client's bytes, the lookup's answer, the first candidate that does not
// refuse, how many bytes a write took.  And that every call does exactly that.
module CallSpec {
  import opened Text
  import opened Http
  import opened Basics
  import opened RequestProofs
  import opened ConnMachine
  import opened ConnInv
  import opened ConnRuns
  import opened Cuts

  // ---- the specification ----------------------------------------------------------------------

  // The k-th start_connect of the call fails at once.
  predicate Refused(connects: seq<ConnectAnswer>, k: nat) { k >= |connects| || connects[k].ConnectFailed? }

  ghost predicate AllRefused(connects: seq<ConnectAnswer>, n: int) { forall k :: 0 <= k < n ==> Refused(connects, k) }

  ghost predicate Bad502(d: Conn) {
    d.state == Failing && d.log.local == Some(Error502()) && !d.log.hit
  }

  // Candidate `k` from `from` on is the first that does not refuse.
  ghost predicate TakesUp(d: Conn, eps: seq<Endpoint>, from: nat, connects: seq<ConnectAnswer>, k: nat) {
    && from + k < |eps| && AllRefused(connects, k) && !Refused(connects, k)
    && d.log.tried == eps[..from + k + 1] && d.log.failed == eps[..from + k] && d.endpointIdx == from + k + 1
    && d.upstream == Some(connects[k].fd) && d.want == WriteUpstream && d.log.local.None?
    && (if connects[k].Connected? then d.state == SendingUpstream && connects[k].fd in d.log.confirmed
        else d.state == Connecting && d.log.confirmed == {})
  }

  // The list `eps` is tried from `from` on, in order.
  ghost predicate ConnectsTo(d: Conn, eps: seq<Endpoint>, from: nat, connects: seq<ConnectAnswer>) {
    && d.endpoints == eps && d.log.resolved
    && (if AllRefused(connects, |eps| - from) then Bad502(d) && d.log.tried == eps && d.log.failed == eps
        else exists k: nat :: TakesUp(d, eps, from, connects, k))
  }

  ghost predicate Resolves(cfg: Config, d: Conn, a: Answer) {
    match a.lookup
    case LookupHit(eps) => ConnectsTo(d, eps, 0, a.connects)
    case LookupPending(fd) =>
      if cfg.asyncResolve then d.state == Resolving && d.job == Some(fd) && d.want == ReadResolver && d.log.local.None?
      else Bad502(d)
    case LookupFailed => Bad502(d)
  }

  // What the client's bytes so far amount to.
  function VerdictOn(cfg: Config, s: string): (v: Verdict) {
    if OverLimit(cfg, s) then Rejected(Error400()) else Judge(cfg, s)
  }

  // The cache is asked about this request and has an answer.
  predicate Hit(cfg: Config, req: Request, a: Answer) {
    cfg.hasCache && CacheableRequest(cfg, req) && a.cached.Some?
  }

  ghost predicate AfterBytes(cfg: Config, d: Conn, s: string, a: Answer) {
    && d.log.fromClient == s
    && match VerdictOn(cfg, s)
       case Undecided => d.state == ReadingRequest && d.log.local.None? && d.log.request.None?
       case Rejected(r) => d.state == Failing && d.log.local == Some(r) && d.log.request.None? && !d.log.hit
       case Forwards(req, text) =>
         && d.req == req && d.log.request == Some(text)
         && (if Hit(cfg, req, a) then d.state == Failing && d.log.local == a.cached && d.log.hit
             else Resolves(cfg, d, a) && !d.log.hit)
  }

  // Connecting leaves the request alone.
  ghost predicate SameRequest(c: Conn, d: Conn) {
    d.req == c.req && d.log.request == c.log.request && d.log.fromClient == c.log.fromClient && d.log.hit == c.log.hit
  }

  // The connection ends with nothing more said.
  ghost predicate Ends(d: Conn, l: Log) { d.state == Done && d.log == l }

  // No byte was moved.
  ghost predicate MovesNothing(c: Conn, d: Conn) {
    && d.log.fromClient == c.log.fromClient && d.log.toUpstream == c.log.toUpstream
    && d.log.fromUpstream == c.log.fromUpstream && d.log.toClient == c.log.toClient
  }

  ghost predicate ReadsClient(cfg: Config, c: Conn, a: Answer, d: Conn) {
    match a.read
    case ReadBlocked => d == c
    case ReadError => Ends(d, c.log)
    case ReadClosed => Ends(d, c.log)
    case ReadOk(bytes) =>
      AfterBytes(cfg, d, c.log.fromClient + bytes, a) && MovesNothing(c, d.(log := d.log.(fromClient := c.log.fromClient)))
  }

  ghost predicate LearnsAddresses(c: Conn, a: Answer, d: Conn) {
    match a.job
    case JobNotReady => d == c
    case JobOk(eps) => ConnectsTo(d, eps, 0, a.connects) && SameRequest(c, d) && MovesNothing(c, d)
    case JobFailed => Bad502(d) && SameRequest(c, d) && MovesNothing(c, d)
  }

  ghost predicate ConnectCompletes(c: Conn, a: Answer, d: Conn) {
    if a.soOk then
      && c.upstream.Some? && d.log == c.log.(confirmed := {c.upstream.value}) && d.upstream == c.upstream
      && d.state == SendingUpstream && d.want == WriteUpstream && d.endpoints == c.endpoints
    else ConnectsTo(d, c.endpoints, c.endpointIdx, a.connects) && SameRequest(c, d) && MovesNothing(c, d)
  }

  // The request goes out in order, and its last byte ends the sending.
  ghost predicate Sends(c: Conn, a: Answer, d: Conn) {
    match a.write
    case WriteBlocked => d == c
    case WriteError => Bad502(d) && SameRequest(c, d) && MovesNothing(c, d)
    case WriteOk(n) =>
      c.log.request.Some? && c.upstream.Some? &&
      var text, gone := c.log.request.value, |c.log.toUpstream| + n;
      && gone <= |text| && d.log == c.log.(toUpstream := text[..gone], written := c.log.written + {c.upstream.value})
      && d.state == if gone < |text| then SendingUpstream else Relaying
  }

  ghost predicate ReadsOrigin(c: Conn, a: Answer, d: Conn) {
    match a.read
    case ReadBlocked => d == c
    case ReadError => Ends(d, c.log)
    case ReadClosed => Ends(d, c.log.(eof := true))
    case ReadOk(bytes) =>
      d.log == c.log.(fromUpstream := c.log.fromUpstream + bytes) && d.state == Relaying && d.want == WriteClient
  }

  ghost predicate WritesClient(c: Conn, a: Answer, d: Conn) {
    match a.write
    case WriteBlocked => d == c
    case WriteError => Ends(d, c.log)
    case WriteOk(n) =>
      var gone := |c.log.toClient| + n;
      && gone <= |Owed(c.log)| && d.log == c.log.(toClient := Owed(c.log)[..gone])
      && (if gone < |Owed(c.log)| then d.state == c.state && d.want == WriteClient
          else if c.log.local.Some? then d.state == Done
          else d.state == Relaying && d.want == ReadUpstream)
  }

  // One on_ready() of c, answered by a, that leaves d.
  ghost predicate Does(cfg: Config, c: Conn, a: Answer, d: Conn) {
    match c.state
    case ReadingRequest => ReadsClient(cfg, c, a, d)
    case Resolving => LearnsAddresses(c, a, d)
    case Connecting => ConnectCompletes(c, a, d)
    case SendingUpstream => Sends(c, a, d)
    case Relaying => if c.want == ReadUpstream then ReadsOrigin(c, a, d) else WritesClient(c, a, d)
    case Failing => WritesClient(c, a, d)
    case Done => true
  }

  // ---- connecting -----------------------------------------------------------------------------

  // From c, the k-th next candidate was taken up with answer `ans`, and those before it failed.
  ghost predicate Taken(c: Conn, d: Conn, ans: ConnectAnswer, k: nat) {
    var i := c.endpointIdx;
    && i + k < |c.endpoints| && !ans.ConnectFailed?
    && d.endpoints == c.endpoints && d.endpointIdx == i + k + 1
    && d.log == c.log.(tried := c.log.tried + c.endpoints[i..i + k + 1], failed := c.log.failed + c.endpoints[i..i + k],
                       confirmed := if ans.Connected? then c.log.confirmed + {ans.fd} else c.log.confirmed)
    && d.upstream == Some(ans.fd) && d.want == WriteUpstream && d.req == c.req && d.inClient == c.inClient
    && d.state == if ans.Connected? then SendingUpstream else Connecting
  }

  lemma TakenNow(c: Conn, connects: seq<ConnectAnswer>)
    requires c.endpointIdx < |c.endpoints| && !Refused(connects, 0)
    ensures Taken(c, BeginConnect(c, connects), connects[0], 0)
  {
    var i := c.endpointIdx;
    assert c.endpoints[i..i + 1] == [c.endpoints[i]] && c.endpoints[i..i] == [];
    assert c.log.failed + [] == c.log.failed;
  }

  lemma TakenLater(c: Conn, d: Conn, ans: ConnectAnswer, k: nat)
    requires c.endpointIdx < |c.endpoints| && Taken(FailedAttempt(c), d, ans, k)
    ensures Taken(c, d, ans, k + 1)
  {
    var i, eps, f := c.endpointIdx, c.endpoints, FailedAttempt(c);
    assert f.log == c.log.(tried := c.log.tried + [eps[i]], failed := c.log.failed + [eps[i]]);
    Grow(c.log.tried, eps, i, i + k + 2);
    Grow(c.log.failed, eps, i, i + k + 1);
    hide FailedAttempt;
  }

  lemma Grow(s: seq<Endpoint>, eps: seq<Endpoint>, i: nat, j: nat)
    requires i < j <= |eps|
    ensures s + [eps[i]] + eps[i + 1..j] == s + eps[i..j]
  {
  }

  lemma {:induction false} FirstCandidate(c: Conn, connects: seq<ConnectAnswer>, k: nat)
    requires c.endpointIdx + k < |c.endpoints| && AllRefused(connects, k) && !Refused(connects, k)
    ensures Taken(c, BeginConnect(c, connects), connects[k], k)
    decreases k
  {
    if k == 0 {
      TakenNow(c, connects);
    } else {
      RefusedFirst(c, connects, k);
      LaterRefused(connects, k);
      hide Taken, BeginConnect, AllRefused, Refused, FailedAttempt, LaterAnswers;
      FirstCandidate(FailedAttempt(c), LaterAnswers(connects), k - 1);
      TakenLater(c, BeginConnect(c, connects), connects[k], k - 1);
    }
  }

  lemma RefusedFirst(c: Conn, connects: seq<ConnectAnswer>, n: nat)
    requires c.endpointIdx < |c.endpoints| && n > 0 && AllRefused(connects, n)
    ensures BeginConnect(c, connects) == BeginConnect(FailedAttempt(c), LaterAnswers(connects))
    ensures FailedAttempt(c).endpointIdx == c.endpointIdx + 1 && FailedAttempt(c).endpoints == c.endpoints
  {
    assert Refused(connects, 0);
    hide Attempt;
  }

  // From c, every candidate left was tried and failed, and the answer is 502.
  ghost predicate GivesUp(c: Conn, d: Conn)
    requires c.endpointIdx <= |c.endpoints|
  {
    var left := c.endpoints[c.endpointIdx..];
    && d.state == Failing && d.want == WriteClient && d.endpoints == c.endpoints
    && d.log == c.log.(tried := c.log.tried + left, failed := c.log.failed + left, local := Some(Error502()))
    && d.req == c.req && d.inClient == c.inClient
  }

  lemma NoneLeft(c: Conn, connects: seq<ConnectAnswer>)
    requires c.endpointIdx == |c.endpoints|
    ensures GivesUp(c, BeginConnect(c, connects))
  {
    hide Error502;
    assert c.endpoints[c.endpointIdx..] == [] && c.log.tried + [] == c.log.tried && c.log.failed + [] == c.log.failed;
  }

  lemma GivesUpLater(c: Conn, d: Conn)
    requires c.endpointIdx < |c.endpoints| && GivesUp(FailedAttempt(c), d)
    ensures GivesUp(c, d)
  {
    hide Error502;
    var i, eps, f := c.endpointIdx, c.endpoints, FailedAttempt(c);
    assert f.log == c.log.(tried := c.log.tried + [eps[i]], failed := c.log.failed + [eps[i]]) && f.req == c.req && f.inClient == c.inClient;
    hide FailedAttempt;
    Grow(c.log.tried, eps, i, |eps|);
    Grow(c.log.failed, eps, i, |eps|);
    assert eps[i..|eps|] == eps[i..] && eps[i + 1..|eps|] == eps[i + 1..];
  }

  // Everything left refuses.
  lemma {:induction false} NoCandidate(c: Conn, connects: seq<ConnectAnswer>)
    requires c.endpointIdx <= |c.endpoints| && AllRefused(connects, |c.endpoints| - c.endpointIdx)
    ensures GivesUp(c, BeginConnect(c, connects))
    decreases |c.endpoints| - c.endpointIdx
  {
    hide GivesUp, BeginConnect, AllRefused, FailedAttempt, LaterAnswers;
    var left := |c.endpoints| - c.endpointIdx;
    if left == 0 {
      NoneLeft(c, connects);
    } else {
      RefusedFirst(c, connects, left);
      LaterRefused(connects, left);
      NoCandidate(FailedAttempt(c), LaterAnswers(connects));
      GivesUpLater(c, BeginConnect(c, connects));
    }
  }

  // All candidates before c.endpointIdx have failed, and nothing else has happened.
  ghost predicate AtCandidate(c: Conn) {
    && c.endpointIdx <= |c.endpoints| && c.log.resolved && c.log.local.None? && !c.log.hit && c.log.confirmed == {}
    && c.log.tried == c.log.failed == c.endpoints[..c.endpointIdx]
  }

  lemma TakenIsUp(c: Conn, d: Conn, connects: seq<ConnectAnswer>, k: nat)
    requires AtCandidate(c) && AllRefused(connects, k) && !Refused(connects, k) && Taken(c, d, connects[k], k)
    ensures TakesUp(d, c.endpoints, c.endpointIdx, connects, k) && d.endpoints == c.endpoints && d.log.resolved && SameRequest(c, d)
  {
    hide AllRefused;
    var i, eps := c.endpointIdx, c.endpoints;
    assert eps[..i] + eps[i..i + k + 1] == eps[..i + k + 1];
    assert eps[..i] + eps[i..i + k] == eps[..i + k];
  }

  lemma RefusedIs502(c: Conn, connects: seq<ConnectAnswer>)
    requires AtCandidate(c) && AllRefused(connects, |c.endpoints| - c.endpointIdx)
    ensures var d := BeginConnect(c, connects);
            && Bad502(d) && d.log.tried == c.endpoints && d.log.failed == c.endpoints
            && d.endpoints == c.endpoints && d.log.resolved && SameRequest(c, d)
  {
    hide Error502, BeginConnect, AllRefused;
    NoCandidate(c, connects);
    assert c.endpoints[..c.endpointIdx] + c.endpoints[c.endpointIdx..] == c.endpoints;
  }

  // begin_connect from candidate c.endpointIdx on.
  lemma ConnectingIs(c: Conn, connects: seq<ConnectAnswer>)
    requires AtCandidate(c)
    ensures ConnectsTo(BeginConnect(c, connects), c.endpoints, c.endpointIdx, connects)
    ensures SameRequest(c, BeginConnect(c, connects))
  {
    hide BeginConnect, AllRefused, Refused, Bad502, Taken, TakesUp, SameRequest;
    var left := |c.endpoints| - c.endpointIdx;
    if AllRefused(connects, left) {
      RefusedIs502(c, connects);
    } else {
      var k := FirstNotRefused(connects, left);
      FirstCandidate(c, connects, k);
      TakenIsUp(c, BeginConnect(c, connects), connects, k);
    }
  }

  lemma {:induction false} FirstNotRefused(connects: seq<ConnectAnswer>, n: nat) returns (k: nat)
    requires !AllRefused(connects, n)
    ensures k < n && AllRefused(connects, k) && !Refused(connects, k)
  {
    if AllRefused(connects, n - 1) {
      k := n - 1;
    } else {
      k := FirstNotRefused(connects, n - 1);
    }
  }

  lemma LaterRefused(connects: seq<ConnectAnswer>, n: nat)
    requires n > 0 && AllRefused(connects, n)
    ensures AllRefused(LaterAnswers(connects), n - 1)
    ensures Refused(LaterAnswers(connects), n - 1) == Refused(connects, n)
    ensures !Refused(connects, n) ==> LaterAnswers(connects)[n - 1] == connects[n]
  {
    forall k | 0 <= k < n - 1 ensures Refused(LaterAnswers(connects), k) { assert Refused(connects, k + 1); }
  }

  // ---- reading the request --------------------------------------------------------------------

  lemma ResolvingIs(cfg: Config, c: Conn, a: Answer)
    requires Common(cfg, c) && Loaded(cfg, c) && Unconnected(c)
    ensures Resolves(cfg, BeginResolve(cfg, c, a), a) && SameRequest(c, BeginResolve(cfg, c, a))
  {
    hide Error502, Asked, ConnectsTo, BeginConnect, Common;
    match a.lookup
    case LookupHit(eps) =>
      var s := c.(endpoints := eps, endpointIdx := 0, log := c.log.(resolved := true));
      assert eps[..0] == [];
      ConnectingIs(s, a.connects);
    case _ =>
  }

  lemma DispatchIs(cfg: Config, c: Conn, a: Answer)
    requires Ready(cfg, c)
    ensures var d := Dispatch(cfg, c, a);
            && d.req == c.req && d.log.request == c.log.request && d.log.fromClient == c.log.fromClient
            && (if Hit(cfg, c.req, a) then d.state == Failing && d.log.local == a.cached && d.log.hit
                else Resolves(cfg, d, a) && !d.log.hit)
  {
    var k := if cfg.hasCache && CacheableRequest(cfg, c.req) then c.(cacheKey := CacheKey(c.req)) else c;
    assert Loaded(cfg, k) && Common(cfg, k) && Unconnected(k) && !k.log.hit by { hide Accepted, Build, CacheKey, CacheableRequest, Needed, Substr; }
    hide BeginResolve, Resolves, Common, Loaded, Unconnected, CacheableRequest, CacheKey, Ready;
    ResolvingIs(cfg, k, a);
  }

  lemma ReceivedBytes(cfg: Config, c: Conn, bytes: string)
    ensures Receive(cfg, c, bytes).c.log.fromClient == c.log.fromClient + bytes
  {
    hide Receive, KnownLocal;
    ReceiveOnlyRead(cfg, c, bytes);
  }

  // A rejected or undecided read.
  ghost predicate Stops(c: Conn) {
    && c.log.request.None? && !c.log.hit
    && (if c.state == ReadingRequest then c.log.local.None? else c.state == Failing && c.log.local == Some(c.outClient))
  }

  lemma FailStops(c: Conn, response: string)
    requires c.log.request.None? && !c.log.hit
    ensures Stops(FailWith(c, response))
  {
  }

  lemma HeaderStops(cfg: Config, c: Conn)
    requires c.state == ReadingRequest && c.log.local.None? && !c.log.hit && c.log.request.None?
    ensures HeaderStage(cfg, c).Returns? ==> Stops(HeaderStage(cfg, c).c)
  {
    hide Error400, Error413, Error501, Parse, BodyStage, FailWith;
    var c' := c.(req := Parse(c.inClient, c.req).1);
    FailStops(c', Error400());
    FailStops(c', Error413());
    FailStops(c', Error501());
    BodyReturns(c);
    BodyReturns(c'.(parsed := true));
  }

  lemma ReturnedIs(cfg: Config, c: Conn, bytes: string)
    requires c.state == ReadingRequest && Silent(c) && c.log.request.None?
    ensures Receive(cfg, c, bytes).Returns? ==> Stops(Receive(cfg, c, bytes).c)
  {
    hide HeaderStage, Stops;
    HeaderStops(cfg, c.(inClient := c.inClient + bytes, log := c.log.(fromClient := c.log.fromClient + bytes)));
  }

  lemma BodyReturns(c: Conn)
    ensures BodyStage(c).Returns? ==> BodyStage(c).c == c
  {
    hide Build, Substr, Needed;
  }

  lemma ReadingParts(cfg: Config, c: Conn)
    requires Inv(cfg, c) && c.state == ReadingRequest
    ensures c.want == ReadClient && HasRead(cfg, c, c.inClient) && c.inClient == c.log.fromClient
    ensures Silent(c) && c.log.request.None?
  {
    hide Accepted, Find, Needed;
  }

  lemma ReadyIs(cfg: Config, c: Conn)
    requires Ready(cfg, c)
    ensures c.log.request == Some(c.outUpstream)
  {
    hide Accepted, Needed, Build, Substr;
  }

  lemma BytesAre(cfg: Config, c: Conn, a: Answer)
    requires Inv(cfg, c) && c.state == ReadingRequest && FairRead(cfg, a.read) && a.read.ReadOk?
    ensures AfterBytes(cfg, DoReadClient(cfg, c, a), c.log.fromClient + a.read.bytes, a)
  {
    var s := Receive(cfg, c, a.read.bytes);
    ReadingParts(cfg, c);
    ReturnedIs(cfg, c, a.read.bytes);
    ReceiveInv(cfg, c, a.read.bytes);
    ReceivedBytes(cfg, c, a.read.bytes);
    hide Inv, Silent, HasRead, Ready, Receive, Judge, OverLimit, Error400, Resolves, Hit, Dispatch;
    ReadVerdict(cfg, c, c.inClient, a.read.bytes);
    if s.Complete? {
      ReadyIs(cfg, s.c);
      DispatchIs(cfg, s.c, a);
    }
  }

  lemma BytesMove(cfg: Config, c: Conn, a: Answer)
    requires a.read.ReadOk?
    ensures var d := DoReadClient(cfg, c, a); MovesNothing(c, d.(log := d.log.(fromClient := c.log.fromClient)))
  {
    hide Receive, Dispatch, KnownLocal;
    ReceiveOnlyRead(cfg, c, a.read.bytes);
    DispatchOnward(cfg, Receive(cfg, c, a.read.bytes).c, a);
  }

  lemma ReadsClientIs(cfg: Config, c: Conn, a: Answer)
    requires Inv(cfg, c) && c.state == ReadingRequest && Fair(cfg, c, a)
    ensures c.want == ReadClient && ReadsClient(cfg, c, a, DoReadClient(cfg, c, a))
  {
    ReadingParts(cfg, c);
    hide Inv, AfterBytes, HasRead, Silent, Receive, Dispatch, MovesNothing;
    if a.read.ReadOk? {
      BytesAre(cfg, c, a);
      BytesMove(cfg, c, a);
    }
  }

  // ---- the other calls ------------------------------------------------------------------------

  lemma ResolvingParts(cfg: Config, c: Conn)
    requires Inv(cfg, c) && c.state == Resolving
    ensures c.want == ReadResolver && Unconnected(c) && Silent(c)
  {
    hide Asked;
  }

  lemma AddressesAre(c: Conn, eps: seq<Endpoint>, connects: seq<ConnectAnswer>)
    requires Unconnected(c) && c.log.local.None? && !c.log.hit
    ensures var d := StartConnecting(c.(job := None), eps, connects);
            ConnectsTo(d, eps, 0, connects) && SameRequest(c, d) && MovesNothing(c, d)
  {
    hide BeginConnect, ConnectsTo, KnownLocal;
    var s := c.(job := None, endpoints := eps, endpointIdx := 0, log := c.log.(resolved := true));
    assert eps[..0] == [];
    ConnectingIs(s, connects);
    BeginConnectOnward(s, connects);
  }

  lemma LearnsAddressesIs(cfg: Config, c: Conn, a: Answer)
    requires Inv(cfg, c) && c.state == Resolving
    ensures c.want == ReadResolver && LearnsAddresses(c, a, FinishResolve(c, a))
  {
    ResolvingParts(cfg, c);
    hide Inv, StartConnecting, ConnectsTo, Error502;
    if a.job.JobOk? {
      AddressesAre(c, a.job.eps, a.connects);
      hide SameRequest, MovesNothing;
    }
  }

  lemma ConnectingParts(cfg: Config, c: Conn)
    requires Inv(cfg, c) && c.state == Connecting
    ensures c.want == WriteUpstream && c.upstream.Some? && c.log.confirmed == {} && 0 < c.endpointIdx <= |c.endpoints|
    ensures AtCandidate(c.(upstream := None, log := c.log.(failed := c.log.failed + LastTried(c))))
  {
    hide Asked;
    assert c.endpoints[..c.endpointIdx - 1] + [c.endpoints[c.endpointIdx - 1]] == c.endpoints[..c.endpointIdx];
  }

  lemma ConnectCompletesIs(cfg: Config, c: Conn, a: Answer)
    requires Inv(cfg, c) && c.state == Connecting
    ensures c.want == WriteUpstream && ConnectCompletes(c, a, FinishConnect(c, a))
  {
    ConnectingParts(cfg, c);
    hide Inv, BeginConnect, ConnectsTo, KnownLocal, LastTried, AtCandidate;
    var s := c.(upstream := None, log := c.log.(failed := c.log.failed + LastTried(c)));
    ConnectingIs(s, a.connects);
    BeginConnectOnward(s, a.connects);
    assert {} + DescSet(c.upstream) == {c.upstream.value};
  }

  lemma SentLog(c: Conn, n: nat)
    requires c.upstream.Some? && c.outUpstreamOff + n <= |c.outUpstream| && c.log.toUpstream == c.outUpstream[..c.outUpstreamOff]
    ensures |c.log.toUpstream| == c.outUpstreamOff && Sent(c, n).state == c.state
    ensures Sent(c, n).log == c.log.(toUpstream := c.outUpstream[..c.outUpstreamOff + n],
                                     written := c.log.written + {c.upstream.value})
  {
    SentOn(c, n);
    hide Substr;
  }

  lemma SendingFacts(cfg: Config, c: Conn)
    requires Inv(cfg, c) && c.state == SendingUpstream
    ensures c.want == WriteUpstream && c.upstream.Some? && c.log.request == Some(c.outUpstream) && !c.log.hit
    ensures c.outUpstreamOff < |c.outUpstream| && c.log.toUpstream == c.outUpstream[..c.outUpstreamOff]
  {
    hide Common, Accepted, Build, Needed, Substr, Keyed;
  }

  lemma SendsIs(cfg: Config, c: Conn, a: Answer)
    requires Inv(cfg, c) && c.state == SendingUpstream && Fair(cfg, c, a)
    ensures c.want == WriteUpstream && Sends(c, a, DoWriteUpstream(c, a))
  {
    hide Inv, Fair, DoWriteUpstream, Error502, Sent;
    SendingFacts(cfg, c);
    SendShape(c, a);
    if a.write.WriteOk? {
      SendingFair(cfg, c, a);
      SentLog(c, a.write.n);
    }
  }

  lemma ReadsOriginIs(cfg: Config, c: Conn, a: Answer)
    requires Inv(cfg, c) && c.want == ReadUpstream
    ensures c.state == Relaying && ReadsOrigin(c, a, DoReadUpstream(cfg, c, a))
  {
    hide Inv, Asked, Tapped, Common, Confirmed;
    ReadsUpstream(cfg, c);
    if a.read.ReadOk? { TapWork(cfg, c, a.read.bytes); }
    hide Tap;
  }

  // The buffer is what is still owed.
  lemma OwedSplit(cfg: Config, c: Conn)
    requires Inv(cfg, c) && c.want == WriteClient
    ensures c.state in {Relaying, Failing} && c.outClientOff <= |c.outClient| && (c.state == Failing) == c.log.local.Some?
    ensures c.log.toClient + c.outClient[c.outClientOff..] == Owed(c.log) && !(c.state == Relaying && c.upstreamEof)
  {
    hide Asked, Tapped, Confirmed, SentPrefix, GaveUpHonestly, HitHonestly, Tied;
  }

  lemma OwedPrefix(sent: string, buf: string, off: nat, n: nat, owed: string)
    requires off + n <= |buf| && sent + buf[off..] == owed
    ensures |sent| + n <= |owed| && sent + Substr(buf, off, n) == owed[..|sent| + n]
    ensures |sent| + n < |owed| <==> off + n < |buf|
  {
  }

  lemma WritesClientIs(cfg: Config, c: Conn, a: Answer)
    requires Inv(cfg, c) && c.want == WriteClient && Fair(cfg, c, a)
    ensures WritesClient(c, a, DoWriteClient(c, a))
  {
    hide Inv, Substr, Owed;
    OwedSplit(cfg, c);
    if a.write.WriteOk? {
      assert c.outClientOff + a.write.n <= |c.outClient|;
      hide Fair;
      OwedPrefix(c.log.toClient, c.outClient, c.outClientOff, a.write.n, Owed(c.log));
    }
  }

  // Every call does what its answers say.
  lemma StepDoes(cfg: Config, c: Conn, a: Answer)
    requires Inv(cfg, c) && c.state != Done && Fair(cfg, c, a)
    ensures Does(cfg, c, a, Step(cfg, c, a))
  {
    hide Inv, Fair, DoReadClient, FinishResolve, FinishConnect, DoWriteUpstream, DoReadUpstream, DoWriteClient,
      ReadsClient, LearnsAddresses, ConnectCompletes, Sends, ReadsOrigin, WritesClient;
    match c.state
    case ReadingRequest => ReadsClientIs(cfg, c, a);
    case Resolving => LearnsAddressesIs(cfg, c, a);
    case Connecting => ConnectCompletesIs(cfg, c, a);
    case SendingUpstream => SendsIs(cfg, c, a);
    case Relaying =>
      RelayingWants(cfg, c);
      if c.want == ReadUpstream { ReadsOriginIs(cfg, c, a); } else { WritesClientIs(cfg, c, a); }
    case Failing =>
      RelayingWants(cfg, c);
      WritesClientIs(cfg, c, a);
  }

  lemma RelayingWants(cfg: Config, c: Conn)
    requires Inv(cfg, c)
    ensures c.state == Relaying ==> c.want in {ReadUpstream, WriteClient}
    ensures c.state == Failing ==> c.want == WriteClient
  {
    hide Common, Asked, Tapped, Confirmed, SentPrefix, GaveUpHonestly, HitHonestly, Tied;
  }
}
