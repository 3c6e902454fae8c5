// Whole runs of one connection: any number of on_ready() calls, any answers the operating system can
// give, short reads and writes included.
module ConnRuns {
  import opened Text
  import opened Http
  import opened Basics
  import opened RequestProofs
  import opened ConnMachine
  import opened ConnInv

  function Run(cfg: Config, c: Conn, answers: seq<Answer>): (r: Conn) {
    if answers == [] then c
    else Step(cfg, Run(cfg, c, answers[..|answers| - 1]), answers[|answers| - 1])
  }

  // Every call comes before Done and gets an answer the operating system can give.
  ghost predicate FairRun(cfg: Config, c: Conn, answers: seq<Answer>) {
    answers == [] ||
    var before := answers[..|answers| - 1];
    var d := Run(cfg, c, before);
    FairRun(cfg, c, before) && d.state != Done && Fair(cfg, d, answers[|answers| - 1])
  }

  lemma {:induction false} RunInv(cfg: Config, client: Desc, answers: seq<Answer>)
    requires FairRun(cfg, Init(client), answers)
    ensures Inv(cfg, Run(cfg, Init(client), answers))
  {
    hide Step, Inv, Fair, Init;
    if answers == [] {
      InitInv(cfg, client);
    } else {
      var before := answers[..|answers| - 1];
      RunInv(cfg, client, before);
      StepInv(cfg, Run(cfg, Init(client), before), answers[|answers| - 1]);
    }
  }

  // ---- the client's byte stream ---------------------------------------------------------------

  // At every moment the bytes sent plus the bytes still buffered are either the origin's stream so
  // far or one local response, never a mix.  A clean end of stream means everything read has been
  // delivered, and no bytes are ever pending when the origin's end of stream is handled.
  lemma ClientStreamIsFaithful(cfg: Config, client: Desc, answers: seq<Answer>)
    requires FairRun(cfg, Init(client), answers)
    ensures var c := Run(cfg, Init(client), answers);
            && (c.log.local.Some? ==> c.log.fromUpstream == "")
            && (c.state != Done ==> c.outClientOff <= |c.outClient|
                                    && c.log.toClient + c.outClient[c.outClientOff..] == Owed(c.log))
            && (c.state == Done ==> c.log.toClient <= Owed(c.log))
            && (c.log.eof ==> c.state == Done && c.log.toClient == c.log.fromUpstream)
            && (c.want == ReadUpstream ==> c.outClientOff >= |c.outClient|)
  {
    hide Asked, Run, Init, FairRun, Tapped;
    RunInv(cfg, client, answers);
  }

  // The local responses: the four errors, or bytes from the cache.
  ghost predicate KnownLocal(l: Log) {
    l.local.Some? ==>
      || l.hit
      || l.local.value == Error400() || l.local.value == Error501()
      || l.local.value == Error413() || l.local.value == Error502()
  }

  // From c to d only connecting went on: no byte moved, and a local response, if chosen, is known.
  ghost predicate Onward(c: Conn, d: Conn) {
    && (KnownLocal(c.log) ==> KnownLocal(d.log))
    && |c.log.tried| <= |d.log.tried|
    && (d.state == Connecting ==> |c.log.tried| < |d.log.tried|)
    && d.log.fromClient == c.log.fromClient && d.log.toUpstream == c.log.toUpstream
    && d.log.fromUpstream == c.log.fromUpstream && d.log.toClient == c.log.toClient
    && d.state != ReadingRequest
  }

  lemma FailOnward(c: Conn)
    ensures Onward(c, FailWith(c, Error502()))
  {
    hide Error400, Error413, Error501, Error502;
  }

  lemma AttemptOnward(c: Conn, fd: Desc)
    requires c.endpointIdx < |c.endpoints|
    ensures Onward(c, SetWant(Attempt(c).(upstream := Some(fd), state := Connecting), WriteUpstream))
    ensures Onward(c, SetWant(Attempt(c).(upstream := Some(fd), state := SendingUpstream,
                              log := Attempt(c).log.(confirmed := c.log.confirmed + {fd})), WriteUpstream))
  {
    hide Error400, Error413, Error501, Error502;
  }

  lemma FailedAttemptOnward(c: Conn, d: Conn)
    requires c.endpointIdx < |c.endpoints| && Onward(FailedAttempt(c), d)
    ensures Onward(c, d)
  {
    hide Error400, Error413, Error501, Error502;
  }

  lemma {:induction false} BeginConnectOnward(c: Conn, answers: seq<ConnectAnswer>)
    ensures Onward(c, BeginConnect(c, answers))
    decreases |c.endpoints| - c.endpointIdx
  {
    hide Onward, Attempt, FailedAttempt, FailWith, SetWant;
    FailOnward(c);
    if c.endpointIdx < |c.endpoints| {
      match NextAnswer(answers)
      case ConnectFailed =>
        BeginConnectOnward(FailedAttempt(c), LaterAnswers(answers));
        FailedAttemptOnward(c, BeginConnect(FailedAttempt(c), LaterAnswers(answers)));
      case Connected(fd) => AttemptOnward(c, fd);
      case InProgress(fd) => AttemptOnward(c, fd);
    }
  }

  lemma {:induction false} BeginConnectLands(c: Conn, answers: seq<ConnectAnswer>)
    ensures BeginConnect(c, answers).state in {Connecting, SendingUpstream, Failing}
    decreases |c.endpoints| - c.endpointIdx
  {
    if c.endpointIdx < |c.endpoints| { BeginConnectLands(FailedAttempt(c), LaterAnswers(answers)); }
  }

  // Onward looks at the log only.
  lemma OnwardFrom(c: Conn, c': Conn, d: Conn)
    requires Onward(c', d)
    requires c'.log == c.log.(resolved := c'.log.resolved, failed := c'.log.failed)
    ensures Onward(c, d)
  {
    hide Error400, Error413, Error501, Error502;
  }

  lemma StartConnectingOnward(c: Conn, c0: Conn, eps: seq<Endpoint>, answers: seq<ConnectAnswer>)
    requires c.log == c0.log
    ensures Onward(c0, StartConnecting(c, eps, answers))
  {
    hide Onward, BeginConnect;
    var c' := c.(endpoints := eps, endpointIdx := 0, log := c.log.(resolved := true));
    BeginConnectOnward(c', answers);
    OnwardFrom(c0, c', BeginConnect(c', answers));
  }

  lemma BeginResolveOnward(cfg: Config, c: Conn, a: Answer)
    ensures Onward(c, BeginResolve(cfg, c, a))
  {
    hide StartConnecting, FailWith;
    FailOnward(c);
    if a.lookup.LookupHit? { StartConnectingOnward(c, c, a.lookup.eps, a.connects); }
  }

  lemma DispatchOnward(cfg: Config, c: Conn, a: Answer)
    ensures Onward(c, Dispatch(cfg, c, a))
  {
    hide BeginResolve, CacheableRequest, CacheKey, Error400, Error413, Error501, Error502;
    var k := if cfg.hasCache && CacheableRequest(cfg, c.req) then c.(cacheKey := CacheKey(c.req)) else c;
    BeginResolveOnward(cfg, k, a);
  }

  // Looking at new bytes leaves everything but the request and a possible error alone.
  ghost predicate OnlyRead(c: Conn, d: Conn) {
    && (KnownLocal(c.log) ==> KnownLocal(d.log))
    && d.log.tried == c.log.tried && d.log.fromClient == c.log.fromClient
    && d.log.toUpstream == c.log.toUpstream && d.log.fromUpstream == c.log.fromUpstream
    && d.log.toClient == c.log.toClient
  }

  lemma FailOnlyRead(c: Conn, c': Conn)
    requires c'.log == c.log
    ensures OnlyRead(c, FailWith(c', Error400())) && OnlyRead(c, FailWith(c', Error413())) && OnlyRead(c, FailWith(c', Error501()))
  {
    hide Error400, Error413, Error501, Error502;
  }

  lemma BodyStageOnlyRead(c: Conn, c': Conn)
    requires c'.log == c.log
    ensures OnlyRead(c, BodyStage(c').c)
  {
    hide Error400, Error413, Error501, Error502, Build, Needed, Substr;
  }

  lemma HeaderStageOnlyRead(cfg: Config, c: Conn)
    ensures OnlyRead(c, HeaderStage(cfg, c).c)
  {
    hide Error400, Error413, Error501, FailWith, Parse, BodyStage, KnownLocal;
    var c' := c.(req := Parse(c.inClient, c.req).1);
    FailOnlyRead(c, c');
    BodyStageOnlyRead(c, c);
    BodyStageOnlyRead(c, c'.(parsed := true));
  }

  lemma ReceiveOnlyRead(cfg: Config, c: Conn, bytes: string)
    ensures OnlyRead(c.(log := c.log.(fromClient := c.log.fromClient + bytes)), Receive(cfg, c, bytes).c)
  {
    hide HeaderStage, KnownLocal;
    HeaderStageOnlyRead(cfg, c.(inClient := c.inClient + bytes, log := c.log.(fromClient := c.log.fromClient + bytes)));
  }

  lemma FinishResolveOnward(c: Conn, a: Answer)
    ensures a.job != JobNotReady ==> Onward(c, FinishResolve(c, a)) && FinishResolve(c, a).state != Resolving
  {
    hide BeginConnect;
    if a.job.JobOk? {
      BeginConnectLands(c.(job := None, endpoints := a.job.eps, endpointIdx := 0, log := c.log.(resolved := true)), a.connects);
    }
    FailOnward(c.(job := None));
    if a.job.JobOk? { StartConnectingOnward(c.(job := None), c, a.job.eps, a.connects); }
    if a.job.JobFailed? { OnwardFrom(c, c.(job := None), FailWith(c.(job := None), Error502())); }
  }

  lemma FinishConnectOnward(c: Conn, a: Answer)
    ensures !a.soOk ==> Onward(c, FinishConnect(c, a)) && FinishConnect(c, a).state != Resolving
  {
    hide BeginConnect, Onward;
    if !a.soOk {
      var c' := c.(upstream := None, log := c.log.(failed := c.log.failed + LastTried(c)));
      BeginConnectOnward(c', a.connects);
      BeginConnectLands(c', a.connects);
      OnwardFrom(c, c', BeginConnect(c', a.connects));
    }
  }

  lemma ReadClientLocal(cfg: Config, c: Conn, a: Answer)
    requires KnownLocal(c.log)
    ensures KnownLocal(DoReadClient(cfg, c, a).log)
  {
    hide Dispatch, Receive, Error400, Error413, Error501, Error502;
    if a.read.ReadOk? {
      ReceiveOnlyRead(cfg, c, a.read.bytes);
      DispatchOnward(cfg, Receive(cfg, c, a.read.bytes).c, a);
    }
  }

  lemma StepLocal(cfg: Config, c: Conn, a: Answer)
    requires Inv(cfg, c) && c.state != Done && KnownLocal(c.log)
    ensures KnownLocal(Step(cfg, c, a).log)
  {
    hide DoReadClient, FinishResolve, FinishConnect, DoWriteUpstream, DoReadUpstream, DoWriteClient, Inv;
    match c.want
    case ReadClient => ReadClientLocal(cfg, c, a);
    case ReadResolver => NotReadyIsIdle(c, a); FinishResolveOnward(c, a);
    case WriteUpstream => ConnectedLocal(c, a); FinishConnectOnward(c, a);
    case ReadUpstream => RelayLocal(cfg, c, a);
    case WriteClient => RelayLocal(cfg, c, a);
    case NoWant =>
  }

  lemma ConnectedLocal(c: Conn, a: Answer)
    requires KnownLocal(c.log)
    ensures KnownLocal(DoWriteUpstream(c, a).log)
    ensures a.soOk ==> KnownLocal(FinishConnect(c, a).log)
  {
    hide Error400, Error413, Error501, Error502, Substr, BeginConnect;
  }

  lemma RelayLocal(cfg: Config, c: Conn, a: Answer)
    ensures DoWriteClient(c, a).log.local == c.log.local && DoWriteClient(c, a).log.hit == c.log.hit
    ensures DoReadUpstream(cfg, c, a).log.local == c.log.local && DoReadUpstream(cfg, c, a).log.hit == c.log.hit
  {
    hide Substr;
    if a.read.ReadOk? { assert Tap(cfg, c, a.read.bytes).log == c.log; }
    hide Tap;
  }

  lemma LocalMeansFailing(cfg: Config, c: Conn)
    requires Inv(cfg, c) && c.state != Done && c.log.local.Some?
    ensures c.state == Failing && c.want == WriteClient
  {
    hide Common, Asked, Tapped, SentPrefix, GaveUpHonestly, HitHonestly, Tied, Whole;
  }

  lemma LocalStays(cfg: Config, c: Conn, a: Answer)
    requires Inv(cfg, c) && c.state != Done && c.log.local.Some?
    ensures Step(cfg, c, a).log.local == c.log.local
  {
    LocalMeansFailing(cfg, c);
    hide Inv, DoReadClient, DoWriteClient, DoReadUpstream, DoWriteUpstream, FinishResolve, FinishConnect;
    RelayLocal(cfg, c, a);
  }

  // The local response is chosen once, is one of the four errors or a cache hit, and never changes.
  lemma {:induction false} LocalResponseIsFixed(cfg: Config, client: Desc, answers: seq<Answer>, n: nat)
    requires FairRun(cfg, Init(client), answers) && n <= |answers|
    ensures KnownLocal(Run(cfg, Init(client), answers).log)
    ensures var early := Run(cfg, Init(client), answers[..n]).log;
            early.local.Some? ==> Run(cfg, Init(client), answers).log.local == early.local
  {
    hide Step, Inv, Fair;
    if n == |answers| { assert answers[..n] == answers; }
    if answers != [] {
      var before := answers[..|answers| - 1];
      LocalResponseIsFixed(cfg, client, before, if n == |answers| then 0 else n);
      if n < |answers| { assert before[..n] == answers[..n]; }
      RunInv(cfg, client, before);
      var d := Run(cfg, Init(client), before);
      StepLocal(cfg, d, answers[|answers| - 1]);
      if d.log.local.Some? { LocalStays(cfg, d, answers[|answers| - 1]); }
    }
  }

  // ---- wants, addresses, memory ---------------------------------------------------------------

  // Before Done the wanted descriptor is there, and a wanted write has a byte to write; at Done the
  // connection owns nothing.
  lemma WantsAreGrounded(cfg: Config, client: Desc, answers: seq<Answer>)
    requires FairRun(cfg, Init(client), answers)
    ensures var c := Run(cfg, Init(client), answers);
            if c.state == Done then c.client.None? && c.upstream.None? && c.job.None?
            else
              && c.WantDesc().Some?
              && (c.want == WriteClient ==> c.outClientOff < |c.outClient|)
              && (c.want == WriteUpstream ==> c.outUpstreamOff < |c.outUpstream|)
  {
    hide Run, Init, FairRun, Tapped, Build, Accepted;
    RunInv(cfg, client, answers);
    InvWants(cfg, Run(cfg, Init(client), answers));
  }

  lemma InvWants(cfg: Config, c: Conn)
    requires Inv(cfg, c)
    ensures if c.state == Done then c.client.None? && c.upstream.None? && c.job.None?
            else
              && c.WantDesc().Some?
              && (c.want == WriteClient ==> c.outClientOff < |c.outClient|)
              && (c.want == WriteUpstream ==> c.outUpstreamOff < |c.outUpstream|)
  {
    hide Tapped, Accepted, Needed, Substr;
  }

  // Candidates are tried in list order, each once; every one before the current one has failed; a
  // local response after resolution without any confirmed connect means the whole list failed;
  // request bytes went only to confirmed sockets and form a prefix of the rebuilt request.
  ghost predicate InOrder(c: Conn) {
    && c.endpointIdx <= |c.endpoints| && c.log.tried == c.endpoints[..c.endpointIdx]
    && (c.state in {Connecting, SendingUpstream, Relaying} ==>
          0 < c.endpointIdx && c.log.failed == c.endpoints[..c.endpointIdx - 1])
    && (c.log.local.Some? && c.log.resolved && c.log.confirmed == {} ==> c.log.failed == c.endpoints)
    && c.log.written <= c.log.confirmed
    && (c.log.request.None? ==> c.log.toUpstream == "")
    && (c.log.request.Some? ==> c.log.toUpstream <= c.log.request.value)
    && (c.state == Relaying ==> c.log.request == Some(c.log.toUpstream))
  }

  lemma AddressesAndRequestBytes(cfg: Config, client: Desc, answers: seq<Answer>)
    requires FairRun(cfg, Init(client), answers)
    ensures InOrder(Run(cfg, Init(client), answers))
  {
    hide Run, Init, FairRun, InOrder;
    RunInv(cfg, client, answers);
    InvInOrder(cfg, Run(cfg, Init(client), answers));
  }

  lemma InvInOrder(cfg: Config, c: Conn)
    requires Inv(cfg, c)
    ensures InOrder(c)
  {
    hide Tapped, Accepted, Build, Needed, Substr, Keyed, Waiting;
  }

  // The request is what the client's bytes parse to, rebuilt, with the announced body; the body has
  // the announced length unless header and body lengths overflow size_t.
  lemma RequestIsTheClients(cfg: Config, client: Desc, answers: seq<Answer>)
    requires FairRun(cfg, Init(client), answers)
    ensures var c := Run(cfg, Init(client), answers);
            c.log.request.Some? ==>
              && Parse(c.log.fromClient, FRESH) == (Ok, c.req)
              && c.log.request.value == Build(c.req, Substr(c.log.fromClient, c.req.headerBytes, c.req.contentLength))
              && (c.req.headerBytes + c.req.contentLength <= SIZE_MAX ==>
                    |Substr(c.log.fromClient, c.req.headerBytes, c.req.contentLength)| == c.req.contentLength)
  {
    hide Run, Init, FairRun, Tapped, Parse, Build, Keyed;
    RunInv(cfg, client, answers);
  }

  // Buffers are bounded in every reachable state.
  lemma MemoryIsBounded(cfg: Config, client: Desc, answers: seq<Answer>)
    requires FairRun(cfg, Init(client), answers)
    ensures var c := Run(cfg, Init(client), answers);
            && (c.inClient == "" || |c.inClient| < cfg.maxHeaderBytes + cfg.maxBodyBytes + 2 * Chunk(cfg))
            && |c.cacheAccum| <= cfg.cacheMaxEntryBytes
            && (|c.outClient| <= Chunk(cfg) || (c.state in {Failing, Done} && Some(c.outClient) == c.log.local))
  {
    hide Run, Init, FairRun, Tapped, Asked, Accepted;
    RunInv(cfg, client, answers);
  }

  // ---- progress -------------------------------------------------------------------------------

  function Rank(s: Phase): (n: nat) {
    match s
    case ReadingRequest => 0
    case Resolving => 1
    case Connecting => 2
    case SendingUpstream => 3
    case Relaying => 4
    case Failing => 5
    case Done => 6
  }

  // Everything that can only grow.
  function Work(c: Conn): (n: nat) {
    Rank(c.state) + |c.log.fromClient| + |c.log.tried| + |c.log.toUpstream| + |c.log.fromUpstream| + |c.log.toClient|
  }

  lemma ReadClientWork(cfg: Config, c: Conn, a: Answer)
    requires Inv(cfg, c) && c.want == ReadClient && Fair(cfg, c, a) && DoReadClient(cfg, c, a) != c
    ensures Work(c) < Work(DoReadClient(cfg, c, a))
  {
    hide Dispatch, Receive, Asked, Waiting, KnownLocal, Find;
    if a.read.ReadOk? {
      ReceiveOnlyRead(cfg, c, a.read.bytes);
      DispatchOnward(cfg, Receive(cfg, c, a.read.bytes).c, a);
    }
  }

  lemma WriteWork(c: Conn, a: Answer)
    requires c.want == WriteClient ==> FairWrite(a.write, |c.outClient| - c.outClientOff) && c.outClientOff < |c.outClient|
    requires c.want == WriteUpstream ==> FairWrite(a.write, |c.outUpstream| - c.outUpstreamOff) && c.outUpstreamOff < |c.outUpstream|
    ensures c.want == WriteClient && c.state in {Relaying, Failing} && DoWriteClient(c, a) != c ==> Work(c) < Work(DoWriteClient(c, a))
    ensures c.want == WriteUpstream && c.state == SendingUpstream && DoWriteUpstream(c, a) != c ==> Work(c) < Work(DoWriteUpstream(c, a))
  {
    hide Substr, Error502;
    if a.write.WriteOk? {
      SubstrLength(c.outClient, c.outClientOff, a.write.n);
      SubstrLength(c.outUpstream, c.outUpstreamOff, a.write.n);
    }
  }

  // Every call that changes the connection does work.
  lemma StepWork(cfg: Config, c: Conn, a: Answer)
    requires Inv(cfg, c) && c.state != Done && Fair(cfg, c, a) && Step(cfg, c, a) != c
    ensures Work(c) < Work(Step(cfg, c, a))
  {
    hide BeginConnect, DoReadClient, DoWriteClient, DoWriteUpstream, DoReadUpstream, FinishResolve, Asked, Find, KnownLocal;
    match c.want
    case ReadClient => ReadClientWork(cfg, c, a);
    case ReadResolver => NotReadyIsIdle(c, a); FinishResolveOnward(c, a);
    case WriteUpstream => if c.state == Connecting { FinishConnectOnward(c, a); } else { WriteWork(c, a); }
    case WriteClient => WriteWork(c, a);
    case ReadUpstream =>
      BlockedIsIdle(cfg, c, a);
      if !a.read.ReadBlocked? { ReadUpstreamWork(cfg, c, a); }
    case NoWant =>
  }

  lemma ReadUpstreamWork(cfg: Config, c: Conn, a: Answer)
    requires c.state == Relaying && c.outClientOff >= |c.outClient| && !a.read.ReadBlocked?
    requires a.read.ReadOk? ==> a.read.bytes != ""
    ensures Work(c) < Work(DoReadUpstream(cfg, c, a))
  {
    if a.read.ReadOk? { TapWork(cfg, c, a.read.bytes); }
    hide Tap;
  }

  lemma TapWork(cfg: Config, c: Conn, bytes: string)
    ensures Tap(cfg, c, bytes).log == c.log && Tap(cfg, c, bytes).state == c.state
  {
  }

  lemma BlockedIsIdle(cfg: Config, c: Conn, a: Answer)
    ensures a.read.ReadBlocked? ==> DoReadUpstream(cfg, c, a) == c
  {
  }

  lemma NotReadyIsIdle(c: Conn, a: Answer)
    ensures a.job == JobNotReady ==> FinishResolve(c, a) == c
  {
  }

  lemma SubstrLength(s: string, pos: nat, n: nat)
    ensures pos + n <= |s| ==> |Substr(s, pos, n)| == n
  {
  }

  // The calls that changed something.
  function Productive(cfg: Config, c: Conn, answers: seq<Answer>): (n: nat) {
    if answers == [] then 0
    else
      var before := answers[..|answers| - 1];
      Productive(cfg, c, before) + if Run(cfg, c, answers) != Run(cfg, c, before) then 1 else 0
  }

  lemma {:induction false} ProductiveIsWork(cfg: Config, client: Desc, answers: seq<Answer>)
    requires FairRun(cfg, Init(client), answers)
    ensures Productive(cfg, Init(client), answers) <= Work(Run(cfg, Init(client), answers))
  {
    hide Step, Inv, Fair, Work;
    if answers != [] {
      var before := answers[..|answers| - 1];
      ProductiveIsWork(cfg, client, before);
      RunInv(cfg, client, before);
      var c := Run(cfg, Init(client), before);
      if Step(cfg, c, answers[|answers| - 1]) != c { StepWork(cfg, c, answers[|answers| - 1]); }
    }
  }

  lemma InvCommon(cfg: Config, c: Conn)
    requires Inv(cfg, c)
    ensures Common(cfg, c)
  {
    hide Common;
  }

  // A step bound from the sizes of what passes through: a connection that has made that many
  // productive calls is Done, so no finite origin stream keeps it going for longer.
  lemma StepsAreBounded(cfg: Config, client: Desc, answers: seq<Answer>, streamLen: nat, localLen: nat, requestLen: nat, candidates: nat)
    requires FairRun(cfg, Init(client), answers)
    requires var l := Run(cfg, Init(client), answers).log;
             && |l.fromUpstream| <= streamLen && (l.local.Some? ==> |l.local.value| <= localLen)
             && (l.request.Some? ==> |l.request.value| <= requestLen)
             && |Run(cfg, Init(client), answers).endpoints| <= candidates
    ensures var bound := 6 + InputBound(cfg) + candidates + requestLen + streamLen + Max(streamLen, localLen);
            && Productive(cfg, Init(client), answers) <= bound
            && (Productive(cfg, Init(client), answers) == bound ==> Run(cfg, Init(client), answers).state == Done)
  {
    hide Run, FairRun, Productive, Init, Inv, InputBound;
    ProductiveIsWork(cfg, client, answers);
    RunInv(cfg, client, answers);
    InvCommon(cfg, Run(cfg, Init(client), answers));
    AddressesAndRequestBytes(cfg, client, answers);
    ClientStreamIsFaithful(cfg, client, answers);
  }
}
