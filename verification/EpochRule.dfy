// The epoch rule of src/connection.hpp: if the epoch has not moved across on_ready(), the connection
// waits on the same direction of the same, still open, descriptors.
module EpochRule {
  import opened Text
  import opened Http
  import opened Basics
  import opened ConnMachine
  import opened ConnInv

  // The client socket is kept or dropped; with an unchanged epoch nothing about the waiting changed.
  ghost predicate Rule(c: Conn, d: Conn) {
    && (d.client == c.client || d.client.None?)
    && c.epoch <= d.epoch
    && (d.epoch == c.epoch ==> d.want == c.want && d.client == c.client && d.upstream == c.upstream && d.job == c.job)
  }

  // Only buffers, request and log differ.
  ghost predicate Stays(c: Conn, d: Conn) {
    d.epoch == c.epoch && d.want == c.want && d.client == c.client && d.upstream == c.upstream && d.job == c.job
  }

  // The epoch has moved and the client socket is still there.
  ghost predicate Moves(c: Conn, d: Conn) { c.epoch < d.epoch && d.client == c.client }

  lemma FailMoves(c: Conn, response: string)
    ensures Moves(c, FailWith(c, response))
  {
  }

  lemma FinishRule(c: Conn)
    ensures Rule(c, Finish(c))
  {
  }

  lemma AttemptMoves(c: Conn, fd: Desc)
    requires c.endpointIdx < |c.endpoints|
    ensures FailedAttempt(c).epoch == c.epoch && FailedAttempt(c).client == c.client
    ensures Moves(c, SetWant(Attempt(c).(upstream := Some(fd), state := Connecting), WriteUpstream))
    ensures Moves(c, SetWant(Attempt(c).(upstream := Some(fd), state := SendingUpstream,
                             log := Attempt(c).log.(confirmed := c.log.confirmed + {fd})), WriteUpstream))
  {
  }

  lemma {:induction false} BeginConnectMoves(c: Conn, answers: seq<ConnectAnswer>)
    ensures Moves(c, BeginConnect(c, answers))
    decreases |c.endpoints| - c.endpointIdx
  {
    hide Attempt, FailedAttempt, FailWith, SetWant, Error502;
    if c.endpointIdx >= |c.endpoints| {
      FailMoves(c, Error502());
    } else {
      match NextAnswer(answers)
      case ConnectFailed =>
        AttemptMoves(c, Desc(0, 0));
        BeginConnectMoves(FailedAttempt(c), LaterAnswers(answers));
      case Connected(fd) => AttemptMoves(c, fd);
      case InProgress(fd) => AttemptMoves(c, fd);
    }
  }

  lemma StartConnectingMoves(c: Conn, eps: seq<Endpoint>, answers: seq<ConnectAnswer>)
    ensures Moves(c, StartConnecting(c, eps, answers))
  {
    hide BeginConnect;
    BeginConnectMoves(c.(endpoints := eps, endpointIdx := 0, log := c.log.(resolved := true)), answers);
  }

  lemma DispatchMoves(cfg: Config, c: Conn, a: Answer)
    ensures Moves(c, Dispatch(cfg, c, a))
  {
    hide StartConnecting, CacheableRequest, CacheKey, Error502;
    var k := if cfg.hasCache && CacheableRequest(cfg, c.req) then c.(cacheKey := CacheKey(c.req)) else c;
    if a.lookup.LookupHit? { StartConnectingMoves(k, a.lookup.eps, a.connects); }
  }

  lemma BodyStays(c: Conn)
    ensures Stays(c, BodyStage(c).c)
  {
    hide Build, Needed, Substr;
  }

  lemma HeaderRule(cfg: Config, c: Conn)
    ensures var s := HeaderStage(cfg, c); Stays(c, s.c) || (s.Returns? && Moves(c, s.c))
  {
    hide Parse, BodyStage, FailWith, Error400, Error413, Error501;
    var r := Parse(c.inClient, c.req).1;
    FailMoves(c.(req := r), Error400());
    FailMoves(c.(req := r), Error413());
    FailMoves(c.(req := r), Error501());
    BodyStays(c);
    BodyStays(c.(req := r, parsed := true));
  }

  lemma ReadClientRule(cfg: Config, c: Conn, a: Answer)
    ensures Rule(c, DoReadClient(cfg, c, a))
  {
    hide HeaderStage, Dispatch;
    if a.read.ReadOk? {
      var f := c.(inClient := c.inClient + a.read.bytes, log := c.log.(fromClient := c.log.fromClient + a.read.bytes));
      HeaderRule(cfg, f);
      DispatchMoves(cfg, HeaderStage(cfg, f).c, a);
    }
  }

  lemma FinishResolveRule(c: Conn, a: Answer)
    ensures Rule(c, FinishResolve(c, a))
  {
    hide StartConnecting, Error502;
    if a.job.JobOk? { StartConnectingMoves(c.(job := None), a.job.eps, a.connects); }
  }

  lemma FinishConnectRule(c: Conn, a: Answer)
    ensures Rule(c, FinishConnect(c, a))
  {
    hide BeginConnect;
    BeginConnectMoves(c.(upstream := None, log := c.log.(failed := c.log.failed + LastTried(c))), a.connects);
  }

  lemma WriteRule(c: Conn, a: Answer)
    ensures Rule(c, DoWriteUpstream(c, a)) && Rule(c, DoWriteClient(c, a))
  {
    hide Substr, Error502;
  }

  lemma ReadUpstreamRule(cfg: Config, c: Conn, a: Answer)
    ensures Rule(c, DoReadUpstream(cfg, c, a))
  {
  }

  // Holds of every call, from any state.
  lemma EpochRuleHolds(cfg: Config, c: Conn, a: Answer)
    ensures Rule(c, Step(cfg, c, a))
  {
    hide DoReadClient, FinishResolve, FinishConnect, DoWriteUpstream, DoReadUpstream, DoWriteClient, Rule;
    match c.want
    case ReadClient => ReadClientRule(cfg, c, a);
    case WriteClient => WriteRule(c, a);
    case ReadUpstream => ReadUpstreamRule(cfg, c, a);
    case ReadResolver => FinishResolveRule(c, a);
    case WriteUpstream => FinishConnectRule(c, a); WriteRule(c, a);
    case NoWant => FinishRule(c);
  }
}
