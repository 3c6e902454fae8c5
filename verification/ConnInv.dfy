// What holds of a connection in every state it can reach, whatever the network answers.
module ConnInv {
  import opened Text
  import opened Http
  import opened Basics
  import opened RequestProofs
  import opened ConnMachine

  // ---- the invariant --------------------------------------------------------------------------

  // Holds in every state.
  ghost predicate Common(cfg: Config, c: Conn) {
    && c.inClient == c.log.fromClient
    && (c.inClient == "" || |c.inClient| < InputBound(cfg))
    && c.upstreamEof == c.log.eof
    && c.endpointIdx <= |c.endpoints|
    && c.log.tried == c.endpoints[..c.endpointIdx]
    && (!c.log.resolved ==> c.endpoints == [])
    && c.log.written <= c.log.confirmed
    && |c.cacheAccum| <= cfg.cacheMaxEntryBytes
  }

  // The most request bytes a connection ever buffers, plus one.
  function InputBound(cfg: Config): (n: nat) {
    cfg.maxHeaderBytes + cfg.maxBodyBytes + 2 * Chunk(cfg)
  }

  // Nothing has come from the origin or gone to the client.
  ghost predicate Silent(c: Conn) {
    && c.log.local.None? && c.log.fromUpstream == "" && c.log.toClient == "" && !c.log.eof && !c.log.hit
    && c.outClient == "" && c.outClientOff == 0
    && c.cacheAccum == "" && !c.cacheTooBig
  }

  // No connect has been tried.
  ghost predicate Unconnected(c: Conn) {
    && c.log.tried == [] && c.log.failed == [] && c.log.confirmed == {} && c.log.written == {}
    && !c.log.resolved && c.log.toUpstream == ""
  }

  // The request is complete, accepted, and rebuilt into log.request.
  ghost predicate Asked(cfg: Config, c: Conn) {
    Whole(cfg, c) && Keyed(cfg, c)
  }

  ghost predicate Whole(cfg: Config, c: Conn) {
    && c.parsed && Accepted(c.inClient, c.req) && c.req.contentLength <= cfg.maxBodyBytes
    && c.req.headerBytes <= |c.inClient| && Needed(c.req) <= |c.inClient|
    && c.log.request == Some(Build(c.req, Substr(c.inClient, c.req.headerBytes, c.req.contentLength)))
  }

  // The cache key is set exactly for the requests that may be shared.
  ghost predicate Keyed(cfg: Config, c: Conn) {
    c.cacheKey == if cfg.hasCache && CacheableRequest(cfg, c.req) then CacheKey(c.req) else ""
  }

  ghost predicate Waiting(cfg: Config, c: Conn) {
    if c.parsed then
      && Accepted(c.inClient, c.req) && c.req.contentLength <= cfg.maxBodyBytes
      && c.req.headerBytes <= cfg.maxHeaderBytes + Chunk(cfg)
      && |c.inClient| < Needed(c.req)
    else
      c.req == FRESH && |c.inClient| <= cfg.maxHeaderBytes && Find(c.inClient, BLANK_LINE) < 0
  }

  ghost predicate ReadingInv(cfg: Config, c: Conn) {
    && c.client.Some? && c.upstream.None? && c.job.None? && c.want == ReadClient
    && Silent(c) && Unconnected(c) && c.log.request.None? && c.cacheKey == ""
    && Waiting(cfg, c)
  }

  // The rebuilt request waits, untouched, to be sent.
  ghost predicate Loaded(cfg: Config, c: Conn) {
    && c.client.Some? && Silent(c) && Asked(cfg, c)
    && c.outUpstream == c.log.request.value && c.outUpstreamOff == 0 && c.log.toUpstream == ""
  }

  ghost predicate ResolvingInv(cfg: Config, c: Conn) {
    && Loaded(cfg, c) && Unconnected(c)
    && c.upstream.None? && c.job.Some? && c.want == ReadResolver
  }

  // Every candidate before this index has failed and none has been confirmed.
  ghost predicate AllFailedUpTo(c: Conn, n: nat) {
    n <= |c.endpoints| && c.log.failed == c.endpoints[..n]
  }

  ghost predicate ConnectingInv(cfg: Config, c: Conn) {
    && Loaded(cfg, c)
    && c.upstream.Some? && c.job.None? && c.want == WriteUpstream
    && c.log.resolved && c.log.confirmed == {} && c.log.written == {}
    && 0 < c.endpointIdx && AllFailedUpTo(c, c.endpointIdx - 1)
  }

  ghost predicate Confirmed(c: Conn) {
    && c.upstream.Some? && c.job.None?
    && c.log.resolved && c.upstream.value in c.log.confirmed
    && 0 < c.endpointIdx && AllFailedUpTo(c, c.endpointIdx - 1)
  }

  ghost predicate SendingInv(cfg: Config, c: Conn) {
    && c.client.Some? && Silent(c) && Asked(cfg, c) && Confirmed(c) && c.want == WriteUpstream
    && c.outUpstream == c.log.request.value && c.outUpstreamOff < |c.outUpstream|
    && c.log.toUpstream == c.outUpstream[..c.outUpstreamOff]
  }

  // The tap holds the whole stream so far, or has given up.
  ghost predicate Tapped(c: Conn) {
    if c.cacheKey == "" then c.cacheAccum == ""
    else if c.cacheTooBig then c.cacheAccum == ""
    else c.cacheAccum == c.log.fromUpstream
  }

  ghost predicate RelayingInv(cfg: Config, c: Conn) {
    && c.client.Some? && Asked(cfg, c) && Confirmed(c) && Tapped(c)
    && c.log.local.None? && !c.log.eof && !c.log.hit
    && c.log.toUpstream == c.log.request.value
    && c.outClientOff <= |c.outClient| <= Chunk(cfg)
    && c.log.toClient + c.outClient[c.outClientOff..] == c.log.fromUpstream
    && (if c.want == ReadUpstream then c.outClient == "" && c.outClientOff == 0
        else c.want == WriteClient && c.outClientOff < |c.outClient|)
  }

  // What went upstream is a prefix of the rebuilt request.
  ghost predicate SentPrefix(c: Conn) {
    if c.log.request.Some? then c.log.toUpstream <= c.log.request.value else c.log.toUpstream == ""
  }

  // Connecting gave up only after every candidate failed.
  ghost predicate GaveUpHonestly(c: Conn) {
    c.log.local.Some? && c.log.resolved ==> c.log.confirmed != {} || c.log.failed == c.endpoints
  }

  // A response from the cache was looked up under this request's key and nothing was connected.
  ghost predicate HitHonestly(cfg: Config, c: Conn) {
    c.log.hit ==> Asked(cfg, c) && c.cacheKey != "" && c.log.local.Some? && Unconnected(c)
  }

  // What was rebuilt is the client's request, also after things went wrong.
  ghost predicate Tied(cfg: Config, c: Conn) { c.log.request.Some? ==> Whole(cfg, c) }

  ghost predicate FailingInv(cfg: Config, c: Conn) {
    && c.client.Some? && c.upstream.None? && c.job.None? && c.want == WriteClient
    && c.log.local.Some? && !c.log.eof && c.log.fromUpstream == ""
    && c.outClientOff < |c.outClient| && c.outClient == c.log.local.value
    && c.log.toClient + c.outClient[c.outClientOff..] == c.log.local.value
    && SentPrefix(c) && GaveUpHonestly(c) && HitHonestly(cfg, c) && Tied(cfg, c)
  }

  // The bytes the client is owed: one local response, or the origin's stream.
  function Owed(l: Log): (s: string) { if l.local.Some? then l.local.value else l.fromUpstream }

  ghost predicate DoneInv(cfg: Config, c: Conn) {
    && c.client.None? && c.upstream.None? && c.job.None? && c.want == NoWant
    && (c.log.local.Some? ==> c.log.fromUpstream == "")
    && c.log.toClient <= Owed(c.log)
    && (c.log.eof ==> c.log.local.None? && c.log.toClient == c.log.fromUpstream)
    && (|c.outClient| <= Chunk(cfg) || Some(c.outClient) == c.log.local)
    && SentPrefix(c) && GaveUpHonestly(c) && HitHonestly(cfg, c) && Tied(cfg, c)
  }

  ghost predicate Inv(cfg: Config, c: Conn) {
    && Common(cfg, c)
    && match c.state
       case ReadingRequest => ReadingInv(cfg, c)
       case Resolving => ResolvingInv(cfg, c)
       case Connecting => ConnectingInv(cfg, c)
       case SendingUpstream => SendingInv(cfg, c)
       case Relaying => RelayingInv(cfg, c)
       case Failing => FailingInv(cfg, c)
       case Done => DoneInv(cfg, c)
  }

  // ---- preservation, handler by handler -------------------------------------------------------

  lemma InitInv(cfg: Config, client: Desc)
    ensures Inv(cfg, Init(client))
  {
    FindInEmpty();
  }

  lemma FindInEmpty()
    ensures Find("", BLANK_LINE) < 0
  {
  }

  // An error response chosen before anything was relayed.
  lemma FailEarly(cfg: Config, c: Conn, response: string)
    requires Common(cfg, c) && c.client.Some? && c.job.None? && response != ""
    requires c.log.toClient == "" && c.log.fromUpstream == "" && !c.log.eof && !c.log.hit
    requires SentPrefix(c) && Tied(cfg, c)
    requires c.log.resolved ==> c.log.confirmed != {} || c.log.failed == c.endpoints
    ensures Inv(cfg, FailWith(c, response))
  {
    hide Asked, Accepted;
  }

  // begin_connect from a loaded connection: it ends connecting, sending or with a 502, and the 502
  // only after the whole list has failed.
  lemma {:induction false} BeginConnectInv(cfg: Config, c: Conn, answers: seq<ConnectAnswer>)
    requires Common(cfg, c) && Loaded(cfg, c) && c.upstream.None? && c.job.None?
    requires c.log.resolved && c.log.confirmed == {} && c.log.written == {}
    requires AllFailedUpTo(c, c.endpointIdx)
    ensures Inv(cfg, BeginConnect(c, answers))
    decreases |c.endpoints| - c.endpointIdx
  {
    hide Accepted, Build, Error502, CacheKey, CacheableRequest, Needed, Substr;
    if c.endpointIdx >= |c.endpoints| {
      assert c.endpoints[..c.endpointIdx] == c.endpoints;
      FailEarly(cfg, c, Error502());
    } else {
      assert c.endpoints[..c.endpointIdx + 1] == c.endpoints[..c.endpointIdx] + [c.endpoints[c.endpointIdx]];
      RequestNotEmpty(cfg, c);
      match NextAnswer(answers)
      case ConnectFailed => BeginConnectInv(cfg, FailedAttempt(c), LaterAnswers(answers));
      case Connected(fd) => assert c.outUpstream[..0] == "";
      case InProgress(fd) =>
    }
  }

  lemma RequestNotEmpty(cfg: Config, c: Conn)
    requires Asked(cfg, c)
    ensures c.log.request.Some? && c.log.request.value != ""
  {
  }

  // ---- reading the request --------------------------------------------------------------------

  // A complete request, before the cache is asked.
  ghost predicate Ready(cfg: Config, c: Conn) {
    && Common(cfg, c) && c.client.Some? && c.upstream.None? && c.job.None?
    && Silent(c) && Unconnected(c) && Whole(cfg, c) && c.cacheKey == ""
    && c.outUpstream == c.log.request.value && c.outUpstreamOff == 0
    && c.state == ReadingRequest
  }

  lemma NeededAtMost(req: Request)
    ensures Needed(req) <= req.headerBytes + req.contentLength
  {
  }

  // A connection that has just appended a chunk and parsed, or parsed earlier.
  ghost predicate Filled(cfg: Config, c: Conn) {
    && Common(cfg, c) && c.client.Some? && c.upstream.None? && c.job.None? && c.want == ReadClient
    && c.state == ReadingRequest
    && Silent(c) && Unconnected(c) && c.log.request.None? && c.cacheKey == ""
  }

  lemma BodyStageInv(cfg: Config, c: Conn)
    requires Filled(cfg, c) && c.parsed && Accepted(c.inClient, c.req) && c.req.contentLength <= cfg.maxBodyBytes
    requires c.req.headerBytes <= cfg.maxHeaderBytes + Chunk(cfg)
    ensures BodyStage(c).Returns? ==> Inv(cfg, BodyStage(c).c)
    ensures BodyStage(c).Complete? ==> Ready(cfg, BodyStage(c).c)
  {
    hide Parse, Build, Substr, Needed;
    AcceptedIsClean(c.inClient, c.req);
    AtBounds(c.inClient, BLANK_LINE, Find(c.inClient, BLANK_LINE));
  }

  lemma FailReading(cfg: Config, c: Conn, req: Request, response: string)
    requires Filled(cfg, c) && response != ""
    ensures Inv(cfg, FailWith(c.(req := req), response))
  {
    FailEarly(cfg, c.(req := req), response);
  }

  lemma HeaderStageInv(cfg: Config, c: Conn)
    requires Filled(cfg, c) && !c.parsed && c.req == FRESH
    requires |c.inClient| <= cfg.maxHeaderBytes + Chunk(cfg)
    ensures HeaderStage(cfg, c).Returns? ==> Inv(cfg, HeaderStage(cfg, c).c)
    ensures HeaderStage(cfg, c).Complete? ==> Ready(cfg, HeaderStage(cfg, c).c)
  {
    hide Build, Substr, Needed, Error400, Error413, Error501, BodyStage, ParseHeaders, ParseRequestLine, ParseFraming, FindFrom;
    var p := Parse(c.inClient, FRESH);
    FailReading(cfg, c, p.1, Error400());
    FailReading(cfg, c, p.1, Error501());
    FailReading(cfg, c, p.1, Error413());
    ParseIncomplete(c.inClient);
    match p.0
    case Ok =>
      AcceptedIsClean(c.inClient, p.1);
      AtBounds(c.inClient, BLANK_LINE, Find(c.inClient, BLANK_LINE));
      if p.1.contentLength <= cfg.maxBodyBytes {
        BodyStageInv(cfg, c.(req := p.1, parsed := true));
      }
    case _ =>
  }

  lemma ReceiveInv(cfg: Config, c: Conn, bytes: string)
    requires Inv(cfg, c) && c.state == ReadingRequest && 1 <= |bytes| <= Chunk(cfg)
    ensures Receive(cfg, c, bytes).Returns? ==> Inv(cfg, Receive(cfg, c, bytes).c)
    ensures Receive(cfg, c, bytes).Complete? ==> Ready(cfg, Receive(cfg, c, bytes).c)
  {
    hide HeaderStage, BodyStage, Parse, FindFrom, Find;
    var d := c.(inClient := c.inClient + bytes, log := c.log.(fromClient := c.log.fromClient + bytes));
    NeededAtMost(c.req);
    assert Filled(cfg, d);
    if c.parsed {
      AcceptedGrows(c.inClient, bytes, c.req);
      BodyStageInv(cfg, d);
      ParsedSkipsHeader(cfg, d);
    } else {
      HeaderStageInv(cfg, d);
    }
  }

  lemma ParsedSkipsHeader(cfg: Config, c: Conn)
    requires c.parsed
    ensures HeaderStage(cfg, c) == BodyStage(c)
  {
  }

  lemma StartConnectingInv(cfg: Config, c: Conn, eps: seq<Endpoint>, answers: seq<ConnectAnswer>)
    requires Common(cfg, c) && Loaded(cfg, c) && Unconnected(c) && c.upstream.None? && c.job.None?
    ensures Inv(cfg, StartConnecting(c, eps, answers))
  {
    hide Accepted, Build, CacheKey, CacheableRequest, Needed, Substr, BeginConnect;
    var d := c.(endpoints := eps, endpointIdx := 0, log := c.log.(resolved := true));
    assert eps[..0] == [];
    BeginConnectInv(cfg, d, answers);
  }

  lemma FailLoaded(cfg: Config, c: Conn)
    requires Common(cfg, c) && Loaded(cfg, c) && Unconnected(c) && c.upstream.None? && c.job.None?
    ensures Inv(cfg, FailWith(c, Error502()))
  {
    hide Error502, Accepted, Build;
    FailEarly(cfg, c, Error502());
  }

  lemma BeginResolveInv(cfg: Config, c: Conn, a: Answer)
    requires Common(cfg, c) && Loaded(cfg, c) && Unconnected(c) && c.upstream.None? && c.job.None?
    ensures Inv(cfg, BeginResolve(cfg, c, a))
  {
    hide Accepted, Build, CacheKey, CacheableRequest, Needed, Substr, StartConnecting, Error502, FailWith;
    FailLoaded(cfg, c);
    match a.lookup
    case LookupHit(eps) => StartConnectingInv(cfg, c, eps, a.connects);
    case _ =>
  }

  lemma DispatchInv(cfg: Config, c: Conn, a: Answer)
    requires Ready(cfg, c) && (a.cached.Some? ==> a.cached.value != "")
    ensures Inv(cfg, Dispatch(cfg, c, a))
  {
    assert CacheKey(c.req) != "";
    hide Accepted, Build, CacheKey, CacheableRequest, Needed, Substr, BeginResolve;
    var d := if cfg.hasCache && CacheableRequest(cfg, c.req) then c.(cacheKey := CacheKey(c.req)) else c;
    assert Loaded(cfg, d);
    BeginResolveInv(cfg, d, a);
    if cfg.hasCache && CacheableRequest(cfg, c.req) && a.cached.Some? { HitInv(cfg, d, a.cached.value); }
    hide Common, Loaded, Inv, FailWith, Whole;
  }

  lemma HitInv(cfg: Config, d: Conn, v: string)
    requires Common(cfg, d) && Loaded(cfg, d) && Unconnected(d) && d.upstream.None? && d.job.None? && v != ""
    requires d.cacheKey != ""
    ensures Inv(cfg, FailWith(d.(log := d.log.(hit := true)), v))
  {
    hide Accepted, Build, CacheKey, CacheableRequest, Needed, Substr;
  }

  lemma DoReadClientInv(cfg: Config, c: Conn, a: Answer)
    requires Inv(cfg, c) && c.want == ReadClient && Fair(cfg, c, a)
    ensures Inv(cfg, DoReadClient(cfg, c, a))
  {
    hide Accepted, Build, Needed, Substr, Dispatch, Receive, Find;
    match a.read
    case ReadOk(bytes) =>
      ReceiveInv(cfg, c, bytes);
      if Receive(cfg, c, bytes).Complete? { DispatchInv(cfg, Receive(cfg, c, bytes).c, a); }
    case _ =>
  }

  // ---- resolving, connecting, moving bytes ----------------------------------------------------

  lemma FinishResolveInv(cfg: Config, c: Conn, a: Answer)
    requires Inv(cfg, c) && c.want == ReadResolver
    ensures Inv(cfg, FinishResolve(c, a))
  {
    hide Accepted, Build, Needed, Substr, StartConnecting, Error502, FailWith, CacheKey, CacheableRequest;
    var d := c.(job := None);
    match a.job
    case JobNotReady =>
    case JobOk(eps) => StartConnectingInv(cfg, d, eps, a.connects);
    case JobFailed => FailLoaded(cfg, d);
  }

  lemma FinishConnectInv(cfg: Config, c: Conn, a: Answer)
    requires Inv(cfg, c) && c.state == Connecting
    ensures Inv(cfg, FinishConnect(c, a))
  {
    hide Accepted, Build, Needed, Substr, BeginConnect, CacheKey, CacheableRequest;
    RequestNotEmpty(cfg, c);
    if !a.soOk {
      assert c.endpoints[..c.endpointIdx] == c.endpoints[..c.endpointIdx - 1] + [c.endpoints[c.endpointIdx - 1]];
      BeginConnectInv(cfg, c.(upstream := None, log := c.log.(failed := c.log.failed + LastTried(c))), a.connects);
    } else {
      assert c.outUpstream[..0] == "";
    }
  }

  lemma SendingParts(cfg: Config, c: Conn)
    requires Inv(cfg, c) && c.state == SendingUpstream
    ensures Common(cfg, c) && SendingInv(cfg, c)
  {
    hide Common, SendingInv;
  }

  // n bytes of the request have left.
  function Sent(c: Conn, n: nat): (d: Conn) {
    c.(outUpstreamOff := c.outUpstreamOff + n,
       log := c.log.(toUpstream := c.log.toUpstream + Substr(c.outUpstream, c.outUpstreamOff, n),
                     written := c.log.written + DescSet(c.upstream)))
  }

  lemma SentOn(c: Conn, n: nat)
    requires c.outUpstreamOff + n <= |c.outUpstream| && c.log.toUpstream == c.outUpstream[..c.outUpstreamOff]
    ensures Sent(c, n).log.toUpstream == c.outUpstream[..c.outUpstreamOff + n]
  {
    var off := c.outUpstreamOff;
    assert c.outUpstream[..off] + c.outUpstream[off..off + n] == c.outUpstream[..off + n];
  }

  lemma SendPartInv(cfg: Config, c: Conn, n: nat)
    requires Common(cfg, c) && SendingInv(cfg, c) && c.state == SendingUpstream && c.outUpstreamOff + n < |c.outUpstream|
    ensures Inv(cfg, Sent(c, n))
  {
    hide Asked, Substr;
    SentOn(c, n);
    AskedSame(cfg, c, Sent(c, n));
  }

  lemma SendAllInv(cfg: Config, c: Conn, n: nat)
    requires Common(cfg, c) && SendingInv(cfg, c) && c.state == SendingUpstream && c.outUpstreamOff + n == |c.outUpstream|
    ensures Inv(cfg, SetWant(Sent(c, n).(outUpstream := "", outUpstreamOff := 0, state := Relaying), ReadUpstream))
  {
    hide Asked, Substr;
    var d := SetWant(Sent(c, n).(outUpstream := "", outUpstreamOff := 0, state := Relaying), ReadUpstream);
    SentOn(c, n);
    assert c.outUpstream[..|c.outUpstream|] == c.outUpstream;
    AskedSame(cfg, c, d);
    RelayingIsInv(cfg, d);
  }

  lemma DoWriteUpstreamInv(cfg: Config, c: Conn, a: Answer)
    requires Inv(cfg, c) && c.state == SendingUpstream && Fair(cfg, c, a)
    ensures Inv(cfg, DoWriteUpstream(c, a))
  {
    if a.write.WriteOk? { SendingFair(cfg, c, a); }
    SendingParts(cfg, c);
    SendShape(c, a);
    hide DoWriteUpstream, Inv, Common, SendingInv, Sent, SetWant, Fair, FailWith;
    match a.write
    case WriteBlocked =>
    case WriteError => RefusedInv(cfg, c);
    case WriteOk(n) => if c.outUpstreamOff + n < |c.outUpstream| { SendPartInv(cfg, c, n); } else { SendAllInv(cfg, c, n); }
  }

  lemma SendingFair(cfg: Config, c: Conn, a: Answer)
    requires Inv(cfg, c) && c.state == SendingUpstream && Fair(cfg, c, a) && a.write.WriteOk?
    ensures c.outUpstreamOff + a.write.n <= |c.outUpstream|
  {
    hide Common, Asked, Silent, Confirmed;
  }

  lemma SendShape(c: Conn, a: Answer)
    ensures DoWriteUpstream(c, a) ==
            match a.write
            case WriteBlocked => c
            case WriteError => FailWith(c, Error502())
            case WriteOk(n) =>
              if c.outUpstreamOff + n < |c.outUpstream| then Sent(c, n)
              else SetWant(Sent(c, n).(outUpstream := "", outUpstreamOff := 0, state := Relaying), ReadUpstream)
  {
    hide Substr, FailWith;
  }

  lemma RefusedInv(cfg: Config, c: Conn)
    requires Common(cfg, c) && SendingInv(cfg, c) && c.state == SendingUpstream
    ensures Inv(cfg, FailWith(c, Error502()))
  {
    hide Accepted, Build, Needed, Error502, CacheKey, CacheableRequest;
    FailEarly(cfg, c, Error502());
  }

  lemma TapInv(cfg: Config, c: Conn, bytes: string)
    requires |c.cacheAccum| <= cfg.cacheMaxEntryBytes && Tapped(c)
    ensures var t := Tap(cfg, c, bytes);
            && t == c.(cacheAccum := t.cacheAccum, cacheTooBig := t.cacheTooBig)
            && |t.cacheAccum| <= cfg.cacheMaxEntryBytes
            && Tapped(t.(log := t.log.(fromUpstream := t.log.fromUpstream + bytes)))
  {
  }

  // Two connections with the same request side.
  lemma AskedSame(cfg: Config, c: Conn, d: Conn)
    requires d == c.(client := d.client, upstream := d.upstream, state := d.state, want := d.want, epoch := d.epoch,
                     outUpstream := d.outUpstream, outUpstreamOff := d.outUpstreamOff,
                     outClient := d.outClient, outClientOff := d.outClientOff, upstreamEof := d.upstreamEof,
                     cacheAccum := d.cacheAccum, cacheTooBig := d.cacheTooBig, log := d.log)
    requires d.log.request == c.log.request
    ensures Asked(cfg, c) ==> Asked(cfg, d) && Tied(cfg, d)
    ensures Tied(cfg, c) ==> Tied(cfg, d)
  {
    hide Accepted, Build, Needed, Substr, CacheKey, CacheableRequest;
  }

  // Only a relaying connection wants to read its origin.
  lemma ReadsUpstream(cfg: Config, c: Conn)
    requires Inv(cfg, c) && c.want == ReadUpstream
    ensures c.state == Relaying && Common(cfg, c) && RelayingInv(cfg, c)
  {
    hide Common, Asked, Tapped, Confirmed;
  }

  lemma RelayingIsInv(cfg: Config, c: Conn)
    requires c.state == Relaying && Common(cfg, c) && RelayingInv(cfg, c)
    ensures Inv(cfg, c)
  {
    hide Common, RelayingInv;
  }

  lemma DoneIsInv(cfg: Config, c: Conn)
    requires c.state == Done && Common(cfg, c) && DoneInv(cfg, c)
    ensures Inv(cfg, c)
  {
    hide Common, DoneInv;
  }

  // A chunk of the origin's stream, tapped and buffered.
  function Buffered(t: Conn, bytes: string): (d: Conn) {
    t.(outClient := t.outClient + bytes, want := WriteClient, epoch := t.epoch + 1,
       log := t.log.(fromUpstream := t.log.fromUpstream + bytes))
  }

  lemma BufferedCommon(cfg: Config, t: Conn, bytes: string)
    ensures Common(cfg, t) ==> Common(cfg, Buffered(t, bytes))
  {
  }

  lemma TapCommon(cfg: Config, c: Conn, t: Conn)
    requires t == c.(cacheAccum := t.cacheAccum, cacheTooBig := t.cacheTooBig) && |t.cacheAccum| <= cfg.cacheMaxEntryBytes
    ensures Common(cfg, c) ==> Common(cfg, t)
  {
  }

  lemma BufferedRelays(cfg: Config, c: Conn, t: Conn, bytes: string)
    requires RelayingInv(cfg, c) && c.want == ReadUpstream && 0 < |bytes| <= Chunk(cfg)
    requires t == c.(cacheAccum := t.cacheAccum, cacheTooBig := t.cacheTooBig)
    requires Asked(cfg, Buffered(t, bytes)) && Tapped(Buffered(t, bytes))
    ensures RelayingInv(cfg, Buffered(t, bytes))
  {
    hide Asked, Tapped;
    var d := Buffered(t, bytes);
    assert d.outClient == bytes && d.outClient[0..] == bytes;
    assert c.log.toClient + "" == c.log.toClient;
  }

  lemma RelayedChunkInv(cfg: Config, c: Conn, a: Answer)
    requires Inv(cfg, c) && c.want == ReadUpstream && Fair(cfg, c, a) && a.read.ReadOk?
    ensures Inv(cfg, DoReadUpstream(cfg, c, a))
  {
    var bytes := a.read.bytes;
    assert 0 < |bytes| <= Chunk(cfg);
    hide Inv, Asked, Tap, Tapped, Fair;
    ReadsUpstream(cfg, c);
    TapInv(cfg, c, bytes);
    var t := Tap(cfg, c, bytes);
    assert DoReadUpstream(cfg, c, a) == Buffered(t, bytes);
    hide DoReadUpstream;
    AskedSame(cfg, c, Buffered(t, bytes));
    TappedSame(t, Buffered(t, bytes), bytes);
    hide Buffered;
    TapCommon(cfg, c, t);
    BufferedCommon(cfg, t, bytes);
    hide Common;
    BufferedRelays(cfg, c, t, bytes);
    hide RelayingInv;
    assert Buffered(t, bytes).state == Relaying by { BufferedState(t, bytes); }
    RelayingIsInv(cfg, Buffered(t, bytes));
  }

  lemma BufferedState(t: Conn, bytes: string)
    ensures Buffered(t, bytes).state == t.state
  {
  }

  lemma TappedSame(t: Conn, d: Conn, bytes: string)
    requires d.cacheKey == t.cacheKey && d.cacheAccum == t.cacheAccum && d.cacheTooBig == t.cacheTooBig
    requires d.log.fromUpstream == t.log.fromUpstream + bytes
    requires Tapped(t.(log := t.log.(fromUpstream := t.log.fromUpstream + bytes)))
    ensures Tapped(d)
  {
    assert t.log.fromUpstream + "" == t.log.fromUpstream;
  }

  // The origin's stream ends, cleanly or not: everything read has been sent on before.
  lemma StreamEndInv(cfg: Config, c: Conn, eof: bool)
    requires Inv(cfg, c) && c.want == ReadUpstream
    ensures var d := if eof then c.(upstreamEof := true, upstream := None, log := c.log.(eof := true)) else c;
            Inv(cfg, Finish(d)) && d.outClientOff >= |d.outClient|
  {
    hide Inv, Asked, Tapped;
    ReadsUpstream(cfg, c);
    RequestNotEmpty(cfg, c);
    var d := Finish(if eof then c.(upstreamEof := true, upstream := None, log := c.log.(eof := true)) else c);
    AskedSame(cfg, c, d);
    hide Tied;
    assert c.log.toClient + "" == c.log.toClient;
    DoneIsInv(cfg, d);
  }

  lemma DoReadUpstreamInv(cfg: Config, c: Conn, a: Answer)
    requires Inv(cfg, c) && c.want == ReadUpstream && Fair(cfg, c, a)
    ensures Inv(cfg, DoReadUpstream(cfg, c, a))
  {
    hide Inv, Tap, Finish;
    match a.read
    case ReadOk(_) => RelayedChunkInv(cfg, c, a);
    case ReadClosed => StreamEndInv(cfg, c, true);
    case ReadError => StreamEndInv(cfg, c, false);
    case ReadBlocked =>
  }

  lemma SplitWrite(buf: string, off: nat, n: nat)
    requires off + n <= |buf|
    ensures buf[off..] == Substr(buf, off, n) + buf[off + n..]
  {
  }

  lemma Regroup(x: string, y: string, z: string)
    ensures x + (y + z) == (x + y) + z
    ensures x + y <= x + (y + z)
    ensures x + "" == x
  {
  }

  // n bytes of the client buffer have left.
  function Moved(c: Conn, n: nat): (r: Conn) {
    c.(outClientOff := c.outClientOff + n,
       log := c.log.(toClient := c.log.toClient + Substr(c.outClient, c.outClientOff, n)))
  }

  // What is owed to the client is unchanged by moving bytes from the buffer to the wire.
  lemma MovedOwes(c: Conn, n: nat)
    requires c.outClientOff + n <= |c.outClient|
    ensures var m := Moved(c, n);
            m.log.toClient + m.outClient[m.outClientOff..] == c.log.toClient + c.outClient[c.outClientOff..]
    ensures c.outClientOff + n == |c.outClient| ==>
            Moved(c, n).log.toClient == c.log.toClient + c.outClient[c.outClientOff..]
  {
    hide Substr;
    SplitWrite(c.outClient, c.outClientOff, n);
    Regroup(c.log.toClient, Substr(c.outClient, c.outClientOff, n), c.outClient[c.outClientOff + n..]);
  }

  lemma PartialRelayInv(cfg: Config, c: Conn, n: nat)
    requires Inv(cfg, c) && c.want == WriteClient && c.state == Relaying && c.outClientOff + n < |c.outClient|
    ensures Inv(cfg, Moved(c, n))
  {
    hide Asked, Tapped, Substr;
    AskedSame(cfg, c, Moved(c, n));
    TappedKept(c, Moved(c, n));
    MovedOwes(c, n);
  }

  lemma TappedKept(c: Conn, d: Conn)
    requires d.cacheKey == c.cacheKey && d.cacheAccum == c.cacheAccum && d.cacheTooBig == c.cacheTooBig
    requires d.log.fromUpstream == c.log.fromUpstream
    ensures Tapped(c) ==> Tapped(d)
  {
  }

  lemma FlushedRelayInv(cfg: Config, c: Conn, n: nat)
    requires Inv(cfg, c) && c.want == WriteClient && c.state == Relaying && c.outClientOff + n == |c.outClient|
    ensures Inv(cfg, SetWant(Moved(c, n).(outClient := "", outClientOff := 0), ReadUpstream))
  {
    hide Asked, Tapped, Substr;
    var d := SetWant(Moved(c, n).(outClient := "", outClientOff := 0), ReadUpstream);
    MovedOwes(c, n);
    AskedSame(cfg, c, d);
    TappedKept(c, d);
    Regroup(d.log.toClient, "", "");
  }

  lemma PartialLocalInv(cfg: Config, c: Conn, n: nat)
    requires Inv(cfg, c) && c.state == Failing && c.outClientOff + n < |c.outClient|
    ensures Inv(cfg, Moved(c, n))
  {
    hide Asked, Substr;
    AskedSame(cfg, c, Moved(c, n));
    MovedOwes(c, n);
  }

  lemma FlushedLocalInv(cfg: Config, c: Conn, n: nat)
    requires Inv(cfg, c) && c.state == Failing && c.outClientOff + n == |c.outClient|
    ensures Inv(cfg, Finish(Moved(c, n).(outClient := "", outClientOff := 0)))
  {
    hide Asked, Substr;
    AskedSame(cfg, c, Finish(Moved(c, n).(outClient := "", outClientOff := 0)));
    MovedOwes(c, n);
  }

  // Dropping the client part way leaves a prefix of what it was owed.
  lemma CutOffInv(cfg: Config, c: Conn)
    requires Inv(cfg, c) && c.want == WriteClient
    ensures Inv(cfg, Finish(c))
  {
    hide Asked, Tapped;
    AskedSame(cfg, c, Finish(c));
    hide Tied;
    if c.state == Relaying { RequestNotEmpty(cfg, c); }
    Regroup("", c.log.toClient, c.outClient[c.outClientOff..]);
  }

  lemma DoWriteClientInv(cfg: Config, c: Conn, a: Answer)
    requires Inv(cfg, c) && c.want == WriteClient && Fair(cfg, c, a)
    ensures Inv(cfg, DoWriteClient(c, a))
  {
    hide Asked, Tapped, Substr, SentPrefix, GaveUpHonestly, HitHonestly, Confirmed;
    match a.write
    case WriteBlocked =>
    case WriteError => CutOffInv(cfg, c);
    case WriteOk(n) =>
      if c.outClientOff + n < |c.outClient| {
        if c.state == Relaying { PartialRelayInv(cfg, c, n); } else { PartialLocalInv(cfg, c, n); }
      } else {
        if c.state == Relaying { FlushedRelayInv(cfg, c, n); } else { FlushedLocalInv(cfg, c, n); }
      }
  }

  // One on_ready() keeps the invariant.
  lemma StepInv(cfg: Config, c: Conn, a: Answer)
    requires Inv(cfg, c) && c.state != Done && Fair(cfg, c, a)
    ensures Inv(cfg, Step(cfg, c, a))
  {
    hide DoReadClient, DoWriteClient, DoReadUpstream, DoWriteUpstream, FinishResolve, FinishConnect, Asked, Accepted;
    match c.want
    case ReadClient => DoReadClientInv(cfg, c, a);
    case WriteClient => DoWriteClientInv(cfg, c, a);
    case ReadUpstream => DoReadUpstreamInv(cfg, c, a);
    case ReadResolver => FinishResolveInv(cfg, c, a);
    case WriteUpstream =>
      if c.state == Connecting { FinishConnectInv(cfg, c, a); } else { DoWriteUpstreamInv(cfg, c, a); }
    case NoWant =>
  }
}
