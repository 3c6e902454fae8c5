// The connection state machine of src/connection.cpp as a function: what one on_ready() does to a
// connection, given the answers the outside world gives during that call.
module ConnMachine {
  import opened Text
  import opened Http
  import opened Basics
  import opened LruSpec

  datatype Config = Config(
    maxHeaderBytes: nat, maxBodyBytes: nat, ioChunkBytes: nat,
    asyncResolve: bool,
    cacheEnabled: bool, cacheMaxEntryBytes: nat,
    hasCache: bool)  // a ResponseCache was passed in

  // An open descriptor: its number and which opening of that number it is.
  datatype Desc = Desc(num: nat, gen: nat)

  datatype Endpoint = Endpoint(addr: string)

  datatype Want = ReadClient | WriteClient | ReadUpstream | WriteUpstream | ReadResolver | NoWant
  datatype Phase = ReadingRequest | Resolving | Connecting | SendingUpstream | Relaying | Failing | Done

  // ---- what the world can answer --------------------------------------------------------------

  datatype ReadAnswer = ReadOk(bytes: string) | ReadBlocked | ReadClosed | ReadError
  datatype WriteAnswer = WriteOk(n: nat) | WriteBlocked | WriteError
  datatype ConnectAnswer = Connected(fd: Desc) | InProgress(fd: Desc) | ConnectFailed
  datatype LookupAnswer = LookupHit(eps: seq<Endpoint>) | LookupPending(readEnd: Desc) | LookupFailed
  datatype JobAnswer = JobNotReady | JobOk(eps: seq<Endpoint>) | JobFailed

  // The answers to everything one on_ready() might ask; a call asks for some of them only.  The k-th
  // start_connect of the call gets connects[k], and fails past the end of the list.
  datatype Answer = Answer(
    read: ReadAnswer, write: WriteAnswer,
    cached: Option<string>,
    lookup: LookupAnswer, job: JobAnswer,
    soOk: bool, connects: seq<ConnectAnswer>)

  // What has passed through the connection so far.  It takes no part in any decision.
  datatype Log = Log(
    fromClient: string, fromUpstream: string, toClient: string, toUpstream: string,
    request: Option<string>,   // the rebuilt request, once complete
    local: Option<string>,     // the error or cached response, once chosen
    hit: bool,                 // that response came from the cache
    resolved: bool,            // the address list is in
    tried: seq<Endpoint>,      // start_connect calls, in order
    failed: seq<Endpoint>,     // those known to have failed, in order
    confirmed: set<Desc>,      // sockets whose connect is known to have worked
    written: set<Desc>,        // sockets request bytes went to
    eof: bool)                 // the origin closed its stream cleanly

  datatype Conn = Conn(
    client: Option<Desc>, upstream: Option<Desc>, job: Option<Desc>,
    state: Phase, want: Want, epoch: nat,
    req: Request, parsed: bool,
    endpoints: seq<Endpoint>, endpointIdx: nat,
    inClient: string,
    outUpstream: string, outUpstreamOff: nat,
    outClient: string, outClientOff: nat,
    upstreamEof: bool,
    cacheKey: string, cacheAccum: string, cacheTooBig: bool,
    log: Log)
  {
    // want_fd(); None is -1.
    function WantDesc(): (d: Option<Desc>) {
      match want
      case ReadClient | WriteClient => client
      case ReadUpstream | WriteUpstream => upstream
      case ReadResolver => job
      case NoWant => None
    }

    predicate WantWrite() { want == WriteClient || want == WriteUpstream }
  }

  const NO_LOG := Log("", "", "", "", None, None, false, false, [], [], {}, {}, false)

  function Init(client: Desc): (c: Conn) {
    Conn(Some(client), None, None, ReadingRequest, ReadClient, 0, FRESH, false, [], 0, "", "", 0, "", 0,
         false, "", "", false, NO_LOG)
  }

  // ---- helpers of the handlers ----------------------------------------------------------------

  function Error400(): (s: string) ensures s != "" { ErrorResponse(400, "Bad Request") }
  function Error413(): (s: string) ensures s != "" { ErrorResponse(413, "Payload Too Large") }
  function Error501(): (s: string) ensures s != "" { ErrorResponse(501, "Not Implemented") }
  function Error502(): (s: string) ensures s != "" { ErrorResponse(502, "Bad Gateway") }

  function Chunk(cfg: Config): (n: nat) { if cfg.ioChunkBytes < 65536 then cfg.ioChunkBytes else 65536 }

  // std::string::substr, which clips the length.
  function Substr(s: string, pos: nat, n: nat): (r: string)
    ensures |r| <= n
  {
    if pos >= |s| then "" else if pos + n <= |s| then s[pos..pos + n] else s[pos..]
  }

  function SetWant(c: Conn, w: Want): (r: Conn) { c.(want := w, epoch := c.epoch + 1) }

  function FailWith(c: Conn, response: string): (r: Conn) {
    SetWant(c.(upstream := None, outClient := response, outClientOff := 0, state := Failing,
               log := c.log.(local := Some(response))), WriteClient)
  }

  function Finish(c: Conn): (r: Conn) {
    SetWant(c.(state := Done, job := None, upstream := None, client := None), NoWant)
  }

  // ---- reading the request --------------------------------------------------------------------

  // Where do_read_client stands after looking at the bytes: it returns, or the request is complete
  // and rebuilt.
  datatype Stage = Returns(c: Conn) | Complete(c: Conn)

  // header_bytes + content_length in size_t.
  function Needed(req: Request): (n: nat) { (req.headerBytes + req.contentLength) % (SIZE_MAX + 1) }

  function BodyStage(c: Conn): (s: Stage) {
    if |c.inClient| < Needed(c.req) then Returns(c)
    else
      var out := Build(c.req, Substr(c.inClient, c.req.headerBytes, c.req.contentLength));
      Complete(c.(outUpstream := out, outUpstreamOff := 0, log := c.log.(request := Some(out))))
  }

  function HeaderStage(cfg: Config, c: Conn): (s: Stage) {
    if c.parsed then BodyStage(c)
    else
      var p := Parse(c.inClient, c.req);
      var c' := c.(req := p.1);
      match p.0
      case Incomplete =>
        if |c.inClient| > cfg.maxHeaderBytes then Returns(FailWith(c', Error400()))
        else Returns(c')
      case BadRequest => Returns(FailWith(c', Error400()))
      case NotImplemented => Returns(FailWith(c', Error501()))
      case Ok =>
        if p.1.contentLength > cfg.maxBodyBytes then Returns(FailWith(c', Error413()))
        else BodyStage(c'.(parsed := true))
  }

  function Receive(cfg: Config, c: Conn, bytes: string): (s: Stage) {
    HeaderStage(cfg, c.(inClient := c.inClient + bytes, log := c.log.(fromClient := c.log.fromClient + bytes)))
  }

  predicate CacheableRequest(cfg: Config, req: Request) {
    && cfg.cacheEnabled
    && (req.method_ == "GET" || req.method_ == "HEAD")
    && HeaderValue(req.headers, "Authorization") == ""
    && HeaderValue(req.headers, "Cookie") == ""
  }

  function Dispatch(cfg: Config, c: Conn, a: Answer): (r: Conn) {
    if cfg.hasCache && CacheableRequest(cfg, c.req) then
      var k := c.(cacheKey := CacheKey(c.req));
      match a.cached
      case Some(v) => FailWith(k.(log := k.log.(hit := true)), v)
      case None => BeginResolve(cfg, k, a)
    else BeginResolve(cfg, c, a)
  }

  function DoReadClient(cfg: Config, c: Conn, a: Answer): (r: Conn) {
    match a.read
    case ReadBlocked => c
    case ReadError => Finish(c)
    case ReadClosed => Finish(c)
    case ReadOk(bytes) =>
      match Receive(cfg, c, bytes)
      case Returns(c') => c'
      case Complete(c') => Dispatch(cfg, c', a)
  }

  // The key this call looks up in the cache, if it looks one up.
  function LookupKey(cfg: Config, c: Conn, a: Answer): (k: Option<string>) {
    if c.want != ReadClient || !a.read.ReadOk? then None
    else
      match Receive(cfg, c, a.read.bytes)
      case Returns(_) => None
      case Complete(c') =>
        if cfg.hasCache && CacheableRequest(cfg, c'.req) then Some(CacheKey(c'.req)) else None
  }

  // ---- resolving and connecting ---------------------------------------------------------------

  function StartConnecting(c: Conn, eps: seq<Endpoint>, answers: seq<ConnectAnswer>): (r: Conn) {
    BeginConnect(c.(endpoints := eps, endpointIdx := 0, log := c.log.(resolved := true)), answers)
  }

  function BeginResolve(cfg: Config, c: Conn, a: Answer): (r: Conn) {
    match a.lookup
    case LookupHit(eps) => StartConnecting(c, eps, a.connects)
    case LookupPending(fd) =>
      // Only the asynchronous resolver can leave a lookup pending.
      if cfg.asyncResolve then SetWant(c.(job := Some(fd), state := Resolving), ReadResolver)
      else FailWith(c, Error502())
    case LookupFailed => FailWith(c, Error502())
  }

  function FinishResolve(c: Conn, a: Answer): (r: Conn) {
    match a.job
    case JobNotReady => c
    case JobOk(eps) => StartConnecting(c.(job := None), eps, a.connects)
    case JobFailed => FailWith(c.(job := None), Error502())
  }

  // The next candidate is used up.
  function Attempt(c: Conn): (r: Conn)
    requires c.endpointIdx < |c.endpoints|
  {
    c.(endpointIdx := c.endpointIdx + 1, log := c.log.(tried := c.log.tried + [c.endpoints[c.endpointIdx]]))
  }

  function FailedAttempt(c: Conn): (r: Conn)
    requires c.endpointIdx < |c.endpoints|
    ensures r.endpoints == c.endpoints && r.endpointIdx == c.endpointIdx + 1
  {
    Attempt(c).(log := Attempt(c).log.(failed := c.log.failed + [c.endpoints[c.endpointIdx]]))
  }

  function NextAnswer(answers: seq<ConnectAnswer>): (a: ConnectAnswer) {
    if answers == [] then ConnectFailed else answers[0]
  }

  function LaterAnswers(answers: seq<ConnectAnswer>): (r: seq<ConnectAnswer>) {
    if answers == [] then [] else answers[1..]
  }

  function BeginConnect(c: Conn, answers: seq<ConnectAnswer>): (r: Conn)
    decreases |c.endpoints| - c.endpointIdx
  {
    if c.endpointIdx >= |c.endpoints| then FailWith(c, Error502())
    else
      match NextAnswer(answers)
      case ConnectFailed => BeginConnect(FailedAttempt(c), LaterAnswers(answers))
      case Connected(fd) =>
        SetWant(Attempt(c).(upstream := Some(fd), state := SendingUpstream,
                            log := Attempt(c).log.(confirmed := c.log.confirmed + {fd})), WriteUpstream)
      case InProgress(fd) =>
        SetWant(Attempt(c).(upstream := Some(fd), state := Connecting), WriteUpstream)
  }

  // The candidate the pending connect is for.
  function LastTried(c: Conn): (eps: seq<Endpoint>) {
    if 0 < c.endpointIdx <= |c.endpoints| then [c.endpoints[c.endpointIdx - 1]] else []
  }

  function DescSet(d: Option<Desc>): (s: set<Desc>) { if d.Some? then {d.value} else {} }

  function FinishConnect(c: Conn, a: Answer): (r: Conn) {
    if !a.soOk then
      BeginConnect(c.(upstream := None, log := c.log.(failed := c.log.failed + LastTried(c))), a.connects)
    else
      SetWant(c.(state := SendingUpstream, log := c.log.(confirmed := c.log.confirmed + DescSet(c.upstream))),
              WriteUpstream)
  }

  // ---- moving bytes ---------------------------------------------------------------------------

  function DoWriteUpstream(c: Conn, a: Answer): (r: Conn) {
    match a.write
    case WriteBlocked => c
    case WriteError => FailWith(c, Error502())
    case WriteOk(n) =>
      var c' := c.(outUpstreamOff := c.outUpstreamOff + n,
                   log := c.log.(toUpstream := c.log.toUpstream + Substr(c.outUpstream, c.outUpstreamOff, n),
                                 written := c.log.written + DescSet(c.upstream)));
      if c'.outUpstreamOff < |c'.outUpstream| then c'
      else SetWant(c'.(outUpstream := "", outUpstreamOff := 0, state := Relaying), ReadUpstream)
  }

  // A 200 that sets no cookie.
  predicate IsPlain200(r: string) {
    && (Substr(r, 0, 9) == "HTTP/1.1 " || Substr(r, 0, 9) == "HTTP/1.0 ")
    && Substr(r, 9, 3) == "200"
    && Find(r, "\r\nSet-Cookie:") < 0 && Find(r, "\r\nset-cookie:") < 0
  }

  // store_in_cache(): only a clean, small enough 200 without a cookie.
  predicate Storable(cfg: Config, c: Conn) {
    cfg.hasCache && c.cacheKey != "" && !c.cacheTooBig && c.upstreamEof && IsPlain200(c.cacheAccum)
  }

  // The entry this call puts into the cache, if it puts one.
  function StoreOf(cfg: Config, c: Conn, a: Answer): (e: Option<Entry>) {
    if c.want == ReadUpstream && a.read.ReadClosed? && Storable(cfg, c.(upstreamEof := true))
    then Some(Entry(c.cacheKey, c.cacheAccum)) else None
  }

  // The cache tap: a copy of the stream, given up once it outgrows the entry limit.
  function Tap(cfg: Config, c: Conn, bytes: string): (r: Conn) {
    if c.cacheKey == "" || c.cacheTooBig then c
    else if |c.cacheAccum| + |bytes| > cfg.cacheMaxEntryBytes then c.(cacheTooBig := true, cacheAccum := "")
    else c.(cacheAccum := c.cacheAccum + bytes)
  }

  function DoReadUpstream(cfg: Config, c: Conn, a: Answer): (r: Conn) {
    match a.read
    case ReadBlocked => c
    case ReadError => Finish(c)
    case ReadClosed =>
      var c' := c.(upstreamEof := true, upstream := None, log := c.log.(eof := true));
      if c'.outClientOff >= |c'.outClient| then Finish(c') else SetWant(c', WriteClient)
    case ReadOk(bytes) =>
      var t := Tap(cfg, c, bytes);
      SetWant(t.(outClient := t.outClient + bytes,
                 log := t.log.(fromUpstream := t.log.fromUpstream + bytes)), WriteClient)
  }

  function DoWriteClient(c: Conn, a: Answer): (r: Conn) {
    match a.write
    case WriteBlocked => c
    case WriteError => Finish(c)
    case WriteOk(n) =>
      var c' := c.(outClientOff := c.outClientOff + n,
                   log := c.log.(toClient := c.log.toClient + Substr(c.outClient, c.outClientOff, n)));
      if c'.outClientOff < |c'.outClient| then c'
      else
        var d := c'.(outClient := "", outClientOff := 0);
        if d.state == Failing || d.upstreamEof then Finish(d) else SetWant(d, ReadUpstream)
  }

  // on_ready().
  function Step(cfg: Config, c: Conn, a: Answer): (r: Conn) {
    match c.want
    case ReadClient => DoReadClient(cfg, c, a)
    case WriteClient => DoWriteClient(c, a)
    case ReadUpstream => DoReadUpstream(cfg, c, a)
    case ReadResolver => FinishResolve(c, a)
    case WriteUpstream => if c.state == Connecting then FinishConnect(c, a) else DoWriteUpstream(c, a)
    case NoWant => Finish(c)
  }

  // ---- what the operating system and the cache promise ----------------------------------------

  ghost predicate FairRead(cfg: Config, r: ReadAnswer) {
    r.ReadOk? ==> 1 <= |r.bytes| <= Chunk(cfg)
  }

  // A write moves at least one byte of a non-empty buffer, and no more than it holds.
  ghost predicate FairWrite(w: WriteAnswer, remaining: int) {
    w.WriteOk? ==> w.n <= remaining && (remaining > 0 ==> w.n > 0)
  }

  ghost predicate FairIo(cfg: Config, c: Conn, a: Answer) {
    && FairRead(cfg, a.read)
    && (c.want == WriteClient ==> FairWrite(a.write, |c.outClient| - c.outClientOff))
    && (c.want == WriteUpstream && c.state != Connecting ==> FairWrite(a.write, |c.outUpstream| - c.outUpstreamOff))
  }

  // The cache holds no empty response; module Provenance proves it of the real cache.
  ghost predicate Fair(cfg: Config, c: Conn, a: Answer) {
    FairIo(cfg, c, a) && (a.cached.Some? ==> a.cached.value != "")
  }
}
