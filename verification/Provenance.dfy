// Many connections sharing one response cache: where the bytes of a cache hit come from.
module Provenance {
  import opened Text
  import opened Http
  import opened Basics
  import opened LruSpec
  import opened LruProofs
  import opened RequestProofs
  import opened Reparse
  import opened ConnMachine
  import opened ConnInv
  import opened CacheTraffic

  // An exchange that ended with the origin closing its stream cleanly: the client bytes, the request
  // they parse to, and the whole upstream byte stream.
  datatype Exchange = Exchange(input: string, req: Request, response: string)

  datatype System = System(conns: map<nat, Conn>, cache: State, past: seq<Exchange>)

  datatype Event = Open(id: nat, client: Desc) | Turn(id: nat, a: Answer)

  const START := System(map[], EMPTY, [])

  // One connection is accepted, or one connection gets one on_ready(); anything impossible is
  // skipped, so every list of events is a run.
  ghost function Next(cfg: Config, lim: Limits, s: System, e: Event): (s': System) {
    match e
    case Open(id, client) => if id in s.conns then s else s.(conns := s.conns[id := Init(client)])
    case Turn(id, a) =>
      if id in s.conns && s.conns[id].state != Done && FairIo(cfg, s.conns[id], a)
      then Turned(cfg, lim, s, id, a) else s
  }

  ghost function Turned(cfg: Config, lim: Limits, s: System, id: nat, a: Answer): (s': System)
    requires id in s.conns
  {
    var c := s.conns[id];
    var c' := Step(cfg, c, Served(cfg, c, a, s.cache.es));
    System(s.conns[id := c'],
           ApplyAll(s.cache, CacheOps(cfg, c, a), lim),
           if c'.log.eof && !c.log.eof then s.past + [Exchange(c'.inClient, c'.req, c'.log.fromUpstream)] else s.past)
  }

  ghost function Run(cfg: Config, lim: Limits, events: seq<Event>): (s: System) {
    if events == [] then START else Next(cfg, lim, Run(cfg, lim, events[..|events| - 1]), events[|events| - 1])
  }

  // ---- what makes a response shareable --------------------------------------------------------

  // x is a finished exchange whose whole stream may be shared.
  ghost predicate Shareable(cfg: Config, x: Exchange) {
    && Accepted(x.input, x.req) && CacheableRequest(cfg, x.req)
    && IsPlain200(x.response) && |x.response| <= cfg.cacheMaxEntryBytes
  }

  ghost predicate SameTarget(a: Request, b: Request) {
    a.method_ == b.method_ && a.host == b.host && a.port == b.port && a.path == b.path
  }

  // An entry is the whole response of a past exchange, under that exchange's key.
  ghost predicate Justifies(cfg: Config, x: Exchange, e: Entry) {
    Shareable(cfg, x) && CacheKey(x.req) == e.key && x.response == e.response
  }

  ghost predicate Backed(cfg: Config, past: seq<Exchange>, e: Entry) {
    exists i :: 0 <= i < |past| && Justifies(cfg, past[i], e)
  }

  ghost predicate CacheHonest(cfg: Config, s: System) {
    forall e :: e in s.cache.es ==> Backed(cfg, s.past, e)
  }

  // A connection serving a hit sends the stream of a past exchange for the same target.
  ghost predicate HitBacked(cfg: Config, past: seq<Exchange>, c: Conn) {
    c.log.hit ==>
      && c.log.local.Some?
      && (exists i :: 0 <= i < |past| && Shareable(cfg, past[i]) && SameTarget(past[i].req, c.req)
                      && past[i].response == c.log.local.value)
  }

  ghost predicate SystemInv(cfg: Config, s: System) {
    && (forall id :: id in s.conns ==> Inv(cfg, s.conns[id]) && HitBacked(cfg, s.past, s.conns[id]))
    && CacheHonest(cfg, s)
  }

  // ---- the cache only holds what was put in ---------------------------------------------------

  lemma {:induction false} WithoutIsSubset(es: seq<Entry>, key: string)
    ensures forall e :: e in Without(es, key) ==> e in es
  {
    if es != [] {
      assert es == [es[0]] + es[1..];
      if es[0].key != key { WithoutIsSubset(es[1..], key); }
    }
  }

  lemma {:induction false} EvictIsSubset(es: seq<Entry>, lim: Limits)
    ensures forall e :: e in Evict(es, lim) ==> e in es
  {
    EvictIsLongestFittingPrefix(es, lim);
    assert forall i :: 0 <= i < |Evict(es, lim)| ==> Evict(es, lim)[i] == es[i];
  }

  lemma ApplyEntries(s: State, op: Op, lim: Limits)
    ensures forall e :: e in Apply(s, op, lim).es ==> e in s.es || (op.PutOp? && e == Entry(op.key, op.response))
  {
    hide Evict, Without, Lookup, Has;
    WithoutIsSubset(s.es, op.key);
    match op
    case GetOp(k) =>
    case PutOp(k, v) => EvictIsSubset([Entry(k, v)] + s.es, lim);
  }

  lemma TurnEntries(cfg: Config, c: Conn, a: Answer, s: State, lim: Limits)
    ensures forall e :: e in ApplyAll(s, CacheOps(cfg, c, a), lim).es ==> e in s.es || StoreOf(cfg, c, a) == Some(e)
  {
    hide Apply, LookupKey, StoreOf;
    var ops := CacheOps(cfg, c, a);
    if ops != [] {
      assert ops[..0] == [];
      ApplyEntries(s, ops[0], lim);
    }
  }

  // ---- one turn -------------------------------------------------------------------------------

  // From c to d, no hit, end of stream or new request.
  ghost predicate Kept(c: Conn, d: Conn) {
    d.log.hit == c.log.hit && d.log.eof == c.log.eof && d.req == c.req && d.inClient == c.inClient
  }

  lemma FailKeeps(c: Conn, response: string)
    ensures Kept(c, FailWith(c, response))
  {
  }

  lemma AttemptKeeps(c: Conn, fd: Desc)
    requires c.endpointIdx < |c.endpoints|
    ensures Kept(c, FailedAttempt(c))
    ensures Kept(c, SetWant(Attempt(c).(upstream := Some(fd), state := Connecting), WriteUpstream))
    ensures Kept(c, SetWant(Attempt(c).(upstream := Some(fd), state := SendingUpstream,
                            log := Attempt(c).log.(confirmed := c.log.confirmed + {fd})), WriteUpstream))
  {
  }

  lemma KeptTransitive(c: Conn, d: Conn, e: Conn)
    requires Kept(c, d) && Kept(d, e)
    ensures Kept(c, e)
  {
  }

  lemma {:induction false} BeginConnectKeeps(c: Conn, answers: seq<ConnectAnswer>)
    ensures Kept(c, BeginConnect(c, answers))
    decreases |c.endpoints| - c.endpointIdx
  {
    hide Kept, Attempt, FailedAttempt, FailWith, SetWant, Error502;
    if c.endpointIdx >= |c.endpoints| {
      FailKeeps(c, Error502());
    } else {
      match NextAnswer(answers)
      case ConnectFailed =>
        AttemptKeeps(c, Desc(0, 0));
        BeginConnectKeeps(FailedAttempt(c), LaterAnswers(answers));
        KeptTransitive(c, FailedAttempt(c), BeginConnect(FailedAttempt(c), LaterAnswers(answers)));
      case Connected(fd) => AttemptKeeps(c, fd);
      case InProgress(fd) => AttemptKeeps(c, fd);
    }
  }

  lemma StartConnectingKeeps(c: Conn, eps: seq<Endpoint>, answers: seq<ConnectAnswer>)
    ensures Kept(c, StartConnecting(c, eps, answers))
  {
    hide BeginConnect;
    BeginConnectKeeps(c.(endpoints := eps, endpointIdx := 0, log := c.log.(resolved := true)), answers);
  }

  lemma BeginResolveKeeps(cfg: Config, c: Conn, a: Answer)
    ensures Kept(c, BeginResolve(cfg, c, a))
  {
    hide StartConnecting, Error502;
    if a.lookup.LookupHit? { StartConnectingKeeps(c, a.lookup.eps, a.connects); }
  }

  // A hit appears exactly when a complete request finds its key in the cache, and then the cached
  // bytes become the local response.
  lemma ReadClientHit(cfg: Config, c: Conn, a: Answer)
    requires Inv(cfg, c) && c.want == ReadClient && FairIo(cfg, c, a)
    ensures var d := DoReadClient(cfg, c, a);
            && !d.log.eof
            && (d.log.hit ==> LookupKey(cfg, c, a) == Some(CacheKey(d.req)) && a.cached.Some? && d.log.local == a.cached)
  {
    hide Receive, BeginResolve, CacheableRequest, CacheKey, Whole, Accepted, Waiting;
    if a.read.ReadOk? {
      ReceiveInv(cfg, c, a.read.bytes);
      var s := Receive(cfg, c, a.read.bytes);
      if s.Complete? {
        BeginResolveKeeps(cfg, s.c, a);
        BeginResolveKeeps(cfg, s.c.(cacheKey := CacheKey(s.c.req)), a);
      } else {
        ReturnsNoHit(cfg, c, a.read.bytes);
      }
    }
  }

  lemma BodyStageKeeps(c: Conn)
    ensures Kept(c, BodyStage(c).c)
  {
    hide Build, Needed, Substr;
  }

  // No hit and no end of stream appears.
  ghost predicate Quiet(c: Conn, d: Conn) { d.log.hit == c.log.hit && d.log.eof == c.log.eof }

  lemma QuietFail(c: Conn, req: Request, response: string)
    ensures Quiet(c, FailWith(c.(req := req), response))
  {
  }

  lemma QuietHeader(cfg: Config, c: Conn)
    ensures Quiet(c, HeaderStage(cfg, c).c)
  {
    hide Parse, BodyStage, FailWith, Error400, Error413, Error501;
    var r := Parse(c.inClient, c.req).1;
    QuietFail(c, r, Error400());
    QuietFail(c, r, Error413());
    QuietFail(c, r, Error501());
    BodyStageKeeps(c);
    BodyStageKeeps(c.(req := r, parsed := true));
  }

  lemma ReturnsNoHit(cfg: Config, c: Conn, bytes: string)
    ensures Quiet(c, Receive(cfg, c, bytes).c)
  {
    hide HeaderStage;
    QuietHeader(cfg, c.(inClient := c.inClient + bytes, log := c.log.(fromClient := c.log.fromClient + bytes)));
  }

  // Outside do_read_client, hit, request and local response of a hit do not change.
  ghost predicate HitKept(c: Conn, d: Conn) {
    && d.log.hit == c.log.hit && d.req == c.req && d.inClient == c.inClient
    && (c.log.hit ==> d.log.local == c.log.local)
  }

  lemma LaterTurnKeepsHit(cfg: Config, c: Conn, a: Answer)
    requires Inv(cfg, c) && c.state != Done && c.want != ReadClient
    ensures HitKept(c, Step(cfg, c, a))
    ensures Step(cfg, c, a).log.eof && !c.log.eof ==> c.want == ReadUpstream && a.read.ReadClosed?
  {
    hide FinishResolve, FinishConnect, DoWriteUpstream, DoReadUpstream, DoWriteClient, Asked, Tapped;
    match c.want
    case ReadResolver => FinishResolveKeeps(c, a);
    case WriteUpstream => FinishConnectKeeps(c, a); SendKeeps(c, a);
    case ReadUpstream => RelayKeeps(cfg, c, a);
    case WriteClient => WriteKeeps(c, a);
    case NoWant =>
  }

  lemma FinishResolveKeeps(c: Conn, a: Answer)
    ensures Kept(c, FinishResolve(c, a))
  {
    hide StartConnecting, Error502;
    if a.job.JobOk? { StartConnectingKeeps(c.(job := None), a.job.eps, a.connects); }
  }

  lemma FinishConnectKeeps(c: Conn, a: Answer)
    ensures Kept(c, FinishConnect(c, a))
  {
    hide BeginConnect;
    BeginConnectKeeps(c.(upstream := None, log := c.log.(failed := c.log.failed + LastTried(c))), a.connects);
  }

  lemma SendKeeps(c: Conn, a: Answer)
    ensures Kept(c, DoWriteUpstream(c, a))
  {
    hide Substr, Error502;
  }

  lemma RelayKeeps(cfg: Config, c: Conn, a: Answer)
    ensures HitKept(c, DoReadUpstream(cfg, c, a))
    ensures DoReadUpstream(cfg, c, a).log.eof && !c.log.eof ==> a.read.ReadClosed?
  {
    if a.read.ReadOk? { TapKeeps(cfg, c, a.read.bytes); }
    hide Tap;
  }

  lemma TapKeeps(cfg: Config, c: Conn, bytes: string)
    ensures var t := Tap(cfg, c, bytes); t.log == c.log && t.req == c.req && t.inClient == c.inClient
  {
  }

  lemma WriteKeeps(c: Conn, a: Answer)
    ensures HitKept(c, DoWriteClient(c, a))
    ensures DoWriteClient(c, a).log.eof == c.log.eof
  {
    hide Substr;
  }

  // An entry about to be stored is the whole stream of the exchange that is about to end.
  lemma StoredIsWholeStream(cfg: Config, c: Conn, a: Answer)
    requires Inv(cfg, c) && c.state != Done && StoreOf(cfg, c, a).Some?
    ensures Step(cfg, c, a).log.eof && !c.log.eof
    ensures var d := Step(cfg, c, a);
            Justifies(cfg, Exchange(d.inClient, d.req, d.log.fromUpstream), StoreOf(cfg, c, a).value)
  {
    hide Accepted, Build, Needed, Find, CacheKey, CacheableRequest;
  }

  // ---- every run ------------------------------------------------------------------------------

  lemma BackedGrows(cfg: Config, past: seq<Exchange>, more: seq<Exchange>, e: Entry, c: Conn)
    ensures Backed(cfg, past, e) ==> Backed(cfg, past + more, e)
    ensures HitBacked(cfg, past, c) ==> HitBacked(cfg, past + more, c)
  {
    hide Shareable, Justifies;
    if Backed(cfg, past, e) {
      var i :| 0 <= i < |past| && Justifies(cfg, past[i], e);
      assert (past + more)[i] == past[i];
    }
    if HitBacked(cfg, past, c) && c.log.hit {
      var i :| 0 <= i < |past| && Shareable(cfg, past[i]) && SameTarget(past[i].req, c.req)
               && past[i].response == c.log.local.value;
      assert (past + more)[i] == past[i];
    }
  }

  // What the lookup of a turn returns is backed, and so not empty.
  lemma ServedIsBacked(cfg: Config, s: System, c: Conn, a: Answer)
    requires CacheHonest(cfg, s)
    ensures var v := Served(cfg, c, a, s.cache.es).cached;
            v.Some? ==> LookupKey(cfg, c, a).Some? && v.value != "" && Backed(cfg, s.past, Entry(LookupKey(cfg, c, a).value, v.value))
  {
    hide LookupKey, Has, Shareable;
    var v := Served(cfg, c, a, s.cache.es).cached;
    if v.Some? {
      var e := Entry(LookupKey(cfg, c, a).value, v.value);
      assert e in s.cache.es;
      var i :| 0 <= i < |s.past| && Justifies(cfg, s.past[i], e);
      PlainIsNotEmpty(cfg, s.past[i]);
    }
  }

  lemma PlainIsNotEmpty(cfg: Config, x: Exchange)
    requires Shareable(cfg, x)
    ensures x.response != ""
  {
    hide Find, Accepted, CacheableRequest;
  }

  lemma SameKeySameTarget(cfg: Config, past: seq<Exchange>, c: Conn, v: string)
    requires Backed(cfg, past, Entry(CacheKey(c.req), v)) && Accepted(c.inClient, c.req)
    requires c.log.local == Some(v)
    ensures HitBacked(cfg, past, c)
  {
    hide Accepted, IsPlain200, CacheableRequest, CacheKey;
    var i :| 0 <= i < |past| && Justifies(cfg, past[i], Entry(CacheKey(c.req), v));
    CacheKeyInjective(past[i].input, past[i].req, c.inClient, c.req);
  }

  // The connection that had the turn.
  lemma TurnedConn(cfg: Config, s: System, id: nat, a: Answer)
    requires SystemInv(cfg, s) && id in s.conns && s.conns[id].state != Done && FairIo(cfg, s.conns[id], a)
    ensures var c' := Step(cfg, s.conns[id], Served(cfg, s.conns[id], a, s.cache.es));
            Inv(cfg, c') && HitBacked(cfg, s.past, c')
  {
    hide Step, LookupKey, CacheKey, Backed, Shareable, Accepted, Build, Lookup, Needed, Substr, Find, CacheableRequest;
    var c, a' := s.conns[id], Served(cfg, s.conns[id], a, s.cache.es);
    ServedIsBacked(cfg, s, c, a);
    StepInv(cfg, c, a');
    var d := Step(cfg, c, a');
    if c.want == ReadClient {
      ReadStep(cfg, c, a');
      SameLookup(cfg, c, a, s.cache.es);
      if d.log.hit { SameKeySameTarget(cfg, s.past, d, d.log.local.value); }
    } else {
      LaterTurnKeepsHit(cfg, c, a');
    }
  }

  lemma ReadStep(cfg: Config, c: Conn, a: Answer)
    requires Inv(cfg, c) && c.want == ReadClient && FairIo(cfg, c, a)
    ensures var d := Step(cfg, c, a);
            d.log.hit ==> LookupKey(cfg, c, a) == Some(CacheKey(d.req)) && a.cached.Some? && d.log.local == a.cached
    ensures !Step(cfg, c, a).log.eof
  {
    hide DoReadClient, LookupKey, CacheKey;
    ReadClientHit(cfg, c, a);
  }

  // The key looked up and the entry stored do not depend on what the cache answers.
  lemma SameLookup(cfg: Config, c: Conn, a: Answer, es: seq<Entry>)
    ensures LookupKey(cfg, c, Served(cfg, c, a, es)) == LookupKey(cfg, c, a)
    ensures StoreOf(cfg, c, Served(cfg, c, a, es)) == StoreOf(cfg, c, a)
  {
    hide Receive, Storable, Lookup;
  }

  lemma TurnedCache(cfg: Config, lim: Limits, s: System, id: nat, a: Answer)
    requires SystemInv(cfg, s) && id in s.conns && s.conns[id].state != Done && FairIo(cfg, s.conns[id], a)
    ensures CacheHonest(cfg, Turned(cfg, lim, s, id, a))
  {
    hide Step, LookupKey, StoreOf, Shareable, ApplyAll, CacheOps, Lookup, Inv, HitBacked, Served;
    var c, a' := s.conns[id], Served(cfg, s.conns[id], a, s.cache.es);
    var s' := Turned(cfg, lim, s, id, a);
    TurnEntries(cfg, c, a, s.cache, lim);
    SameLookup(cfg, c, a, s.cache.es);
    forall e | e in s'.cache.es ensures Backed(cfg, s'.past, e) {
      if e in s.cache.es {
        BackedGrows(cfg, s.past, s'.past[|s.past|..], e, c);
        assert s'.past == s.past + s'.past[|s.past|..];
      } else {
        StoredIsWholeStream(cfg, c, a');
        assert Justifies(cfg, s'.past[|s.past|], e);
      }
    }
  }

  lemma NextInv(cfg: Config, lim: Limits, s: System, e: Event)
    requires SystemInv(cfg, s)
    ensures SystemInv(cfg, Next(cfg, lim, s, e))
    ensures s.past <= Next(cfg, lim, s, e).past
  {
    hide Step, Inv, CacheHonest, ApplyAll, CacheOps, Served, FairIo, HitBacked, Init;
    match e
    case Open(id, client) =>
      InitInv(cfg, client);
      FreshHasNoHit(cfg, s.past, client);
      HonestSame(cfg, s, Next(cfg, lim, s, e));
    case Turn(id, a) =>
      if id in s.conns && s.conns[id].state != Done && FairIo(cfg, s.conns[id], a) {
        TurnedConn(cfg, s, id, a);
        TurnedCache(cfg, lim, s, id, a);
        var s' := Turned(cfg, lim, s, id, a);
        forall j | j in s'.conns ensures HitBacked(cfg, s'.past, s'.conns[j]) {
          BackedGrows(cfg, s.past, s'.past[|s.past|..], Entry("", ""), s'.conns[j]);
          assert s'.past == s.past + s'.past[|s.past|..];
        }
      }
  }

  lemma FreshHasNoHit(cfg: Config, past: seq<Exchange>, client: Desc)
    ensures HitBacked(cfg, past, Init(client))
  {
  }

  lemma HonestSame(cfg: Config, s: System, s': System)
    requires CacheHonest(cfg, s) && s'.past == s.past && s'.cache == s.cache
    ensures CacheHonest(cfg, s')
  {
  }

  lemma {:induction false} RunInv(cfg: Config, lim: Limits, events: seq<Event>)
    ensures SystemInv(cfg, Run(cfg, lim, events))
  {
    hide Next, SystemInv;
    if events == [] {
      StartInv(cfg);
    } else {
      RunInv(cfg, lim, events[..|events| - 1]);
      NextInv(cfg, lim, Run(cfg, lim, events[..|events| - 1]), events[|events| - 1]);
    }
  }

  lemma StartInv(cfg: Config)
    ensures SystemInv(cfg, START)
  {
  }

  // In every run of any number of connections over one cache, of any size and however it evicts:
  // every response served from the cache is, byte for byte, the whole upstream stream of a past
  // exchange that the origin closed cleanly, a 200 that sets no cookie and fits the entry limit, for
  // a cacheable request with the same method, host, port and path.
  lemma HitsAreWholePastResponses(cfg: Config, lim: Limits, events: seq<Event>, id: nat)
    requires id in Run(cfg, lim, events).conns && Run(cfg, lim, events).conns[id].log.hit
    ensures HitBacked(cfg, Run(cfg, lim, events).past, Run(cfg, lim, events).conns[id])
    ensures var c := Run(cfg, lim, events).conns[id]; c.log.toClient <= c.log.local.value
  {
    hide Run, Asked, Shareable, Tapped;
    RunInv(cfg, lim, events);
  }

  // A past exchange is the record of a connection that saw a clean end of stream: its response is
  // all that connection ever read from its origin, and all of it went to that connection's client.
  lemma PastIsReal(cfg: Config, lim: Limits, s: System, id: nat, a: Answer)
    requires SystemInv(cfg, s) && id in s.conns && s.conns[id].state != Done && FairIo(cfg, s.conns[id], a)
    ensures var s' := Turned(cfg, lim, s, id, a);
            s'.past != s.past ==>
              && s'.past == s.past + [Exchange(s'.conns[id].inClient, s'.conns[id].req, s'.conns[id].log.fromUpstream)]
              && s'.conns[id].state == Done && s'.conns[id].log.toClient == s'.conns[id].log.fromUpstream
              && s'.conns[id].inClient == s'.conns[id].log.fromClient
  {
    hide Step, ApplyAll, CacheOps, Served, Asked, HitBacked, CacheHonest, Tapped;
    TurnedConn(cfg, s, id, a);
  }
}
