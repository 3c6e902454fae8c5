// How the response cache takes part in a call of on_ready().
module CacheTraffic {
  import opened Basics
  import opened LruSpec
  import opened ConnMachine

  // The answers of a call whose cache lookup is served by `es`.
  function Served(cfg: Config, c: Conn, a: Answer, es: seq<Entry>): (r: Answer) {
    match LookupKey(cfg, c, a)
    case None => a.(cached := None)
    case Some(k) => a.(cached := Lookup(es, k))
  }

  // What the call does to the cache.
  function CacheOps(cfg: Config, c: Conn, a: Answer): (ops: seq<Op>) {
    match LookupKey(cfg, c, a)
    case Some(k) => [GetOp(k)]
    case None =>
      match StoreOf(cfg, c, a)
      case Some(e) => [PutOp(e.key, e.response)]
      case None => []
  }

  function ApplyAll(s: State, ops: seq<Op>, lim: Limits): (r: State) {
    if ops == [] then s else Apply(ApplyAll(s, ops[..|ops| - 1], lim), ops[|ops| - 1], lim)
  }
}

// The Connection class of src/connection.hpp.  Its members are updated in place by the handlers of
// the source, each proved to do what ConnMachine says; they are kept in the groups in which the
// header declares them.
module ConnectionClass {
  import opened Text
  import opened Http
  import opened Basics
  import opened LruSpec
  import opened LruCache
  import M = ConnMachine
  import opened CacheTraffic
  import opened ConnMachine

  datatype Sockets = Sockets(client: Option<Desc>, upstream: Option<Desc>)
  datatype Control = Control(state: Phase, want: Want, epoch: nat)
  datatype Intake = Intake(req: Request, parsed: bool, inClient: string)
  datatype Candidates = Candidates(job: Option<Desc>, endpoints: seq<Endpoint>, idx: nat)
  datatype Outbox = Outbox(upstream: string, upstreamOff: nat, client: string, clientOff: nat, eof: bool)
  datatype CacheTap = CacheTap(key: string, accum: string, tooBig: bool)

  class Connection {
    const cfg: Config
    const cache: LruCacheImpl?
    var fd: Sockets
    var ctl: Control
    var intake: Intake
    var cand: Candidates
    var out: Outbox
    var tap: CacheTap
    ghost var log: Log

    ghost function Value(): (c: Conn)
      reads this
    {
      Conn(fd.client, fd.upstream, cand.job, ctl.state, ctl.want, ctl.epoch, intake.req, intake.parsed,
           cand.endpoints, cand.idx, intake.inClient, out.upstream, out.upstreamOff, out.client, out.clientOff,
           out.eof, tap.key, tap.accum, tap.tooBig, log)
    }

    ghost predicate Valid()
      reads this, cache
    {
      && cfg.hasCache == (cache != null)
      && (cache != null ==> cache.Valid())
    }

    constructor (client: Desc, cfg: Config, cache: LruCacheImpl?)
      requires cfg.hasCache == (cache != null) && (cache != null ==> cache.Valid())
      ensures Valid() && Value() == Init(client) && this.cfg == cfg && this.cache == cache
    {
      this.cfg, this.cache := cfg, cache;
      fd := Sockets(Some(client), None);
      ctl := Control(ReadingRequest, ReadClient, 0);
      intake := Intake(FRESH, false, "");
      cand := Candidates(None, [], 0);
      out := Outbox("", 0, "", 0, false);
      tap := CacheTap("", "", false);
      log := NO_LOG;
    }

    // want_fd() and want_write().
    method Wanted() returns (wanted: Option<Desc>, write: bool)
      ensures wanted == Value().WantDesc() && write == Value().WantWrite()
    {
      wanted := match ctl.want
        case ReadClient | WriteClient => fd.client
        case ReadUpstream | WriteUpstream => fd.upstream
        case ReadResolver => cand.job
        case NoWant => None;
      write := ctl.want == WriteClient || ctl.want == WriteUpstream;
    }

    method SetWant(w: Want)
      modifies this`ctl
      ensures Value() == M.SetWant(old(Value()), w)
    {
      ctl := ctl.(want := w, epoch := ctl.epoch + 1);
    }

    method FailWith(response: string)
      modifies this`fd, this`out, this`ctl, this`log
      ensures Value() == M.FailWith(old(Value()), response)
    {
      fd := fd.(upstream := None);
      out := out.(client := response, clientOff := 0);
      ctl := ctl.(state := Failing);
      log := log.(local := Some(response));
      SetWant(WriteClient);
    }

    method Finish()
      modifies this`fd, this`cand, this`ctl
      ensures Value() == M.Finish(old(Value()))
    {
      ctl := ctl.(state := Done);
      SetWant(NoWant);
      cand := cand.(job := None);
      fd := fd.(upstream := None);
      fd := fd.(client := None);
    }

    // ---- do_read_client -----------------------------------------------------------------------

    // The part of do_read_client between the read and the body check.
    method TakeHeader() returns (go: bool)
      modifies this`intake, this`fd, this`out, this`ctl, this`log
      ensures HeaderStage(cfg, old(Value())) == if go then BodyStage(Value()) else Returns(Value())
    {
      hide Parse, BodyStage, Error400, Error413, Error501;
      if !intake.parsed {
        var pr, r := ParseRequest(intake.inClient, intake.req);
        intake := intake.(req := r);
        if pr == Incomplete {
          if |intake.inClient| > cfg.maxHeaderBytes { FailWith(Error400()); }
          return false;
        }
        if pr == BadRequest { FailWith(Error400()); return false; }
        if pr == NotImplemented { FailWith(Error501()); return false; }
        if r.contentLength > cfg.maxBodyBytes { FailWith(Error413()); return false; }
        intake := intake.(parsed := true);
      }
      return true;
    }

    // Waits for the whole body, then rebuilds the request.
    method TakeBody() returns (complete: bool)
      modifies this`out, this`log
      ensures complete == BodyStage(old(Value())).Complete?
      ensures Value() == BodyStage(old(Value())).c
    {
      hide Build, Substr, Needed;
      var needed := Needed(intake.req);
      if |intake.inClient| < needed { return false; }
      var body := Substr(intake.inClient, intake.req.headerBytes, intake.req.contentLength);
      var text := BuildUpstreamRequest(intake.req, body);
      out := out.(upstream := text, upstreamOff := 0);
      log := log.(request := Some(text));
      return true;
    }

    // The cache lookup of a complete request, then the resolver.
    method DispatchRequest(a: Answer)
      requires Valid()
      modifies this, cache
      ensures Valid()
      ensures Value() == Dispatch(cfg, old(Value()), if cache != null then Looked(cfg, old(Value()), a, old(cache.Contents())) else a)
      ensures cache != null ==>
                cache.Value() == ApplyAll(old(cache.Value()), LookOps(cfg, old(Value())), cache.limits)
    {
      hide CacheableRequest, CacheKey, M.BeginResolve, InStep, Lookup, Apply, Bytes, Items;
      if cache != null && CacheableRequest(cfg, intake.req) {
        tap := tap.(key := CacheKey(intake.req));
        var cached := cache.Get(tap.key);
        OneOp(old(cache.Value()), GetOp(tap.key), cache.limits);
        if cached.Some? {
          log := log.(hit := true);
          FailWith(cached.value);
          return;
        }
      }
      ResolveIgnoresCached(cfg, Value(), a);
      BeginResolve(a);
    }

    method DoReadClient(a: Answer)
      requires Valid() && ctl.want == ReadClient
      modifies this, cache
      ensures Valid()
      ensures Value() == M.DoReadClient(cfg, old(Value()),
                           if cache != null then Served(cfg, old(Value()), a, old(cache.Contents())) else a)
      ensures cache != null ==>
                cache.Value() == ApplyAll(old(cache.Value()), CacheOps(cfg, old(Value()), a), cache.limits)
    {
      hide HeaderStage, BodyStage, Dispatch, CacheableRequest, CacheKey, InStep, Lookup, Apply, Bytes, Items;
      match a.read
      case ReadBlocked => return;
      case ReadError => Finish();
      case ReadClosed => Finish();
      case ReadOk(bytes) =>
        intake := intake.(inClient := intake.inClient + bytes);
        log := log.(fromClient := log.fromClient + bytes);
        ghost var filled := Value();
        assert Receive(cfg, old(Value()), bytes) == HeaderStage(cfg, filled);
        var go := TakeHeader();
        if !go { return; }
        var complete := TakeBody();
        if complete { DispatchRequest(a); }
    }

    // ---- resolving and connecting -------------------------------------------------------------

    method BeginResolve(a: Answer)
      modifies this
      ensures Value() == M.BeginResolve(cfg, old(Value()), a)
    {
      hide M.BeginConnect, M.FailWith, Error502;
      match a.lookup
      case LookupHit(eps) =>
        cand := cand.(endpoints := eps, idx := 0);
        log := log.(resolved := true);
        BeginConnect(a.connects);
      case LookupPending(readEnd) =>
        if cfg.asyncResolve {
          cand := cand.(job := Some(readEnd));
          ctl := ctl.(state := Resolving);
          SetWant(ReadResolver);
        } else {
          FailWith(Error502());
        }
      case LookupFailed => FailWith(Error502());
    }

    method FinishResolve(a: Answer)
      modifies this
      ensures Value() == M.FinishResolve(old(Value()), a)
    {
      hide M.BeginConnect, M.FailWith, Error502;
      if a.job == JobNotReady { return; }
      cand := cand.(job := None);
      if a.job == JobFailed {
        FailWith(Error502());
        return;
      }
      cand := cand.(endpoints := a.job.eps, idx := 0);
      log := log.(resolved := true);
      BeginConnect(a.connects);
    }

    method BeginConnect(answers: seq<ConnectAnswer>)
      modifies this
      ensures Value() == M.BeginConnect(old(Value()), answers)
    {
      hide M.FailWith, Error502;
      var rest := answers;
      while cand.idx < |cand.endpoints|
        invariant M.BeginConnect(Value(), rest) == M.BeginConnect(old(Value()), answers)
        decreases |cand.endpoints| - cand.idx
      {
        ghost var before := Value();
        var ep := cand.endpoints[cand.idx];
        var st := NextAnswer(rest);  // start_connect(ep)
        rest := LaterAnswers(rest);
        cand := cand.(idx := cand.idx + 1);
        log := log.(tried := log.tried + [ep]);
        assert Value() == Attempt(before);
        if st == ConnectFailed {
          log := log.(failed := log.failed + [ep]);
          assert Value() == FailedAttempt(before);
          continue;
        }
        fd := fd.(upstream := Some(st.fd));
        if st.Connected? {
          log := log.(confirmed := log.confirmed + {st.fd});
          ctl := ctl.(state := SendingUpstream);
        } else {
          ctl := ctl.(state := Connecting);
        }
        SetWant(WriteUpstream);
        return;
      }
      FailWith(Error502());
    }

    method FinishConnect(a: Answer)
      modifies this
      ensures Value() == M.FinishConnect(old(Value()), a)
    {
      hide M.BeginConnect;
      if !a.soOk {
        log := log.(failed := log.failed + LastTried(Value()));
        fd := fd.(upstream := None);
        BeginConnect(a.connects);
        return;
      }
      log := log.(confirmed := log.confirmed + DescSet(fd.upstream));
      ctl := ctl.(state := SendingUpstream);
      SetWant(WriteUpstream);
    }

    // ---- moving bytes -------------------------------------------------------------------------

    method DoWriteUpstream(a: Answer)
      modifies this
      ensures Value() == M.DoWriteUpstream(old(Value()), a)
    {
      hide Substr, Error502;
      match a.write
      case WriteBlocked => return;
      case WriteError => FailWith(Error502());
      case WriteOk(n) =>
        log := log.(toUpstream := log.toUpstream + Substr(out.upstream, out.upstreamOff, n),
                    written := log.written + DescSet(fd.upstream));
        out := out.(upstreamOff := out.upstreamOff + n);
        if out.upstreamOff < |out.upstream| { return; }
        out := out.(upstream := "", upstreamOff := 0);
        ctl := ctl.(state := Relaying);
        SetWant(ReadUpstream);
    }

    method StoreInCache()
      requires Valid()
      modifies cache
      ensures Valid()
      ensures cache != null ==>
                cache.Value() == ApplyAll(old(cache.Value()), StoreOps(cfg, Value()), cache.limits)
    {
      hide InStep, Lookup, Apply, Bytes, Items, Find, Substr;
      if cache == null || tap.key == "" || tap.tooBig { return; }
      if !out.eof { return; }
      if Substr(tap.accum, 0, 9) != "HTTP/1.1 " && Substr(tap.accum, 0, 9) != "HTTP/1.0 " { return; }
      if Substr(tap.accum, 9, 3) != "200" { return; }
      if Find(tap.accum, "\r\nSet-Cookie:") >= 0 || Find(tap.accum, "\r\nset-cookie:") >= 0 { return; }
      OneOp(cache.Value(), PutOp(tap.key, tap.accum), cache.limits);
      cache.Put(tap.key, tap.accum);
    }

    method TapBytes(bytes: string)
      modifies this`tap
      ensures Value() == Tap(cfg, old(Value()), bytes)
    {
      if tap.key != "" && !tap.tooBig {
        if |tap.accum| + |bytes| > cfg.cacheMaxEntryBytes {
          tap := tap.(tooBig := true, accum := "");
        } else {
          tap := tap.(accum := tap.accum + bytes);
        }
      }
    }

    // The end of the origin's stream.
    method UpstreamEnds(a: Answer)
      requires Valid() && ctl.want == ReadUpstream && a.read.ReadClosed?
      modifies this, cache
      ensures Valid()
      ensures Value() == M.DoReadUpstream(cfg, old(Value()), a)
      ensures cache != null ==>
                cache.Value() == ApplyAll(old(cache.Value()), CacheOps(cfg, old(Value()), a), cache.limits)
    {
      hide InStep, Lookup, Apply, Bytes, Items, Storable, Tap;
      out := out.(eof := true);
      fd := fd.(upstream := None);
      log := log.(eof := true);
      StorableSame(cfg, old(Value()).(upstreamEof := true), Value());
      StoreInCache();
      if out.clientOff >= |out.client| { Finish(); } else { SetWant(WriteClient); }
    }

    method DoReadUpstream(a: Answer)
      requires Valid() && ctl.want == ReadUpstream
      modifies this, cache
      ensures Valid()
      ensures Value() == M.DoReadUpstream(cfg, old(Value()), a)
      ensures cache != null ==>
                cache.Value() == ApplyAll(old(cache.Value()), CacheOps(cfg, old(Value()), a), cache.limits)
    {
      hide InStep, Lookup, Apply, Bytes, Items, Storable, Tap;
      match a.read
      case ReadBlocked => return;
      case ReadError => Finish();
      case ReadClosed => UpstreamEnds(a);
      case ReadOk(bytes) =>
        TapBytes(bytes);
        out := out.(client := out.client + bytes);
        log := log.(fromUpstream := log.fromUpstream + bytes);
        SetWant(WriteClient);
    }

    method DoWriteClient(a: Answer)
      modifies this
      ensures Value() == M.DoWriteClient(old(Value()), a)
    {
      hide Substr;
      match a.write
      case WriteBlocked => return;
      case WriteError => Finish();
      case WriteOk(n) =>
        log := log.(toClient := log.toClient + Substr(out.client, out.clientOff, n));
        out := out.(clientOff := out.clientOff + n);
        if out.clientOff < |out.client| { return; }
        out := out.(client := "", clientOff := 0);
        if ctl.state == Failing || out.eof {
          Finish();
          return;
        }
        SetWant(ReadUpstream);
    }

    // on_ready(): one step of the machine, with the cache lookup and store done on the real cache.
    method OnReady(a: Answer)
      requires Valid()
      modifies this, cache
      ensures Valid()
      ensures Value() == Step(cfg, old(Value()),
                           if cache != null then Served(cfg, old(Value()), a, old(cache.Contents())) else a)
      ensures cache != null ==>
                cache.Value() == ApplyAll(old(cache.Value()), CacheOps(cfg, old(Value()), a), cache.limits)
    {
      hide M.DoReadClient, M.DoReadUpstream, M.DoWriteClient, M.DoWriteUpstream, M.FinishResolve, M.FinishConnect,
           InStep, Lookup, Apply, Bytes, Items, Storable;
      OtherAnswers(cfg, Value(), a, if cache != null then cache.Contents() else []);
      match ctl.want
      case ReadClient => DoReadClient(a);
      case WriteClient => DoWriteClient(a);
      case ReadUpstream => DoReadUpstream(a);
      case ReadResolver => FinishResolve(a);
      case WriteUpstream => if ctl.state == Connecting { FinishConnect(a); } else { DoWriteUpstream(a); }
      case NoWant => Finish();
    }
  }

  // The lookup of a complete request, and what it does to the cache.
  function Looked(cfg: Config, c: Conn, a: Answer, es: seq<Entry>): (r: Answer) {
    a.(cached := if cfg.hasCache && CacheableRequest(cfg, c.req) then Lookup(es, CacheKey(c.req)) else None)
  }

  function LookOps(cfg: Config, c: Conn): (ops: seq<Op>) {
    if cfg.hasCache && CacheableRequest(cfg, c.req) then [GetOp(CacheKey(c.req))] else []
  }

  function StoreOps(cfg: Config, c: Conn): (ops: seq<Op>) {
    if Storable(cfg, c) then [PutOp(c.cacheKey, c.cacheAccum)] else []
  }

  lemma ResolveIgnoresCached(cfg: Config, c: Conn, a: Answer)
    ensures BeginResolve(cfg, c, a.(cached := None)) == BeginResolve(cfg, c, a)
  {
    hide StartConnecting, FailWith;
  }

  lemma OneOp(s: State, op: Op, lim: Limits)
    ensures ApplyAll(s, [op], lim) == Apply(s, op, lim)
  {
    assert [op][..0] == [];
  }

  // Whether to store depends on the tap and the end of the stream alone.
  lemma StorableSame(cfg: Config, c: Conn, d: Conn)
    requires d.cacheKey == c.cacheKey && d.cacheAccum == c.cacheAccum && d.cacheTooBig == c.cacheTooBig
    requires d.upstreamEof == c.upstreamEof
    ensures Storable(cfg, c) == Storable(cfg, d)
  {
  }

  // Only reading the client asks the cache, and only reading the origin fills it.
  lemma OtherAnswers(cfg: Config, c: Conn, a: Answer, es: seq<Entry>)
    ensures c.want != ReadClient ==> Served(cfg, c, a, es) == a.(cached := None)
    ensures c.want != ReadClient && c.want != ReadUpstream ==> CacheOps(cfg, c, a) == []
    ensures c.want != ReadClient ==> Step(cfg, c, a.(cached := None)) == Step(cfg, c, a)
  {
    hide BeginConnect, Receive, Storable, Tap, Substr, FailWith, Finish, SetWant;
  }
}
