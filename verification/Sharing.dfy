// What the response cache is for, over whole runs of many connections: which exchanges are stored,
// which requests are served from what was stored, and that the two meet.
module Sharing {
  import opened Text
  import opened Http
  import opened Basics
  import opened LruSpec
  import opened RequestProofs
  import opened ConnMachine
  import opened ConnInv
  import opened Cuts
  import opened CallSpec
  import opened ConnAnswers
  import opened CacheTraffic
  import opened Grammar
  import opened Provenance

  // ---- what may be shared, written out --------------------------------------------------------

  // A GET or HEAD without credentials, with the cache on.
  ghost predicate OpenRequest(cfg: Config, req: Request) {
    && cfg.hasCache && cfg.cacheEnabled && (req.method_ == "GET" || req.method_ == "HEAD")
    && FirstValueIs(req.headers, "authorization", "") && FirstValueIs(req.headers, "cookie", "")
  }

  // A 200 that sets no cookie.
  ghost predicate OpenResponse(r: string) {
    && ("HTTP/1.1 200" <= r || "HTTP/1.0 200" <= r)
    && forall i :: !At(r, "\r\nSet-Cookie:", i) && !At(r, "\r\nset-cookie:", i)
  }

  lemma CredentialNames()
    ensures Lower("Authorization") == "authorization" && Lower("Cookie") == "cookie"
  {
  }

  lemma OpenRequestIff(cfg: Config, req: Request)
    ensures OpenRequest(cfg, req) <==> cfg.hasCache && CacheableRequest(cfg, req)
  {
    hide FirstValueIs, Lower, HeaderValue;
    CredentialNames();
    HeaderValueIsFirst(req.headers, "Authorization");
    HeaderValueIsFirst(req.headers, "Cookie");
    var auth, cookie := HeaderValue(req.headers, "Authorization"), HeaderValue(req.headers, "Cookie");
    if FirstValueIs(req.headers, "authorization", "") { FirstValueIsUnique(req.headers, "authorization", auth, ""); }
    if FirstValueIs(req.headers, "cookie", "") { FirstValueIsUnique(req.headers, "cookie", cookie, ""); }
  }

  lemma NowhereIff(r: string, p: string)
    ensures Find(r, p) < 0 <==> forall i :: !At(r, p, i)
  {
    FindFirst(r, p, 0);
    forall i | i < 0 ensures !At(r, p, i) {}
  }

  lemma StatusPrefix(r: string, v: string)
    requires |v| == 9
    ensures Substr(r, 0, 9) == v && Substr(r, 9, 3) == "200" <==> v + "200" <= r
  {
    if v + "200" <= r {
      assert r[..9] == v && r[9..12] == (v + "200")[9..12] == "200";
    }
    if Substr(r, 0, 9) == v && Substr(r, 9, 3) == "200" {
      assert |r| >= 12 && r[..12] == r[0..9] + r[9..12];
    }
  }

  lemma OpenResponseIff(r: string)
    ensures OpenResponse(r) <==> IsPlain200(r)
  {
    hide Substr, At, Find;
    NowhereIff(r, "\r\nSet-Cookie:");
    NowhereIff(r, "\r\nset-cookie:");
    StatusPrefix(r, "HTTP/1.1 ");
    StatusPrefix(r, "HTTP/1.0 ");
    assert "HTTP/1.1 " + "200" == "HTTP/1.1 200" && "HTTP/1.0 " + "200" == "HTTP/1.0 200";
  }

  // Two things the conditions let through: a cookie whose field name is spelled in capitals, and a
  // request whose first Cookie field is empty and whose second is not.
  const CAPITALS := "HTTP/1.1 200 OK\r\nSET-COOKIE: a=b\r\n\r\n"

  lemma CapitalCookieIsPlain()
    ensures IsPlain200(CAPITALS)
  {
    hide IsPlain200, Find;
    var r := CAPITALS;
    assert NoChar(r, 'e');
    hide NoChar;
    WithoutLetter(r, "\r\nSet-Cookie:");
    WithoutLetter(r, "\r\nset-cookie:");
    assert r[..12] == "HTTP/1.1 200";
    OpenResponseIff(r);
  }

  lemma WithoutLetter(r: string, p: string)
    requires NoChar(r, 'e') && |p| > 3 && p[3] == 'e'
    ensures forall i :: !At(r, p, i)
  {
    forall i ensures !At(r, p, i) { LetterAt(r, p, i); }
  }

  lemma LetterAt(r: string, p: string, i: int)
    requires |p| > 3
    ensures At(r, p, i) ==> 0 <= i && i + 3 < |r| && r[i + 3] == p[3]
  {
    assert At(r, p, i) ==> r[i..i + |p|][3] == r[i + 3];
  }

  lemma SecondCookieIsOverlooked(cfg: Config, req: Request)
    requires cfg.cacheEnabled && req.method_ == "GET" && req.headers == [Header("Cookie", ""), Header("Cookie", "a=b")]
    ensures CacheableRequest(cfg, req)
  {
    CredentialNames();
    var hs := req.headers;
    assert Lower(hs[0].name) == "cookie" && Lower(hs[1].name) == "cookie";
    hide Lower;
    assert hs[1..][0] == hs[1] && hs[1..][1..] == [];
    assert HeaderValue(hs[1..], "Authorization") == HeaderValue([], "Authorization") == "";
  }

  // ---- what is stored -------------------------------------------------------------------------

  // The tap gives up only on a stream over the entry limit.
  ghost predicate TapHonest(cfg: Config, c: Conn) {
    c.state == Relaying && c.cacheTooBig ==> |c.log.fromUpstream| > cfg.cacheMaxEntryBytes
  }

  lemma TapStays(cfg: Config, c: Conn, a: Answer)
    requires Inv(cfg, c) && c.state != Done && Fair(cfg, c, a) && TapHonest(cfg, c)
    ensures TapHonest(cfg, Step(cfg, c, a))
  {
    hide DoReadClient, FinishResolve, FinishConnect, Fair, Inv, DoReadUpstream, DoWriteUpstream, DoWriteClient, Does;
    StepDoes(cfg, c, a);
    NotYet(cfg, c);
    match c.state
    case SendingUpstream => SendTap(cfg, c, a);
    case Relaying => RelayTap(cfg, c, a);
    case _ => NotRelaying(cfg, c, a, Step(cfg, c, a));
  }

  lemma NotRelaying(cfg: Config, c: Conn, a: Answer, d: Conn)
    requires Does(cfg, c, a, d) && c.state !in {SendingUpstream, Relaying, Done} && (c.state == Failing ==> c.log.local.Some?)
    ensures d.state != Relaying
  {
    hide VerdictOn, Hit, AllRefused, Refused, Error502, MovesNothing, SameRequest, Owed;
  }

  lemma SendTap(cfg: Config, c: Conn, a: Answer)
    requires Inv(cfg, c) && c.state == SendingUpstream
    ensures TapHonest(cfg, Step(cfg, c, a))
  {
    hide Common, Asked, Confirmed, Substr, Error502;
  }

  lemma RelayTap(cfg: Config, c: Conn, a: Answer)
    requires Inv(cfg, c) && c.state == Relaying && TapHonest(cfg, c)
    ensures TapHonest(cfg, Step(cfg, c, a))
  {
    hide Common, Asked, Confirmed, Substr, Tapped;
    if a.read.ReadOk? { TapGivesUp(cfg, c, a.read.bytes); }
    hide Tap;
  }

  lemma TapGivesUp(cfg: Config, c: Conn, bytes: string)
    requires Tapped(c)
    ensures var t := Tap(cfg, c, bytes);
            t.log == c.log && t.state == c.state &&
            (t.cacheTooBig ==> c.cacheTooBig || |c.log.fromUpstream| + |bytes| > cfg.cacheMaxEntryBytes)
  {
  }

  // The exchange this call ends may be shared.
  ghost predicate EndsOpen(cfg: Config, c: Conn, a: Answer) {
    && c.want == ReadUpstream && a.read.ReadClosed? && OpenRequest(cfg, c.req)
    && OpenResponse(c.log.fromUpstream) && |c.log.fromUpstream| <= cfg.cacheMaxEntryBytes
  }

  // Exactly those exchanges are stored, each with its whole stream under its key.
  lemma StoreIff(cfg: Config, c: Conn, a: Answer)
    requires Inv(cfg, c) && c.state != Done && TapHonest(cfg, c)
    ensures StoreOf(cfg, c, a) == if EndsOpen(cfg, c, a) then Some(Entry(CacheKey(c.req), c.log.fromUpstream)) else None
  {
    hide Inv, Whole, IsPlain200, OpenResponse, OpenRequest, CacheableRequest, Confirmed;
    if c.want == ReadUpstream {
      ReadsUpstream(cfg, c);
      OpenRequestIff(cfg, c.req);
      OpenResponseIff(c.log.fromUpstream);
      OpenResponseIff("");
      assert !OpenResponse("") by { NotOpen(); }
    }
  }

  lemma NotOpen()
    ensures !OpenResponse("")
  {
    hide At;
  }

  // ---- runs -----------------------------------------------------------------------------------

  lemma ServedIsFair(cfg: Config, s: System, id: nat, a: Answer)
    requires SystemInv(cfg, s) && id in s.conns && FairIo(cfg, s.conns[id], a)
    ensures Fair(cfg, s.conns[id], Served(cfg, s.conns[id], a, s.cache.es))
  {
    hide LookupKey, Lookup, Inv, HitBacked, Shareable;
    ServedIsBacked(cfg, s, s.conns[id], a);
  }

  lemma {:induction false} TapsAreHonest(cfg: Config, lim: Limits, events: seq<Event>)
    ensures forall id :: id in Provenance.Run(cfg, lim, events).conns ==> TapHonest(cfg, Provenance.Run(cfg, lim, events).conns[id])
  {
    hide Step, Inv, Fair, FairIo, Served, ApplyAll, CacheOps, HitBacked, CacheHonest, TapHonest;
    if events != [] {
      var s, e := Provenance.Run(cfg, lim, events[..|events| - 1]), events[|events| - 1];
      TapsAreHonest(cfg, lim, events[..|events| - 1]);
      Provenance.RunInv(cfg, lim, events[..|events| - 1]);
      match e
      case Open(id, client) => FreshTap(cfg, client);
      case Turn(id, a) =>
        if id in s.conns && s.conns[id].state != Done && FairIo(cfg, s.conns[id], a) {
          ServedIsFair(cfg, s, id, a);
          TapStays(cfg, s.conns[id], Served(cfg, s.conns[id], a, s.cache.es));
        }
    }
  }

  lemma FreshTap(cfg: Config, client: Desc)
    ensures TapHonest(cfg, Init(client))
  {
  }

  // The turn is possible after these events.
  ghost predicate CanTurn(cfg: Config, lim: Limits, events: seq<Event>, id: nat, a: Answer) {
    var s := Provenance.Run(cfg, lim, events);
    id in s.conns && s.conns[id].state != Done && FairIo(cfg, s.conns[id], a)
  }

  lemma OneMoreTurn(cfg: Config, lim: Limits, events: seq<Event>, id: nat, a: Answer)
    requires CanTurn(cfg, lim, events, id, a)
    ensures Provenance.Run(cfg, lim, events + [Turn(id, a)]) == Turned(cfg, lim, Provenance.Run(cfg, lim, events), id, a)
  {
    hide Turned, FairIo;
    assert (events + [Turn(id, a)])[..|events|] == events;
  }

  // What a turn does to the entries: an exchange that ends open is put, and nothing else changes what
  // the cache holds.
  lemma TurnStores(cfg: Config, lim: Limits, events: seq<Event>, id: nat, a: Answer)
    requires CanTurn(cfg, lim, events, id, a)
    ensures var s, s' := Provenance.Run(cfg, lim, events), Provenance.Run(cfg, lim, events + [Turn(id, a)]);
            var c := s.conns[id];
            if EndsOpen(cfg, c, a) then s'.cache.es == Put(s.cache.es, CacheKey(c.req), c.log.fromUpstream, lim)
            else s'.cache.es == s.cache.es || exists k :: s'.cache.es == Touch(s.cache.es, k)
  {
    hide Provenance.Run, EndsOpen, Put, Touch, FairIo, Step, Served, LookupKey, StoreOf, Inv, HitBacked, CacheHonest, TapHonest;
    var s := Provenance.Run(cfg, lim, events);
    OneMoreTurn(cfg, lim, events, id, a);
    Provenance.RunInv(cfg, lim, events);
    TapsAreHonest(cfg, lim, events);
    StoreIff(cfg, s.conns[id], a);
    OneCache(cfg, lim, s.cache, s.conns[id], a);
    if EndsOpen(cfg, s.conns[id], a) { NoLookupAtEnd(cfg, s.conns[id], a); }
  }

  lemma NoLookupAtEnd(cfg: Config, c: Conn, a: Answer)
    requires EndsOpen(cfg, c, a)
    ensures LookupKey(cfg, c, a).None?
  {
  }

  lemma OneCache(cfg: Config, lim: Limits, s: State, c: Conn, a: Answer)
    ensures var r := ApplyAll(s, CacheOps(cfg, c, a), lim);
            match LookupKey(cfg, c, a)
            case Some(k) => r.es == Touch(s.es, k)
            case None => r.es == match StoreOf(cfg, c, a) case Some(e) => Put(s.es, e.key, e.response, lim) case None => s.es
  {
    hide LookupKey, StoreOf, Put, Without;
    var ops := CacheOps(cfg, c, a);
    if ops != [] { assert ops[..0] == []; }
  }

  // ---- what is served -------------------------------------------------------------------------

  // This read completes the request `req`.
  ghost predicate Completes(cfg: Config, c: Conn, a: Answer, req: Request) {
    c.state == ReadingRequest && a.read.ReadOk? &&
    var v := VerdictOn(cfg, c.log.fromClient + a.read.bytes);
    v.Forwards? && v.req == req
  }

  lemma KeyOfCompleted(cfg: Config, c: Conn, a: Answer, req: Request)
    requires Inv(cfg, c) && Completes(cfg, c, a, req)
    ensures LookupKey(cfg, c, a) == if OpenRequest(cfg, req) then Some(CacheKey(req)) else None
  {
    ReadingParts(cfg, c);
    OpenRequestIff(cfg, req);
    hide Inv, OpenRequest, CacheableRequest, Receive, HasRead, Judge, OverLimit, CacheKey, Silent, Error400;
    ReadVerdict(cfg, c, c.inClient, a.read.bytes);
  }

  lemma ServedIsLookup(cfg: Config, c: Conn, a: Answer, es: seq<Entry>, req: Request)
    requires Inv(cfg, c) && Completes(cfg, c, a, req)
    ensures var b := Served(cfg, c, a, es);
            b.read == a.read && b.cached == if OpenRequest(cfg, req) then Lookup(es, CacheKey(req)) else None
  {
    hide Inv, LookupKey, Completes, OpenRequest, CacheKey, Lookup;
    KeyOfCompleted(cfg, c, a, req);
  }

  // A completed request is served from the cache exactly when it is open and its key is held, and
  // then with the bytes held.
  lemma HitIff(cfg: Config, lim: Limits, events: seq<Event>, id: nat, a: Answer, req: Request)
    requires CanTurn(cfg, lim, events, id, a) && Completes(cfg, Provenance.Run(cfg, lim, events).conns[id], a, req)
    ensures var s, s' := Provenance.Run(cfg, lim, events), Provenance.Run(cfg, lim, events + [Turn(id, a)]);
            var d := s'.conns[id];
            && (d.log.hit <==> OpenRequest(cfg, req) && Has(s.cache.es, CacheKey(req)))
            && (d.log.hit ==> d.log.local == Lookup(s.cache.es, CacheKey(req))) && d.req == req
  {
    hide Provenance.Run, FairIo, Step, Served, Inv, HitBacked, CacheHonest, ApplyAll, CacheOps, OpenRequest, CacheKey, VerdictOn, Fair;
    var s := Provenance.Run(cfg, lim, events);
    var c := s.conns[id];
    var b := Served(cfg, c, a, s.cache.es);
    OneMoreTurn(cfg, lim, events, id, a);
    Provenance.RunInv(cfg, lim, events);
    ServedIsFair(cfg, s, id, a);
    ServedIsLookup(cfg, c, a, s.cache.es, req);
    OpenRequestIff(cfg, req);
    StepDoes(cfg, c, b);
    hide SystemInv, Turned, CanTurn, Resolves, MovesNothing, CacheableRequest, Lookup;
  }

  lemma SameTargetSameKey(a: Request, b: Request)
    requires Provenance.SameTarget(a, b)
    ensures CacheKey(a) == CacheKey(b)
  {
  }

  lemma PutFound(es: seq<Entry>, key: string, response: string, lim: Limits)
    requires Fits([Entry(key, response)], lim)
    ensures Lookup(Put(es, key, response, lim), key) == Some(response)
  {
    var e := Entry(key, response);
    if Has(es, key) {
      assert Put(es, key, response, lim)[0] == e;
    } else {
      LruProofs.EvictIsLongestFittingPrefix([e] + es, lim);
      assert ([e] + es)[..1] == [e];
    }
  }

  // Stored, then served: when one connection's exchange ends open and its response alone is within
  // the cache's limits, the next connection to complete an open request for the same target gets
  // those bytes from the cache.
  lemma StoredThenServed(cfg: Config, lim: Limits, events: seq<Event>, id: nat, a: Answer, id': nat, b: Answer, req: Request)
    requires CanTurn(cfg, lim, events, id, a) && EndsOpen(cfg, Provenance.Run(cfg, lim, events).conns[id], a)
    requires var c := Provenance.Run(cfg, lim, events).conns[id]; Fits([Entry(CacheKey(c.req), c.log.fromUpstream)], lim) && Provenance.SameTarget(c.req, req)
    requires var more := events + [Turn(id, a)];
             CanTurn(cfg, lim, more, id', b) && Completes(cfg, Provenance.Run(cfg, lim, more).conns[id'], b, req) && OpenRequest(cfg, req)
    ensures var d := Provenance.Run(cfg, lim, events + [Turn(id, a)] + [Turn(id', b)]).conns[id'];
            d.log.hit && d.log.local == Some(Provenance.Run(cfg, lim, events).conns[id].log.fromUpstream)
  {
    hide Provenance.Run, EndsOpen, Completes, OpenRequest, Put, CacheKey, Fits, Touch;
    var c := Provenance.Run(cfg, lim, events).conns[id];
    TurnStores(cfg, lim, events, id, a);
    PutFound(Provenance.Run(cfg, lim, events).cache.es, CacheKey(c.req), c.log.fromUpstream, lim);
    SameTargetSameKey(c.req, req);
    HitIff(cfg, lim, events + [Turn(id, a)], id', b, req);
  }

  // A past exchange that may be shared, as its texts show.
  ghost predicate OpenExchange(cfg: Config, x: Exchange) {
    Accepted(x.input, x.req) && OpenRequest(cfg, x.req) && OpenResponse(x.response) && |x.response| <= cfg.cacheMaxEntryBytes
  }

  // Every response served from the cache answers a request without credentials, with the whole
  // response to an earlier request without credentials for the same target.
  lemma HitsAreOpen(cfg: Config, lim: Limits, events: seq<Event>, id: nat)
    requires id in Provenance.Run(cfg, lim, events).conns && Provenance.Run(cfg, lim, events).conns[id].log.hit
    ensures var s := Provenance.Run(cfg, lim, events);
            var c := s.conns[id];
            && OpenRequest(cfg, c.req) && c.log.local.Some?
            && exists i :: 0 <= i < |s.past| && OpenExchange(cfg, s.past[i]) && Provenance.SameTarget(s.past[i].req, c.req)
                           && s.past[i].response == c.log.local.value
  {
    hide Provenance.Run, Inv, CacheHonest, OpenRequest, OpenResponse, Accepted, IsPlain200, CacheableRequest, Provenance.SameTarget;
    var s := Provenance.Run(cfg, lim, events);
    var c := s.conns[id];
    Provenance.RunInv(cfg, lim, events);
    HitIsKeyed(cfg, c);
    OpenRequestIff(cfg, c.req);
    var i :| 0 <= i < |s.past| && Shareable(cfg, s.past[i]) && Provenance.SameTarget(s.past[i].req, c.req) && s.past[i].response == c.log.local.value;
    OpenRequestIff(cfg, s.past[i].req);
    OpenResponseIff(s.past[i].response);
    assert OpenExchange(cfg, s.past[i]);
  }

  lemma HitIsKeyed(cfg: Config, c: Conn)
    requires Inv(cfg, c) && c.log.hit
    ensures cfg.hasCache && CacheableRequest(cfg, c.req)
  {
    hide Common, Whole, CacheableRequest, CacheKey, Tapped, Confirmed, SentPrefix, GaveUpHonestly, Tied, Waiting, Unconnected;
  }
}
