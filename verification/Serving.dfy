// The serve loop of the blocking backends (src/backend/thread_per_conn.cpp and the worker loop of
// src/backend/thread_pool.cpp): poll the one descriptor the connection asks for, then let it move.
module Serving {
  import opened Basics
  import opened LruSpec
  import opened LruCache
  import opened CacheTraffic
  import opened ConnMachine
  import opened ConnectionClass
  import opened EventLoop

  // Every beat is on the descriptor and direction wanted at that point, before Done.
  predicate Polled(cfg: Config, c: Conn, beats: seq<Beat>) {
    beats == [] ||
    var before, b := beats[..|beats| - 1], beats[|beats| - 1];
    var d := Serve(cfg, c, before);
    Polled(cfg, c, before) && d.state != Done && d.WantDesc() == Some(b.fd) && d.WantWrite() == b.write
  }

  // A blocking run whose answers the operating system can give is one the event loop can play.
  lemma {:induction false} PolledIsServable(cfg: Config, c: Conn, beats: seq<Beat>)
    requires Polled(cfg, c, beats)
    requires forall i :: 0 <= i < |beats| ==> Fair(cfg, Serve(cfg, c, beats[..i]), beats[i].a)
    ensures Servable(cfg, c, beats)
  {
    if beats != [] {
      var before := beats[..|beats| - 1];
      forall i | 0 <= i < |before| ensures Fair(cfg, Serve(cfg, c, before[..i]), before[i].a) {
        assert before[..i] == beats[..i] && before[i] == beats[i];
      }
      PolledIsServable(cfg, c, before);
    }
  }

  // The same loop with the response cache in the picture: every lookup is served by the cache as it
  // stands, and every call does to the cache what it does.
  ghost function ServeShared(cfg: Config, lim: Limits, c: Conn, s: State, answers: seq<Answer>): (r: (Conn, State)) {
    if answers == [] then (c, s)
    else
      var k, a := ServeShared(cfg, lim, c, s, answers[..|answers| - 1]), answers[|answers| - 1];
      (Step(cfg, k.0, Served(cfg, k.0, a, k.1.es)), ApplyAll(k.1, CacheOps(cfg, k.0, a), lim))
  }

  // Two answers that differ at most in what the cache said.
  predicate SameCall(a: Answer, b: Answer) { a.(cached := None) == b.(cached := None) }

  // The calls are what the polls brought, in order, and the beats are these calls with the cache's word
  // filled in.
  ghost predicate Matches(polls: seq<Option<Answer>>, calls: seq<Answer>, beats: seq<Beat>, cached: bool) {
    && |beats| == |calls| <= |polls|
    && (forall i :: 0 <= i < |calls| ==> polls[i] == Some(calls[i]) && SameCall(calls[i], beats[i].a))
    && (!cached ==> forall i :: 0 <= i < |calls| ==> beats[i].a == calls[i])
  }

  lemma MatchesMore(polls: seq<Option<Answer>>, calls: seq<Answer>, beats: seq<Beat>, cached: bool, a: Answer, b: Beat)
    requires Matches(polls, calls, beats, cached) && |calls| < |polls| && polls[|calls|] == Some(a)
    requires SameCall(a, b.a) && (!cached ==> b.a == a)
    ensures Matches(polls, calls + [a], beats + [b], cached)
  {
    hide SameCall;
  }

  lemma OneMoreBeat(cfg: Config, c: Conn, beats: seq<Beat>, b: Beat)
    ensures Serve(cfg, c, beats + [b]) == Step(cfg, Serve(cfg, c, beats), b.a)
    ensures var d := Serve(cfg, c, beats);
            Polled(cfg, c, beats) && d.state != Done && d.WantDesc() == Some(b.fd) && d.WantWrite() == b.write ==>
              Polled(cfg, c, beats + [b])
  {
    hide Step;
    assert (beats + [b])[..|beats|] == beats;
  }

  lemma OneMoreCall(cfg: Config, lim: Limits, c: Conn, s: State, calls: seq<Answer>, a: Answer)
    ensures var k := ServeShared(cfg, lim, c, s, calls);
            ServeShared(cfg, lim, c, s, calls + [a])
            == (Step(cfg, k.0, Served(cfg, k.0, a, k.1.es)), ApplyAll(k.1, CacheOps(cfg, k.0, a), lim))
  {
    hide Step, Served, ApplyAll, CacheOps;
    assert (calls + [a])[..|calls|] == calls;
  }

  lemma SameItself(a: Answer)
    ensures SameCall(a, a)
  {
  }

  lemma ServedIsSameCall(cfg: Config, c: Conn, a: Answer, es: seq<Entry>)
    ensures SameCall(a, Served(cfg, c, a, es))
  {
    hide LookupKey, Lookup;
  }

  lemma NothingYet(cfg: Config, c: Conn, polls: seq<Option<Answer>>, cached: bool)
    ensures Serve(cfg, c, []) == c && Polled(cfg, c, []) && Matches(polls, [], [], cached)
  {
  }

  lemma NothingShared(cfg: Config, lim: Limits, c: Conn, s: State)
    ensures ServeShared(cfg, lim, c, s, []) == (c, s)
  {
  }

  // polls[i] is what the i-th wait_ready() brings: None is the idle timeout, otherwise the call's
  // answers.  The beats carry what the cache said, if there is one.
  method ServeToEnd(client: Desc, cfg: Config, cache: LruCacheImpl?, polls: seq<Option<Answer>>)
    returns (conn: Connection, calls: seq<Answer>, ghost beats: seq<Beat>)
    requires cfg.hasCache == (cache != null) && (cache != null ==> cache.Valid())
    modifies cache
    ensures fresh(conn) && conn.Value() == Serve(cfg, Init(client), beats) && Polled(cfg, Init(client), beats)
    ensures Matches(polls, calls, beats, cache != null)
    ensures cache != null ==>
              && cache.Valid()
              && (conn.Value(), cache.Value()) == ServeShared(cfg, cache.limits, Init(client), old(cache.Value()), calls)
    ensures || conn.Value().state == Done || conn.Value().WantDesc().None?
            || |calls| == |polls| || polls[|calls|].None?
  {
    hide Step, Init, InStep, ApplyAll, CacheOps, Served, Serve, Polled, ServeShared, SameCall, Items;
    conn := new Connection(client, cfg, cache);
    beats, calls := [], [];
    NothingYet(cfg, Init(client), polls, cache != null);
    if cache != null { NothingShared(cfg, cache.limits, Init(client), cache.Value()); }
    while |calls| < |polls|
      invariant fresh(conn) && conn.Valid() && conn.cfg == cfg && conn.cache == cache
      invariant conn.Value() == Serve(cfg, Init(client), beats) && Polled(cfg, Init(client), beats)
      invariant Matches(polls, calls, beats, cache != null)
      invariant cache != null ==>
                  (conn.Value(), cache.Value()) == ServeShared(cfg, cache.limits, Init(client), old(cache.Value()), calls)
      decreases |polls| - |calls|
    {
      if conn.ctl.state == Done { return; }
      var fd, write := conn.Wanted();
      if fd.None? { return; }
      var ready := polls[|calls|];
      if ready.None? { return; }
      hide Matches, Connection.Value, Connection.Valid, LruCacheImpl.Valid;
      var a := ready.value;
      ghost var said := if cache != null then Served(cfg, conn.Value(), a, cache.Contents()) else a;
      ghost var b := Beat(fd.value, write, said);
      OneMoreBeat(cfg, Init(client), beats, b);
      if cache != null { OneMoreCall(cfg, cache.limits, Init(client), old(cache.Value()), calls, a); }
      assert SameCall(a, said) by {
        if cache != null { ServedIsSameCall(cfg, conn.Value(), a, cache.Contents()); } else { SameItself(a); }
      }
      MatchesMore(polls, calls, beats, cache != null, a, b);
      conn.OnReady(a);
      beats, calls := beats + [b], calls + [a];
    }
  }
}
