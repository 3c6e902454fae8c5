// The hand-off, the thread pool and the resolver at work, one thing at a time: what a whole round
// comes to, for any number of rounds.  The other modules say what no schedule can spoil; these runs
// say that the work is done.

module InboxRounds {
  import opened Inbox

  // Descriptor d is accepted and dealt to shard i, which is woken, empties its pipe, takes its queue
  // and adopts what is in it.
  function Round(i: nat): (moves: seq<Move>) {
    [Push, Write, Wake(i), Read(i), Read(i), Swap(i), Adopt(i), Adopt(i)]
  }

  function Rounds(n: nat, k: nat): (moves: seq<Move>)
    requires n > 0
  {
    if k == 0 then [] else Rounds(n, k - 1) + Round((k - 1) % n)
  }

  // Nothing is under way.
  predicate Resting(s: Shard) { s.queue == [] && s.bytes == 0 && s.pc.Waiting? && s.batch == [] }

  ghost predicate AllRest(h: Hub) { !h.half && forall i :: 0 <= i < |h.shards| ==> Resting(h.shards[i]) }

  lemma {:induction false} RunAppend(h: Hub, a: seq<Move>, b: seq<Move>)
    ensures Run(h, a + b) == Run(Run(h, a), b)
    decreases |b|
  {
    hide Next;
    if b == [] {
      assert a + b == a;
    } else {
      RunAppend(h, a, b[..|b| - 1]);
      assert (a + b)[..|a + b| - 1] == a + b[..|b| - 1];
    }
  }

  lemma OneMove(h: Hub, a: Move)
    ensures Run(h, [a]) == Next(h, a)
  {
    hide Next;
    assert [a][..0] == [];
  }

  lemma {:induction false} RunFirst(h: Hub, moves: seq<Move>)
    requires moves != []
    ensures Run(h, moves) == Run(Next(h, moves[0]), moves[1..])
  {
    hide Next, Run;
    RunAppend(h, [moves[0]], moves[1..]);
    OneMove(h, moves[0]);
    assert [moves[0]] + moves[1..] == moves;
  }

  // What the moves of shard i alone do to it.
  function ShardRun(s: Shard, moves: seq<Move>): (r: Shard)
    decreases |moves|
  {
    if moves == [] then s else ShardRun(ShardStep(s, moves[0]), moves[1..])
  }

  lemma {:induction false} OnlyShard(h: Hub, i: nat, moves: seq<Move>)
    requires i < |h.shards|
    requires forall k :: 0 <= k < |moves| ==> !moves[k].Push? && !moves[k].Write? && moves[k].i == i
    ensures Run(h, moves) == h.(shards := h.shards[i := ShardRun(h.shards[i], moves)])
    decreases |moves|
  {
    hide ShardStep;
    if moves == [] {
      assert h.shards[i := h.shards[i]] == h.shards;
    } else {
      RunFirst(h, moves);
      var h1 := Next(h, moves[0]);
      OnlyShard(h1, i, moves[1..]);
      hide Run;
      assert h1.shards[i := ShardRun(h1.shards[i], moves[1..])] == h.shards[i := ShardRun(h.shards[i], moves)];
    }
  }

  lemma FirstStep(s: Shard, a: Move, rest: seq<Move>)
    ensures ShardRun(s, [a] + rest) == ShardRun(ShardStep(s, a), rest)
  {
    hide ShardStep;
    assert ([a] + rest)[1..] == rest;
  }

  // Woken with one descriptor in its queue and one byte in its pipe.
  function WakeMoves(i: nat): (moves: seq<Move>) {
    [Wake(i)] + ([Read(i)] + ([Read(i)] + ([Swap(i)] + ([Adopt(i)] + ([Adopt(i)] + [])))))
  }

  lemma WokenAdopts(s: Shard, i: nat, d: nat)
    requires s.queue == [d] && s.bytes == 1 && s.pc.Waiting? && s.batch == []
    ensures ShardRun(s, WakeMoves(i)) == Shard([], 0, Waiting, [], s.adopted + [d])
  {
    hide ShardRun;
    var w := s.(pc := Reading);
    var r := w.(bytes := 0);
    var e := r.(pc := Swapping);
    var a := Shard([], 0, Adopting, [d], s.adopted);
    var o := Shard([], 0, Adopting, [], s.adopted + [d]);
    assert [d][1..] == [];
    FirstStep(s, Wake(i), [Read(i)] + ([Read(i)] + ([Swap(i)] + ([Adopt(i)] + ([Adopt(i)] + [])))));
    FirstStep(w, Read(i), [Read(i)] + ([Swap(i)] + ([Adopt(i)] + ([Adopt(i)] + []))));
    FirstStep(r, Read(i), [Swap(i)] + ([Adopt(i)] + ([Adopt(i)] + [])));
    FirstStep(e, Swap(i), [Adopt(i)] + ([Adopt(i)] + []));
    FirstStep(a, Adopt(i), [Adopt(i)] + []);
    FirstStep(o, Adopt(i), []);
    NoSteps(o.(pc := Waiting));
  }

  lemma NoSteps(s: Shard)
    ensures ShardRun(s, []) == s
  {
  }

  lemma DealsOne(h: Hub)
    requires HubInv(h) && AllRest(h)
    ensures var i, q := h.next, Next(Next(h, Push), Write);
            && i < |h.shards| && !q.half && q.dealt == h.dealt + 1
            && q.shards == h.shards[i := Shard([h.dealt], 1, Waiting, [], h.shards[i].adopted)]
  {
    hide Share, Portion, Got, Heard;
    var i := h.next;
    assert i < |h.shards| && Resting(h.shards[i]);
    assert [] + [h.dealt] == [h.dealt];
  }

  lemma RoundDeals(h: Hub)
    requires HubInv(h) && AllRest(h)
    ensures var r := Run(h, Round(h.next)); AllRest(r) && r.dealt == h.dealt + 1
  {
    hide Run, ShardRun, HubInv, Next;
    var i := h.next;
    assert Round(i) == [Push] + ([Write] + WakeMoves(i));
    RunAppend(h, [Push], [Write] + WakeMoves(i));
    OneMove(h, Push);
    RunAppend(Next(h, Push), [Write], WakeMoves(i));
    OneMove(Next(h, Push), Write);
    DealsOne(h);
    var q := Next(Next(h, Push), Write);
    assert q.shards[i] == Shard([h.dealt], 1, Waiting, [], h.shards[i].adopted);
    OnlyShard(q, i, WakeMoves(i));
    WokenAdopts(q.shards[i], i, h.dealt);
  }

  // After k rounds k descriptors have been accepted, and shard i has adopted exactly its share of
  // them, i, i + n, i + 2n and so on, in that order.
  lemma {:induction false} AllAdopted(shards: nat, k: nat)
    ensures var n := if shards != 0 then shards else 1;
            var h := Run(Open(shards), Rounds(n, k));
            && |h.shards| == n && h.dealt == k && AllRest(h)
            && forall i :: 0 <= i < n ==> h.shards[i].adopted == Share(i, n, Portion(i, n, k))
  {
    var n := if shards != 0 then shards else 1;
    var h := Run(Open(shards), Rounds(n, k));
    RunInv(shards, Rounds(n, k));
    ShardsKept(Open(shards), Rounds(n, k));
    if k > 0 {
      AllAdopted(shards, k - 1);
      var b := Run(Open(shards), Rounds(n, k - 1));
      RunInv(shards, Rounds(n, k - 1));
      assert b.next == (k - 1) % n;
      RoundDeals(b);
      RunAppend(Open(shards), Rounds(n, k - 1), Round((k - 1) % n));
    }
    hide Run, Rounds, Portion, Share;
    assert AllRest(h) && h.dealt == k;
    forall i | 0 <= i < n ensures h.shards[i].adopted == Share(i, n, Portion(i, n, k)) {
      assert Resting(h.shards[i]) && Got(h.shards[i]) == Share(i, n, Portion(i, n, k));
    }
  }

  lemma {:induction false} ShardsKept(h: Hub, moves: seq<Move>)
    ensures |Run(h, moves).shards| == |h.shards|
    decreases |moves|
  {
    if moves != [] { ShardsKept(h, moves[..|moves| - 1]); }
  }
}

module PoolRounds {
  import opened Basics
  import Q = ConnQueue
  import opened ConnQueue
  import opened ThreadPool

  // A connection is accepted and pushed; worker 1 pops it.
  function Round(): (acts: seq<PoolAct>) {
    [Accept, Step(Enter(0)), Step(Notify(0, 0))] + [Pop(1), Step(Enter(1)), Step(Notify(1, 1))]
  }

  function Rounds(k: nat): (acts: seq<PoolAct>) { if k == 0 then [] else Rounds(k - 1) + Round() }

  // The accept loop and worker 1 are between two connections, the other workers have not started.
  ghost predicate Between(p: Pool, k: nat) {
    && p.phase.Accepting? && !p.stop && p.accepted == k && p.dropped == []
    && p.m.queue == [] && !p.m.closed && HasRoom(p.m)
    && 0 in p.m.at && (p.m.at[0].Idle? || p.m.at[0].PushDone?)
    && 1 in p.m.at && (p.m.at[1].Idle? || p.m.at[1].PopDone?)
    && (forall t :: t in p.m.at && t > 1 ==> p.m.at[t].Idle?)
    && p.taken == seq(k, i => (1, i))
  }

  lemma {:induction false} RunAppend(p: Pool, a: seq<PoolAct>, b: seq<PoolAct>)
    ensures PoolRun(p, a + b) == PoolRun(PoolRun(p, a), b)
    decreases |b|
  {
    hide PoolNext;
    if b == [] {
      assert a + b == a;
    } else {
      RunAppend(p, a, b[..|b| - 1]);
      assert (a + b)[..|a + b| - 1] == a + b[..|b| - 1];
    }
  }

  lemma ThreeActs(p: Pool, a: PoolAct, b: PoolAct, c: PoolAct)
    ensures PoolRun(p, [a, b, c]) == PoolNext(PoolNext(PoolNext(p, a), b), c)
  {
    hide PoolNext;
    assert PoolRun(p, []) == p;
    assert [a][..0] == [] && PoolRun(p, [a]) == PoolNext(p, a);
    assert [a, b][..1] == [a] && PoolRun(p, [a, b]) == PoolNext(PoolNext(p, a), b);
    assert [a, b, c][..2] == [a, b];
  }

  // Connection k is in the queue.
  ghost predicate Queued(p: Pool, q: Pool, k: nat) {
    && q == p.(m := q.m, accepted := k + 1)
    && q.m == p.m.(at := p.m.at[0 := PushDone], queue := [k], pushed := p.m.pushed + [k])
  }

  lemma NobodyAsleep(m: Monitor)
    requires forall t :: t in m.at ==> !m.at[t].PopAsleep? && !m.at[t].PushAsleep?
    ensures !AnyConsumerAsleep(m) && !AnyProducerAsleep(m)
  {
  }

  ghost predicate Awake(m: Monitor) { forall t :: t in m.at ==> !m.at[t].PopAsleep? && !m.at[t].PushAsleep? }

  // One more item, stored by thread 0 from its call on.
  lemma Stores(m: Monitor, x: nat)
    requires 0 in m.at && m.at[0] == Pushing(x) && !m.closed && HasRoom(m) && Awake(m)
    ensures var n := m.(at := m.at[0 := Pushed], queue := m.queue + [x], pushed := m.pushed + [x]);
            Q.Next(m, Enter(0)) == n && Q.Next(n, Notify(0, 0)) == n.(at := m.at[0 := PushDone])
  {
    hide NotifyProducer, PopSection, CloseSection, WakeConsumers, WakeProducers, AnyConsumerAsleep;
    var n := m.(at := m.at[0 := Pushed], queue := m.queue + [x], pushed := m.pushed + [x]);
    NobodyAsleep(n);
    assert m.at[0 := Pushed][0 := PushDone] == m.at[0 := PushDone];
  }

  // The head, taken by thread 1 from its call on.
  lemma Takes(m: Monitor)
    requires 1 in m.at && m.at[1] == Popping && m.queue != [] && Awake(m)
    ensures var x := m.queue[0];
            var n := m.(at := m.at[1 := Popped(x)], queue := m.queue[1..], popped := m.popped + [x]);
            Q.Next(m, Enter(1)) == n && Q.Next(n, Notify(1, 1)) == n.(at := m.at[1 := PopDone(x)])
  {
    hide NotifyConsumer, PushSection, CloseSection, WakeConsumers, WakeProducers, AnyProducerAsleep;
    var x := m.queue[0];
    var n := m.(at := m.at[1 := Popped(x)], queue := m.queue[1..], popped := m.popped + [x]);
    NobodyAsleep(n);
    assert m.at[1 := Popped(x)][1 := PopDone(x)] == m.at[1 := PopDone(x)];
  }

  lemma PoolStep(p: Pool, b: Act)
    requires 0 in p.m.at && (b.Enter? || b.Notify?)
    ensures var m := Q.Next(p.m, b); PoolNext(p, Step(b)) == p.(m := m, taken := p.taken + Taken(p.m, m, b.t))
  {
    hide Q.Next, Taken, AllEnded;
  }

  lemma PoolCalls(p: Pool, k: nat)
    requires Between(p, k)
    ensures PoolNext(p, Accept) == p.(accepted := k + 1, m := p.m.(at := p.m.at[0 := Pushing(k)]))
  {
    hide AllEnded, Taken, NotifyProducer, NotifyConsumer, PopSection, PushSection, CloseSection, WakeConsumers, WakeProducers;
  }

  lemma PoolPops(p: Pool)
    requires 0 in p.m.at && 1 in p.m.at && (p.m.at[1].Idle? || p.m.at[1].PopDone?)
    ensures PoolNext(p, Pop(1)) == p.(m := p.m.(at := p.m.at[1 := Popping]))
  {
    hide AllEnded, Taken, NotifyProducer, NotifyConsumer, PopSection, PushSection, CloseSection, WakeConsumers, WakeProducers;
  }

  lemma PushesOne(p: Pool, k: nat)
    requires Between(p, k)
    ensures Queued(p, PoolRun(p, [Accept, Step(Enter(0)), Step(Notify(0, 0))]), k)
  {
    hide PoolRun, PoolNext, Q.Next;
    ThreeActs(p, Accept, Step(Enter(0)), Step(Notify(0, 0)));
    PoolCalls(p, k);
    var m1 := p.m.(at := p.m.at[0 := Pushing(k)]);
    var p1 := p.(accepted := k + 1, m := m1);
    Stores(m1, k);
    assert [] + [k] == [k];
    var m2 := m1.(at := m1.at[0 := Pushed], queue := [k], pushed := p.m.pushed + [k]);
    PoolStep(p1, Enter(0));
    assert p.taken + [] == p.taken;
    PoolStep(p1.(m := m2), Notify(0, 0));
    assert m1.at[0 := PushDone] == p.m.at[0 := PushDone];
  }

  lemma TakesOne(q: Pool, k: nat)
    requires 0 in q.m.at && 1 in q.m.at && (q.m.at[1].Idle? || q.m.at[1].PopDone?) && q.m.queue == [k] && Awake(q.m)
    ensures PoolRun(q, [Pop(1), Step(Enter(1)), Step(Notify(1, 1))])
         == q.(taken := q.taken + [(1, k)],
               m := q.m.(at := q.m.at[1 := PopDone(k)], queue := [], popped := q.m.popped + [k]))
  {
    hide PoolRun, PoolNext, Q.Next;
    ThreeActs(q, Pop(1), Step(Enter(1)), Step(Notify(1, 1)));
    PoolPops(q);
    var m1 := q.m.(at := q.m.at[1 := Popping]);
    Takes(m1);
    assert [k][1..] == [];
    var m2 := m1.(at := m1.at[1 := Popped(k)], queue := [], popped := m1.popped + [k]);
    PoolStep(q.(m := m1), Enter(1));
    var p2 := q.(m := m2, taken := q.taken + [(1, k)]);
    PoolStep(p2, Notify(1, 1));
    assert p2.taken + [] == p2.taken;
    assert m1.at[1 := PopDone(k)] == q.m.at[1 := PopDone(k)];
  }

  lemma PopsOne(p: Pool, q: Pool, k: nat)
    requires Between(p, k) && Queued(p, q, k)
    ensures Between(PoolRun(q, [Pop(1), Step(Enter(1)), Step(Notify(1, 1))]), k + 1)
  {
    hide PoolRun;
    TakesOne(q, k);
    assert seq(k, i => (1, i)) + [(1, k)] == seq(k + 1, i => (1, i));
  }

  lemma StartsBetween(poolSize: nat, queueCapacity: nat)
    ensures Between(Start(poolSize, queueCapacity), 0)
  {
    assert Start(poolSize, queueCapacity).taken == seq(0, i => (1, i));
  }

  // With any pool size and queue capacity, k connections that come one after the other are all
  // served, in order, each once.
  lemma {:induction false} AllServed(poolSize: nat, queueCapacity: nat, k: nat)
    ensures Between(PoolRun(Start(poolSize, queueCapacity), Rounds(k)), k)
  {
    var p := Start(poolSize, queueCapacity);
    hide PoolNext, Between, Queued, Start;
    if k == 0 {
      StartsBetween(poolSize, queueCapacity);
    } else {
      AllServed(poolSize, queueCapacity, k - 1);
      RunAppend(p, Rounds(k - 1), Round());
      var b := PoolRun(p, Rounds(k - 1));
      var push := [Accept, Step(Enter(0)), Step(Notify(0, 0))];
      RunAppend(b, push, [Pop(1), Step(Enter(1)), Step(Notify(1, 1))]);
      PushesOne(b, k - 1);
      PopsOne(b, PoolRun(b, push), k - 1);
    }
  }
}

module ResolverRounds {
  import opened Basics
  import Q = ConnQueue
  import opened ConnQueue
  import opened Resolver
  import PoolRounds

  // What a lookup is to say about one job.
  datatype Case = Case(j: nat, ok: bool, addrs: seq<nat>)

  // start() queues the job and worker 1 takes it ...
  function Taking(j: nat): (events: seq<Event>) {
    [Start(j), Queue(Enter(j)), Queue(Notify(j, j)), NextJob(1), Queue(Enter(1)), Queue(Notify(1, 1)), Return(j)]
  }

  // ... looks it up and publishes the result; the connection reads its pipe and looks.
  function Answering(c: Case): (events: seq<Event>) {
    var work := Work(1, c.ok, c.addrs);
    [work, work, work, work, work, Read(c.j), Look(c.j)]
  }

  function Rounds(cs: seq<Case>): (events: seq<Event>) {
    if cs == [] then [] else Rounds(cs[..|cs| - 1]) + (Taking(cs[|cs| - 1].j) + Answering(cs[|cs| - 1]))
  }

  // Worker 1 is between jobs and nobody sleeps.
  ghost predicate Between(s: Res) {
    && s.workers >= 1 && 1 in s.m.at && s.m.queue == [] && !s.m.closed && s.m.capacity.None? && PoolRounds.Awake(s.m)
    && (s.m.at[1].Idle? || (s.m.at[1].PopDone? && s.m.at[1].item in s.jobs && s.jobs[s.m.at[1].item].at.Finished?))
  }

  lemma {:induction false} RunAppend(s: Res, a: seq<Event>, b: seq<Event>)
    ensures ResRun(s, a + b) == ResRun(ResRun(s, a), b)
    decreases |b|
  {
    hide ResNext;
    if b == [] {
      assert a + b == a;
    } else {
      RunAppend(s, a, b[..|b| - 1]);
      assert (a + b)[..|a + b| - 1] == a + b[..|b| - 1];
    }
  }

  lemma RunFirst(s: Res, e: Event, rest: seq<Event>)
    ensures ResRun(s, [e] + rest) == ResRun(ResNext(s, e), rest)
  {
    hide ResNext;
    RunAppend(s, [e], rest);
    assert [e][..0] == [] && ResRun(s, [e]) == ResNext(s, e);
  }

  lemma NoEvents(s: Res)
    ensures ResRun(s, []) == s
  {
  }

  // ---- the queue's part -----------------------------------------------------------------------

  lemma Stores(m: Monitor, j: nat)
    requires j in m.at && m.at[j] == Pushing(j) && !m.closed && m.capacity.None? && PoolRounds.Awake(m)
    ensures var n := m.(at := m.at[j := Pushed], queue := m.queue + [j], pushed := m.pushed + [j]);
            Q.Next(m, Enter(j)) == n && Q.Next(n, Notify(j, j)) == n.(at := m.at[j := PushDone])
  {
    hide NotifyProducer, PopSection, CloseSection, WakeConsumers, WakeProducers, AnyConsumerAsleep;
    var n := m.(at := m.at[j := Pushed], queue := m.queue + [j], pushed := m.pushed + [j]);
    PoolRounds.NobodyAsleep(n);
    assert m.at[j := Pushed][j := PushDone] == m.at[j := PushDone];
  }

  lemma QueueStep(s: Res, a: Act, m: Monitor)
    requires (a.Enter? || a.Notify?) && m == Q.Next(s.m, a) && |m.popped| == |s.m.popped|
    ensures ResNext(s, Queue(a)) == s.(m := m)
  {
    hide Q.Next;
  }

  lemma QueueTake(s: Res, t: nat, m: Monitor)
    requires m == Q.Next(s.m, Enter(t)) && |m.popped| == |s.m.popped| + 1
    ensures ResNext(s, Queue(Enter(t))) == s.(m := m, owner := s.owner[m.popped[|s.m.popped|] := t])
  {
    hide Q.Next;
  }

  lemma Calls(s: Res, j: nat)
    requires CanStart(s, j)
    ensures ResNext(s, Start(j)) == s.(jobs := s.jobs[j := NEW_JOB], m := s.m.(at := s.m.at[j := Pushing(j)]))
  {
    StartShape(s, j);
    hide ResNext;
  }

  // The job is in the worker's hand and its connection waits.
  ghost predicate InHand(s: Res, r: Res, j: nat) {
    && r.workers == s.workers && r.jobs == s.jobs[j := NEW_JOB.(client := Pending)]
    && r.m.at == s.m.at[j := PushDone][1 := PopDone(j)]
    && r.m.queue == [] && !r.m.closed && r.m.capacity.None?
  }

  lemma JobIsTaken(s: Res, j: nat)
    requires Between(s) && CanStart(s, j)
    ensures InHand(s, ResRun(s, Taking(j)), j)
  {
    hide ResRun, ResNext, Q.Next;
    var e := [Start(j)] + ([Queue(Enter(j))] + ([Queue(Notify(j, j))] + ([NextJob(1)] + ([Queue(Enter(1))] + ([Queue(Notify(1, 1))] + ([Return(j)] + []))))));
    assert Taking(j) == e;
    Calls(s, j);
    var m1 := s.m.(at := s.m.at[j := Pushing(j)]);
    var s1 := s.(jobs := s.jobs[j := NEW_JOB], m := m1);
    Stores(m1, j);
    assert [] + [j] == [j];
    var m2 := m1.(at := m1.at[j := Pushed], queue := [j], pushed := m1.pushed + [j]);
    QueueStep(s1, Enter(j), m2);
    var m3 := m2.(at := m1.at[j := PushDone]);
    QueueStep(s1.(m := m2), Notify(j, j), m3);
    var s3 := s1.(m := m3);
    RunFirst(s, Start(j), [Queue(Enter(j))] + ([Queue(Notify(j, j))] + ([NextJob(1)] + ([Queue(Enter(1))] + ([Queue(Notify(1, 1))] + ([Return(j)] + []))))));
    RunFirst(s1, Queue(Enter(j)), [Queue(Notify(j, j))] + ([NextJob(1)] + ([Queue(Enter(1))] + ([Queue(Notify(1, 1))] + ([Return(j)] + [])))));
    RunFirst(s1.(m := m2), Queue(Notify(j, j)), [NextJob(1)] + ([Queue(Enter(1))] + ([Queue(Notify(1, 1))] + ([Return(j)] + []))));
    WorkerTakes(s, s3, j);
  }

  function TakeEvents(j: nat): (events: seq<Event>) {
    [NextJob(1)] + ([Queue(Enter(1))] + ([Queue(Notify(1, 1))] + ([Return(j)] + [])))
  }

  lemma FourEvents(s: Res, j: nat)
    ensures ResRun(s, TakeEvents(j))
         == ResNext(ResNext(ResNext(ResNext(s, NextJob(1)), Queue(Enter(1))), Queue(Notify(1, 1))), Return(j))
  {
    hide ResRun, ResNext;
    var s4 := ResNext(s, NextJob(1));
    var s5 := ResNext(s4, Queue(Enter(1)));
    var s6 := ResNext(s5, Queue(Notify(1, 1)));
    RunFirst(s, NextJob(1), [Queue(Enter(1))] + ([Queue(Notify(1, 1))] + ([Return(j)] + [])));
    RunFirst(s4, Queue(Enter(1)), [Queue(Notify(1, 1))] + ([Return(j)] + []));
    RunFirst(s5, Queue(Notify(1, 1)), [Return(j)] + []);
    RunFirst(s6, Return(j), []);
    NoEvents(ResNext(s6, Return(j)));
  }

  lemma TakenFrom(s: Res, j: nat)
    requires s.workers >= 1 && 1 in s.m.at && j in s.m.at && j != 1 && s.m.at[j] == PushDone && s.m.queue == [j]
    requires s.m.at[1].Idle? || (s.m.at[1].PopDone? && s.m.at[1].item in s.jobs && s.jobs[s.m.at[1].item].at.Finished?)
    requires PoolRounds.Awake(s.m) && j in s.jobs && s.jobs[j] == NEW_JOB
    ensures ResRun(s, TakeEvents(j))
         == s.(jobs := s.jobs[j := NEW_JOB.(client := Pending)], owner := s.owner[j := 1],
               m := s.m.(at := s.m.at[1 := PopDone(j)], queue := [], popped := s.m.popped + [j]))
  {
    hide ResRun, ResNext, Q.Next, TakeEvents;
    FourEvents(s, j);
    NextCall(s);
    var m4 := s.m.(at := s.m.at[1 := Popping]);
    PoolRounds.Takes(m4);
    assert [j][1..] == [];
    var m5 := m4.(at := m4.at[1 := Popped(j)], queue := [], popped := m4.popped + [j]);
    QueueTake(s.(m := m4), 1, m5);
    var s5 := s.(m := m5, owner := s.owner[j := 1]);
    var m6 := m5.(at := m4.at[1 := PopDone(j)]);
    QueueStep(s5, Notify(1, 1), m6);
    Returns(s5.(m := m6), j);
    assert m4.at[1 := PopDone(j)] == s.m.at[1 := PopDone(j)];
  }

  lemma WorkerTakes(s: Res, s3: Res, j: nat)
    requires Between(s) && CanStart(s, j)
    requires s3.workers == s.workers && s3.jobs == s.jobs[j := NEW_JOB]
    requires s3.m.at == s.m.at[j := PushDone] && s3.m.queue == [j] && !s3.m.closed && s3.m.capacity.None?
    ensures InHand(s, ResRun(s3, TakeEvents(j)), j)
  {
    hide ResRun, TakeEvents;
    TakenFrom(s3, j);
    assert s.jobs[j := NEW_JOB][j := NEW_JOB.(client := Pending)] == s.jobs[j := NEW_JOB.(client := Pending)];
  }

  lemma NextCall(s: Res)
    requires s.workers >= 1 && 1 in s.m.at
    requires s.m.at[1].Idle? || (s.m.at[1].PopDone? && s.m.at[1].item in s.jobs && s.jobs[s.m.at[1].item].at.Finished?)
    ensures ResNext(s, NextJob(1)) == s.(m := s.m.(at := s.m.at[1 := Popping]))
  {
    hide PopSection, PushSection, CloseSection, NotifyConsumer, NotifyProducer, WakeConsumers, WakeProducers;
  }

  lemma Returns(s: Res, j: nat)
    requires j in s.jobs && j in s.m.at && s.m.at[j] == PushDone && s.jobs[j] == NEW_JOB
    ensures ResNext(s, Return(j)) == s.(jobs := s.jobs[j := NEW_JOB.(client := Pending)])
  {
  }

  // ---- the worker's and the connection's part -------------------------------------------------

  function Told(c: Case): (a: Client) { Answered(c.ok, if c.ok then c.addrs else []) }

  lemma WorkStep(s: Res, c: Case)
    requires s.workers >= 1 && 1 in s.m.at && s.m.at[1] == PopDone(c.j) && c.j in s.jobs
    ensures ResNext(s, Work(1, c.ok, c.addrs)) == s.(jobs := s.jobs[c.j := Worked(s.jobs[c.j], c.ok, c.addrs)])
  {
    hide Worked;
  }

  // The five stations, the read and the look.
  function JobAfter(c: Case, n: nat): (job: Job) {
    var j := NEW_JOB.(client := Pending);
    if n == 0 then j
    else if n <= 5 then Worked(JobAfter(c, n - 1), c.ok, c.addrs)
    else if n == 6 then JobAfter(c, 5).(client := Drained(true), bytes := 0)
    else JobAfter(c, 6).(client := Told(c))
  }

  lemma Published5(c: Case)
    ensures JobAfter(c, 5) == Job(Some(c.addrs), Some(c.ok), true, 1, false, 1, 1, Finished, Pending)
  {
    assert JobAfter(c, 1) == NEW_JOB.(client := Pending, addrs := Some(c.addrs), at := HasAddrs);
    assert JobAfter(c, 3) == NEW_JOB.(client := Pending, addrs := Some(c.addrs), ok := Some(c.ok), ready := true, at := IsReady);
  }

  function WithJob(s: Res, c: Case, n: nat): (r: Res) { s.(jobs := s.jobs[c.j := JobAfter(c, n)]) }

  lemma OneWork(s: Res, c: Case, n: nat)
    requires s.workers >= 1 && 1 in s.m.at && s.m.at[1] == PopDone(c.j) && n < 5
    ensures ResNext(WithJob(s, c, n), Work(1, c.ok, c.addrs)) == WithJob(s, c, n + 1)
  {
    hide ResNext, Worked;
    WorkStep(WithJob(s, c, n), c);
    assert s.jobs[c.j := JobAfter(c, n)][c.j := JobAfter(c, n + 1)] == s.jobs[c.j := JobAfter(c, n + 1)];
  }

  lemma ReadAndLook(s: Res, c: Case)
    requires c.j in s.m.at
    ensures ResNext(WithJob(s, c, 5), Read(c.j)) == WithJob(s, c, 6)
    ensures ResNext(WithJob(s, c, 6), Look(c.j)) == WithJob(s, c, 7)
  {
    Published5(c);
    hide Worked;
    assert s.jobs[c.j := JobAfter(c, 5)][c.j := JobAfter(c, 6)] == s.jobs[c.j := JobAfter(c, 6)];
    assert s.jobs[c.j := JobAfter(c, 6)][c.j := JobAfter(c, 7)] == s.jobs[c.j := JobAfter(c, 7)];
  }

  lemma JobIsAnswered(s: Res, c: Case)
    requires s.workers >= 1 && 1 in s.m.at && s.m.at[1] == PopDone(c.j) && c.j in s.m.at
    requires c.j in s.jobs && s.jobs[c.j] == NEW_JOB.(client := Pending)
    ensures ResRun(s, Answering(c)) == WithJob(s, c, 7)
  {
    hide ResRun, ResNext, WithJob;
    var w := Work(1, c.ok, c.addrs);
    var last := [Read(c.j)] + ([Look(c.j)] + []);
    assert Answering(c) == [w] + ([w] + ([w] + ([w] + ([w] + last))));
    Unworked(s, c);
    RunFirst(s, w, [w] + ([w] + ([w] + ([w] + last))));
    OneWork(s, c, 0);
    RunFirst(WithJob(s, c, 1), w, [w] + ([w] + ([w] + last)));
    OneWork(s, c, 1);
    RunFirst(WithJob(s, c, 2), w, [w] + ([w] + last));
    OneWork(s, c, 2);
    RunFirst(WithJob(s, c, 3), w, [w] + last);
    OneWork(s, c, 3);
    RunFirst(WithJob(s, c, 4), w, last);
    OneWork(s, c, 4);
    ReadAndLook(s, c);
    RunFirst(WithJob(s, c, 5), Read(c.j), [Look(c.j)] + []);
    RunFirst(WithJob(s, c, 6), Look(c.j), []);
    NoEvents(WithJob(s, c, 7));
  }

  lemma Unworked(s: Res, c: Case)
    requires c.j in s.jobs && s.jobs[c.j] == NEW_JOB.(client := Pending)
    ensures WithJob(s, c, 0) == s
  {
    assert s.jobs[c.j := s.jobs[c.j]] == s.jobs;
  }

  // ---- any number of jobs ---------------------------------------------------------------------

  ghost predicate Separate(workers: nat, starters: set<nat>, cs: seq<Case>) {
    && (forall i :: 0 <= i < |cs| ==> cs[i].j in starters && cs[i].j > workers)
    && (forall i, k :: 0 <= i < k < |cs| ==> cs[i].j != cs[k].j)
  }

  // The jobs of cs are answered and the other starters are still to call.
  ghost predicate DoneSoFar(s: Res, workers: nat, starters: set<nat>, cs: seq<Case>) {
    && Between(s) && s.workers == workers
    && (forall i :: 0 <= i < |cs| ==> cs[i].j in s.jobs && s.jobs[cs[i].j].client == Told(cs[i]))
    && (forall j :: j in starters && j > workers && (forall i :: 0 <= i < |cs| ==> cs[i].j != j) ==> CanStart(s, j))
  }

  lemma RoundAnswers(s: Res, workers: nat, starters: set<nat>, cs: seq<Case>, c: Case)
    requires DoneSoFar(s, workers, starters, cs) && Separate(workers, starters, cs + [c])
    ensures DoneSoFar(ResRun(s, Taking(c.j) + Answering(c)), workers, starters, cs + [c])
  {
    hide ResRun, JobAfter;
    assert forall i :: 0 <= i < |cs| ==> (cs + [c])[i] == cs[i];
    assert (cs + [c])[|cs|] == c;
    RunAppend(s, Taking(c.j), Answering(c));
    JobIsTaken(s, c.j);
    var h := ResRun(s, Taking(c.j));
    JobIsAnswered(h, c);
    LastJob(c);
    var r := WithJob(h, c, 7);
    forall j | j in starters && j > workers && (forall i :: 0 <= i < |cs + [c]| ==> (cs + [c])[i].j != j) ensures CanStart(r, j) {
      assert CanStart(s, j);
    }
    forall i | 0 <= i < |cs + [c]| ensures (cs + [c])[i].j in r.jobs && r.jobs[(cs + [c])[i].j].client == Told((cs + [c])[i]) {
      if i < |cs| { assert cs[i].j != c.j; }
    }
  }

  lemma LastJob(c: Case)
    ensures JobAfter(c, 7).client == Told(c) && JobAfter(c, 7).at.Finished?
  {
    Published5(c);
  }

  lemma BeginsBetween(workers: nat, starters: set<nat>)
    requires workers >= 1
    ensures DoneSoFar(Begin(workers, starters), workers, starters, [])
  {
  }

  lemma SeparatePrefix(workers: nat, starters: set<nat>, cs: seq<Case>)
    requires Separate(workers, starters, cs) && cs != []
    ensures Separate(workers, starters, cs[..|cs| - 1])
  {
  }

  lemma ToldEach(s: Res, workers: nat, starters: set<nat>, cs: seq<Case>)
    requires DoneSoFar(s, workers, starters, cs)
    ensures forall i :: 0 <= i < |cs| ==>
              cs[i].j in s.jobs && s.jobs[cs[i].j].client == Answered(cs[i].ok, if cs[i].ok then cs[i].addrs else [])
  {
    hide Between, CanStart;
  }

  lemma {:induction false} RoundsAnswer(workers: nat, starters: set<nat>, cs: seq<Case>)
    requires workers >= 1 && Separate(workers, starters, cs)
    ensures DoneSoFar(ResRun(Begin(workers, starters), Rounds(cs)), workers, starters, cs)
  {
    hide ResNext, Begin, DoneSoFar, Separate;
    if cs == [] {
      BeginsBetween(workers, starters);
    } else {
      var k := |cs| - 1;
      SeparatePrefix(workers, starters, cs);
      RoundsAnswer(workers, starters, cs[..k]);
      assert cs[..k] + [cs[k]] == cs;
      RunAppend(Begin(workers, starters), Rounds(cs[..k]), Taking(cs[k].j) + Answering(cs[k]));
      RoundAnswers(ResRun(Begin(workers, starters), Rounds(cs[..k])), workers, starters, cs[..k], cs[k]);
    }
  }

  // Jobs started one after the other are all looked up, and each connection is told what the lookup
  // for its job said.
  lemma AllAnswered(workers: nat, starters: set<nat>, cs: seq<Case>)
    requires workers >= 1 && Separate(workers, starters, cs)
    ensures var s := ResRun(Begin(workers, starters), Rounds(cs));
            forall i :: 0 <= i < |cs| ==>
              cs[i].j in s.jobs && s.jobs[cs[i].j].client == Answered(cs[i].ok, if cs[i].ok then cs[i].addrs else [])
  {
    hide ResRun, Begin, DoneSoFar, Separate, Rounds;
    RoundsAnswer(workers, starters, cs);
    ToldEach(ResRun(Begin(workers, starters), Rounds(cs)), workers, starters, cs);
  }
}
