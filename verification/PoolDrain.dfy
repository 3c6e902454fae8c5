// Shutdown of the thread pool: once run() has closed the queue, the workers finish after a bounded
// number of steps, whatever the schedule.
module PoolDrain {
  import opened Basics
  import Q = ConnQueue
  import opened ConnQueue
  import opened ThreadPool

  // How many more steps a worker takes if it finds nothing more to serve.
  function Rank(l: Loc): (n: nat) {
    if l.PopEnded? then 0 else if l.Popped? then 3 else if l.PopDone? || l.Idle? then 2 else 1
  }

  function Ranks(at: map<nat, Loc>, n: nat): (r: nat) {
    if n == 0 then 0 else Ranks(at, n - 1) + (if n in at then Rank(at[n]) else 0)
  }

  lemma {:induction false} RanksMove(at: map<nat, Loc>, n: nat, t: nat, l: Loc)
    requires t in at
    ensures Ranks(at[t := l], n) == Ranks(at, n) + if 1 <= t <= n then Rank(l) - Rank(at[t]) else 0
  {
    hide Rank;
    if n > 0 { RanksMove(at, n - 1, t, l); }
  }

  lemma {:induction false} RanksBound(at: map<nat, Loc>, n: nat)
    ensures Ranks(at, n) <= 3 * n
  {
    if n > 0 { RanksBound(at, n - 1); }
  }

  // run() has closed the queue and is joining the workers.
  ghost predicate Draining(p: Pool) {
    PoolInv(p) && (p.phase.Joining? || p.phase.Returned?) && 0 in p.m.at && p.m.at[0].CloseDone?
  }

  function Left(p: Pool): (n: nat) {
    3 * |p.m.queue| + Ranks(p.m.at, p.workers) + if p.phase.Returned? then 0 else 1
  }

  lemma NobodySleeps(p: Pool)
    requires Draining(p)
    ensures !AnyConsumerAsleep(p.m) && !AnyProducerAsleep(p.m) && p.m.closed
  {
    forall t | t in p.m.at ensures !p.m.at[t].CloseFlagged? && !p.m.at[t].CloseHalf? {
      ThreadFacts(p, t);
    }
    hide PoolInv;
    DrainingIsClosed(p);
    ClosedMonitor(p.m);
  }

  lemma DrainingIsClosed(p: Pool)
    requires Draining(p)
    ensures MonitorInv(p.m) && p.m.closed
  {
    hide MonitorInv;
  }

  // With the queue closed and nobody asleep, a thread's step concerns that thread alone.
  lemma LoneStep(m: Monitor, b: Act)
    requires m.closed && !AnyConsumerAsleep(m) && !AnyProducerAsleep(m)
    requires Inner(b) && b.t in m.at && (m.at[b.t].CloseDone? || WorkerAt(m.at[b.t]))
    ensures var t, l, n := b.t, m.at[b.t], Q.Next(m, b);
            if b.Notify? && l.Popped? then n == Go(m, t, PopDone(l.item))
            else if b.Enter? && (l.Popping? || l.PopWoken?) then n == PopSection(m, t)
            else n == m
  {
    hide PopSection, PushSection, CloseSection, WakeConsumers, WakeProducers, Go;
    assert b.t in m.at && !m.at[b.t].PopAsleep?;
  }

  function LeftIn(m: Monitor, workers: nat): (n: nat) { 3 * |m.queue| + Ranks(m.at, workers) }

  lemma LoneStepIsProgress(m: Monitor, b: Act, workers: nat)
    requires m.closed && !AnyConsumerAsleep(m) && !AnyProducerAsleep(m)
    requires Inner(b)
    requires b.t in m.at ==> if b.t == 0 then m.at[0].CloseDone? else WorkerAt(m.at[b.t]) && b.t <= workers
    ensures var n := Q.Next(m, b);
            n == m || (LeftIn(n, workers) < LeftIn(m, workers) && (0 in m.at ==> 0 in n.at && n.at[0] == m.at[0]))
  {
    if b.t !in m.at { return; }
    LoneStep(m, b);
    hide Q.Next, AnyConsumerAsleep, AnyProducerAsleep;
    var t, l := b.t, m.at[b.t];
    if l.Popped? { RanksMove(m.at, workers, t, PopDone(l.item)); }
    else if m.queue != [] { RanksMove(m.at, workers, t, Popped(m.queue[0])); }
    else { RanksMove(m.at, workers, t, PopEnded); }
    hide Ranks;
  }

  ghost predicate Progress(p: Pool, r: Pool) { Draining(r) && Left(r) < Left(p) }

  lemma ThreadFacts(p: Pool, t: nat)
    requires PoolInv(p) && t in p.m.at
    ensures t <= p.workers && (t != 0 ==> WorkerAt(p.m.at[t]))
  {
    hide MonitorInv;
    assert t in Upto(p.workers);
  }

  lemma StepShape(p: Pool, b: Act)
    requires 0 in p.m.at && Inner(b)
    ensures var r := PoolNext(p, Step(b));
            && r.m == Q.Next(p.m, b) && r.phase == p.phase && r.workers == p.workers
            && (r.m == p.m ==> r == p)
  {
    hide Q.Next;
    assert p.taken + [] == p.taken;
  }

  lemma DrainStepIn(p: Pool, b: Act)
    requires Draining(p) && Inner(b)
    ensures PoolNext(p, Step(b)) == p || Progress(p, PoolNext(p, Step(b)))
  {
    PoolNextInv(p, Step(b));
    NobodySleeps(p);
    hide PoolInv, Ranks, AnyConsumerAsleep, AnyProducerAsleep, Q.Next, PoolNext;
    StepShape(p, b);
    if b.t in p.m.at { ThreadFacts(p, b.t); }
    LoneStepIsProgress(p.m, b, p.workers);
  }

  lemma DrainPop(p: Pool, t: nat)
    requires Draining(p)
    ensures PoolNext(p, Pop(t)) == p || Progress(p, PoolNext(p, Pop(t)))
  {
    hide PoolInv;
    PoolNextInv(p, Pop(t));
    if t in p.m.at {
      ThreadFacts(p, t);
      RanksMove(p.m.at, p.workers, t, Popping);
    }
    hide Ranks;
  }

  lemma DrainStep(p: Pool, a: PoolAct)
    requires Draining(p)
    ensures var r := PoolNext(p, a); r == p || Progress(p, r) || (a.Signal? && Draining(r) && Left(r) == Left(p))
  {
    if a.Step? {
      if Inner(a.a) { DrainStepIn(p, a.a); }
    } else if a.Pop? {
      DrainPop(p, a.t);
    } else {
      PoolNextInv(p, a);
      hide PoolInv, Q.Next, Ranks;
    }
  }

  // The steps of a run that change something (the stop signal aside).
  ghost function Moves(p: Pool, acts: seq<PoolAct>): (n: nat)
    decreases |acts|
  {
    if acts == [] then 0
    else
      var rest, a := acts[..|acts| - 1], acts[|acts| - 1];
      var k := PoolRun(p, rest);
      Moves(p, rest) + if PoolNext(k, a) == k || a.Signal? then 0 else 1
  }

  lemma {:induction false} DrainRun(p: Pool, acts: seq<PoolAct>)
    requires Draining(p)
    ensures Draining(PoolRun(p, acts)) && Moves(p, acts) + Left(PoolRun(p, acts)) <= Left(p)
    decreases |acts|
  {
    hide Draining, Left, PoolNext;
    if acts != [] {
      DrainRun(p, acts[..|acts| - 1]);
      DrainStep(PoolRun(p, acts[..|acts| - 1]), acts[|acts| - 1]);
    }
  }

  // The step a worker can take, whatever the others do.
  function Turn(p: Pool, t: nat): (a: PoolAct) {
    if t in p.m.at && p.m.at[t].Popped? then Step(Notify(t, 0))
    else if t in p.m.at && (p.m.at[t].Popping? || p.m.at[t].PopWoken?) then Step(Enter(t))
    else Pop(t)
  }

  lemma WorkersCanMove(p: Pool, t: nat)
    requires Draining(p) && t in p.m.at && t != 0 && !p.m.at[t].PopEnded?
    ensures PoolNext(p, Turn(p, t)) != p
  {
    NobodySleeps(p);
    ThreadFacts(p, t);
    hide PoolInv;
    var l := p.m.at[t];
    assert !l.PopAsleep?;
    if Turn(p, t).Step? {
      LoneStep(p.m, Turn(p, t).a);
      StepShape(p, Turn(p, t).a);
      hide AnyConsumerAsleep, AnyProducerAsleep, Q.Next, PoolNext;
      assert PoolNext(p, Turn(p, t)).m.at[t] != l;
    } else {
      hide AnyConsumerAsleep, AnyProducerAsleep, PopSection;
      assert PoolNext(p, Turn(p, t)).m == Go(p.m, t, Popping);
    }
  }

  // Either run() has returned, or it is about to, or some worker can go on.
  ghost predicate Goes(r: Pool) {
    r.phase.Returned? || PoolNext(r, Join).phase.Returned? || exists t :: PoolNext(r, Turn(r, t)) != r
  }

  lemma DrainingGoes(r: Pool)
    requires Draining(r)
    ensures Goes(r)
  {
    hide PoolInv;
    if !AllEnded(r) {
      var t :| t in r.m.at && t != 0 && !r.m.at[t].PopEnded?;
      WorkersCanMove(r, t);
    }
    hide Turn;
  }

  // From the moment close() has returned, at most three steps for each queued connection and each
  // worker remain; until run() returns some thread can always take one; and run() then returns.
  lemma ShutdownCompletes(poolSize: nat, queueCapacity: nat, acts: seq<PoolAct>, more: seq<PoolAct>)
    requires var p := PoolRun(Start(poolSize, queueCapacity), acts);
             p.phase.Joining? && 0 in p.m.at && p.m.at[0].CloseDone?
    ensures var p := PoolRun(Start(poolSize, queueCapacity), acts);
            && Moves(p, more) <= 3 * |p.m.queue| + 3 * p.workers + 1
            && Goes(PoolRun(p, more))
  {
    var p := PoolRun(Start(poolSize, queueCapacity), acts);
    PoolRunInv(poolSize, queueCapacity, acts);
    hide PoolRun, Moves, PoolInv;
    DrainRun(p, more);
    RanksBound(p.m.at, p.workers);
    DrainingGoes(PoolRun(p, more));
    hide Goes, Ranks;
  }
}
