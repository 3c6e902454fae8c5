// The thread pool of src/backend/thread_pool.cpp over the queue of ConnQueue: thread 0 runs run() and
// the accept loop, threads 1 to `workers` run the worker loop.
module ThreadPool {
  import opened Basics
  import Q = ConnQueue
  import opened ConnQueue

  datatype Phase = Accepting | Leaving | Joining | Returned

  // `accepted` connections have come in, numbered in the order of accept().  `taken` says which
  // worker took which connection off the queue; `dropped` is what the accept loop gave up.
  datatype Pool = Pool(
    m: Monitor, workers: nat, phase: Phase, stop: bool,
    accepted: nat, dropped: seq<nat>, taken: seq<(nat, nat)>)

  function Upto(n: nat): (s: set<nat>)
    ensures forall t: nat :: t in s <==> t <= n
  {
    if n == 0 then {0} else Upto(n - 1) + {n}
  }

  function Start(poolSize: nat, queueCapacity: nat): (p: Pool) {
    var workers := if poolSize != 0 then poolSize else 1;
    Pool(Fresh(Some(queueCapacity), Upto(workers)), workers, Accepting, false, 0, [], [])
  }

  datatype PoolAct =
    | Signal           // stop()
    | Accept           // accept() yielded a connection; hand it to the queue
    | Retry            // push_for() came back without storing it
    | Leave            // the accept loop sees the stop flag
    | CloseQueue
    | Join             // all workers joined; run() returns
    | Pop(t: nat)      // a worker calls pop(), first thing or after serving a connection
    | Step(a: Act)     // a thread inside the queue goes on

  predicate Inner(a: Act) { a.Enter? || a.Spurious? || a.Timeout? || a.Notify? || a.NotifyAll? }

  function Taken(before: Monitor, after: Monitor, t: nat): (s: seq<(nat, nat)>) {
    if |after.popped| == |before.popped| + 1 then [(t, after.popped[|before.popped|])] else []
  }

  ghost predicate AllEnded(p: Pool) {
    forall t :: t in p.m.at && t != 0 ==> p.m.at[t].PopEnded?
  }

  ghost function PoolNext(p: Pool, a: PoolAct): (r: Pool) {
    if 0 !in p.m.at then p
    else
      var l := p.m.at[0];
      match a
      case Signal => p.(stop := true)
      case Accept =>
        if p.phase.Accepting? && (l.Idle? || l.PushDone?) then
          p.(accepted := p.accepted + 1, m := Q.Next(p.m, CallPush(0, p.accepted)))
        else p
      case Retry =>
        if !p.phase.Accepting? then p
        else if l.PushTimedOut? && !p.stop then p.(m := Q.Next(p.m, CallPush(0, l.item)))
        else if l.PushTimedOut? || l.PushClosed? then p.(phase := Leaving, dropped := [l.item])
        else p
      case Leave =>
        if p.phase.Accepting? && p.stop && (l.Idle? || l.PushDone?) then p.(phase := Leaving) else p
      case CloseQueue =>
        if p.phase.Leaving? then p.(phase := Joining, m := Q.Next(p.m, CallClose(0))) else p
      case Join =>
        if p.phase.Joining? && l.CloseDone? && AllEnded(p) then p.(phase := Returned) else p
      case Pop(t) =>
        if t in p.m.at && t != 0 && (p.m.at[t].Idle? || p.m.at[t].PopDone?) then
          p.(m := Q.Next(p.m, CallPop(t)))
        else p
      case Step(b) =>
        if Inner(b) then
          var m := Q.Next(p.m, b);
          p.(m := m, taken := p.taken + Taken(p.m, m, b.t))
        else p
  }

  ghost function PoolRun(p: Pool, acts: seq<PoolAct>): (r: Pool)
    decreases |acts|
  {
    if acts == [] then p else PoolNext(PoolRun(p, acts[..|acts| - 1]), acts[|acts| - 1])
  }

  // ---- the invariant --------------------------------------------------------------------------

  function Numbers(n: nat): (s: seq<nat>) { seq(n, i => i) }

  function Conns(taken: seq<(nat, nat)>): (s: seq<nat>) { seq(|taken|, i requires 0 <= i < |taken| => taken[i].1) }

  // The connection the accept loop is still holding.
  function Held(l: Loc): (s: seq<nat>) {
    if l.Pushing? || l.PushAsleep? || l.PushWoken? || l.PushTimedOut? then [l.item] else []
  }

  predicate ProducerAt(l: Loc) {
    l.Idle? || l.Pushing? || l.PushAsleep? || l.PushWoken? || l.Pushed? || l.PushDone? || l.PushTimedOut?
  }

  // Where run() is, and that nobody else closes the queue.
  predicate MainOk(p: Pool, l: Loc) {
    match p.phase
    case Accepting => ProducerAt(l) && !p.m.closed
    case Leaving => (l.Idle? || l.PushDone? || l.PushTimedOut?) && !p.m.closed
    case Joining =>
      || (l.Closing? && !p.m.closed)
      || ((l.CloseFlagged? || l.CloseHalf? || l.CloseDone?) && p.m.closed)
    case Returned => l.CloseDone? && p.m.closed
  }

  ghost predicate Places(p: Pool) {
    && p.m.at.Keys == Upto(p.workers)
    && (forall t :: t in p.m.at && t != 0 ==> WorkerAt(p.m.at[t]))
    && MainOk(p, p.m.at[0])
  }

  // Every accepted connection is, in order: taken, queued, held by the accept loop, or dropped.
  ghost predicate Ledger(p: Pool)
    requires 0 in p.m.at
  {
    && Numbers(p.accepted) == p.m.pushed + (if p.phase.Accepting? then Held(p.m.at[0]) else p.dropped)
    && |p.dropped| <= 1 && (p.phase.Accepting? ==> p.dropped == []) && (p.dropped != [] ==> p.stop)
    && Conns(p.taken) == p.m.popped
  }

  // A worker's connection is the last one it took.
  ghost predicate Seats(p: Pool) {
    && (forall i :: 0 <= i < |p.taken| ==> 1 <= p.taken[i].0 <= p.workers)
    && (forall t :: t in p.m.at && (p.m.at[t].Popped? || p.m.at[t].PopDone?) ==>
          (t, p.m.at[t].item) in p.taken)
  }

  // A worker leaves only when nothing is left to take, now or ever.
  ghost predicate LeftEmpty(p: Pool) {
    (exists t :: t in p.m.at && p.m.at[t].PopEnded?) ==> p.m.closed && p.m.queue == []
  }

  ghost predicate PoolInv(p: Pool) {
    && MonitorInv(p.m) && p.workers > 0 && p.m.capacity.Some? && Places(p)
    && Ledger(p) && Seats(p) && LeftEmpty(p)
    && (p.phase.Returned? ==> AllEnded(p))
  }

  // ---- preservation ---------------------------------------------------------------------------

  // The parts of the invariant that are the pool's own.
  ghost predicate PoolFacts(p: Pool) {
    Places(p) && Ledger(p) && Seats(p) && LeftEmpty(p) && (p.phase.Returned? ==> AllEnded(p))
  }

  ghost function After(p: Pool, b: Act): (r: Pool) {
    var m := Q.Next(p.m, b);
    p.(m := m, taken := p.taken + Taken(p.m, m, b.t))
  }

  // A worker in the mutex section of pop().
  lemma WorkerTakes(p: Pool, t: nat)
    requires PoolFacts(p) && t in p.m.at && t != 0 && (p.m.at[t].Popping? || p.m.at[t].PopWoken?)
    requires p.m.queue != []
    ensures PoolFacts(After(p, Enter(t)))
  {
    var r := After(p, Enter(t));
    var x := p.m.queue[0];
    assert r.m == PopSection(p.m, t);
    assert r.m.at == p.m.at[t := Popped(x)];
    assert r.taken == p.taken + [(t, x)];
    assert Conns(r.taken) == Conns(p.taken) + [x];
    assert (t, x) in r.taken;
  }

  lemma WorkerStays(p: Pool, t: nat)
    requires PoolFacts(p) && t in p.m.at && t != 0 && (p.m.at[t].Popping? || p.m.at[t].PopWoken?)
    requires p.m.queue == []
    ensures PoolFacts(After(p, Enter(t)))
  {
    var r := After(p, Enter(t));
    assert r.m.at == p.m.at[t := if p.m.closed then PopEnded else PopAsleep];
    assert r.taken == p.taken;
  }

  lemma GentleFacts(p: Pool, l: Loc, k: Loc)
    requires Gentle(l, k)
    ensures WorkerAt(l) ==> WorkerAt(k)
    ensures MainOk(p, l) ==> MainOk(p, k)
    ensures Held(k) == Held(l)
    ensures k.PopEnded? <==> l.PopEnded?
    ensures k.Popped? || k.PopDone? ==> (l.Popped? || l.PopDone?) && l.item == k.item
  {
  }

  lemma GentlePlaces(p: Pool, r: Pool)
    requires Places(p) && Gently(p.m, r.m) && r == p.(m := r.m)
    ensures Places(r) && Held(r.m.at[0]) == Held(p.m.at[0])
  {
    forall t | t in p.m.at ensures WorkerAt(p.m.at[t]) ==> WorkerAt(r.m.at[t]) {
      GentleFacts(p, p.m.at[t], r.m.at[t]);
    }
    GentleFacts(p, p.m.at[0], r.m.at[0]);
  }

  lemma GentleSeats(p: Pool, r: Pool)
    requires Places(p) && Gently(p.m, r.m) && r == p.(m := r.m)
    ensures Seats(p) ==> Seats(r)
    ensures LeftEmpty(p) ==> LeftEmpty(r)
    ensures AllEnded(p) ==> AllEnded(r)
  {
    forall t | t in p.m.at
      ensures r.m.at[t].PopEnded? <==> p.m.at[t].PopEnded?
      ensures r.m.at[t].Popped? || r.m.at[t].PopDone? ==>
                (p.m.at[t].Popped? || p.m.at[t].PopDone?) && p.m.at[t].item == r.m.at[t].item
    {
      GentleFacts(p, p.m.at[t], r.m.at[t]);
    }
    hide Gentle;
  }

  lemma GentleKeeps(p: Pool, b: Act)
    requires PoolFacts(p) && Gently(p.m, Q.Next(p.m, b))
    ensures PoolFacts(After(p, b))
  {
    hide Q.Next;
    var r := After(p, b);
    assert r.taken == p.taken;
    GentlePlaces(p, r);
    GentleSeats(p, r);
    hide Places, Seats, LeftEmpty, AllEnded, Held;
  }

  lemma MainStores(p: Pool, b: Act)
    requires PoolFacts(p) && b.t == 0 && (b.Enter? || b.Timeout?) && CanPush(p.m.at[0], b.Timeout?)
    requires b.Timeout? ==> !p.m.at[0].Pushing?
    requires HasRoom(p.m)
    ensures PoolFacts(After(p, b))
  {
    var r := After(p, b);
    var x := p.m.at[0].item;
    assert r.m == Go(p.m.(queue := p.m.queue + [x], pushed := p.m.pushed + [x]), 0, Pushed);
    assert r.taken == p.taken;
    hide Q.Next, PushSection;
  }

  lemma MainWaits(p: Pool, b: Act)
    requires PoolFacts(p) && b.t == 0 && (b.Enter? || b.Timeout?) && CanPush(p.m.at[0], b.Timeout?)
    requires b.Timeout? ==> !p.m.at[0].Pushing?
    requires !HasRoom(p.m)
    ensures PoolFacts(After(p, b))
  {
    var r := After(p, b);
    var x := p.m.at[0].item;
    assert r.m == Go(p.m, 0, if b.Timeout? then PushTimedOut(x) else PushAsleep(x));
    assert r.taken == p.taken;
    hide Q.Next, PushSection;
  }

  lemma MainCloses(p: Pool)
    requires PoolFacts(p) && p.m.at[0].Closing?
    ensures PoolFacts(After(p, Enter(0)))
  {
    var r := After(p, Enter(0));
    assert r.m == Go(p.m.(closed := true), 0, CloseFlagged);
    assert r.taken == p.taken;
    hide Q.Next, CloseSection;
  }

  lemma StepFacts(p: Pool, b: Act)
    requires PoolFacts(p) && Inner(b)
    ensures PoolFacts(After(p, b))
  {
    if b.t !in p.m.at {
      assert After(p, b) == p;
    } else if b.Spurious? || b.NotifyAll? {
      WakingIsGentle(p.m, b);
      GentleKeeps(p, b);
    } else if b.Notify? {
      NotifyIsGentle(p.m, b);
      GentleKeeps(p, b);
    } else {
      MutexFacts(p, b);
    }
  }

  lemma MutexFacts(p: Pool, b: Act)
    requires PoolFacts(p) && b.t in p.m.at && (b.Enter? || b.Timeout?)
    ensures PoolFacts(After(p, b))
  {
    assert Places(p);
    hide PoolFacts, HasRoom;
    var t, l := b.t, p.m.at[b.t];
    if t != 0 && b.Enter? && (l.Popping? || l.PopWoken?) {
      if p.m.queue == [] { WorkerStays(p, t); } else { WorkerTakes(p, t); }
    } else if t == 0 && CanPush(l, b.Timeout?) && (b.Timeout? ==> !l.Pushing?) {
      if HasRoom(p.m) { MainStores(p, b); } else { MainWaits(p, b); }
    } else if t == 0 && b.Enter? && l.Closing? {
      MainCloses(p);
    } else {
      assert After(p, b) == p;
    }
  }

  // ---- every run ------------------------------------------------------------------------------

  // The calls that a thread makes between its turns in the queue.
  lemma AcceptFacts(p: Pool)
    requires PoolFacts(p)
    ensures PoolFacts(PoolNext(p, Accept))
  {
    var r := PoolNext(p, Accept);
    if r != p {
      assert r.m == Go(p.m, 0, Pushing(p.accepted));
      hide Q.Next;
      assert Numbers(p.accepted + 1) == Numbers(p.accepted) + [p.accepted];
    }
  }

  lemma RetryFacts(p: Pool)
    requires PoolFacts(p)
    ensures PoolFacts(PoolNext(p, Retry))
  {
    var r := PoolNext(p, Retry);
    if r.m != p.m { assert r.m == Go(p.m, 0, Pushing(p.m.at[0].item)); }
    hide Q.Next;
  }

  lemma PopFacts(p: Pool, t: nat)
    requires PoolFacts(p)
    ensures PoolFacts(PoolNext(p, Pop(t)))
  {
    var r := PoolNext(p, Pop(t));
    if r != p {
      assert r.m == Go(p.m, t, Popping);
      hide Q.Next;
    }
  }

  lemma CloseQueueFacts(p: Pool)
    requires PoolFacts(p)
    ensures PoolFacts(PoolNext(p, CloseQueue))
  {
    var r := PoolNext(p, CloseQueue);
    if r != p {
      assert r.m == Go(p.m, 0, Closing);
      hide Q.Next;
    }
  }

  lemma PhaseFacts(p: Pool, a: PoolAct)
    requires PoolFacts(p) && (a.Signal? || a.Leave? || a.Join?)
    ensures PoolFacts(PoolNext(p, a))
  {
    hide Q.Next;
  }

  lemma PoolNextInv(p: Pool, a: PoolAct)
    requires PoolInv(p)
    ensures PoolInv(PoolNext(p, a))
  {
    var r := PoolNext(p, a);
    assert PoolFacts(p);
    assert MonitorInv(r.m) && r.m.capacity.Some? && r.workers == p.workers by {
      hide MonitorInv, PoolFacts, Q.Next;
      match a
      case Accept => NextInv(p.m, CallPush(0, p.accepted)); NextKeeps(p.m, CallPush(0, p.accepted));
      case Retry =>
        if r.m != p.m { NextInv(p.m, CallPush(0, p.m.at[0].item)); NextKeeps(p.m, CallPush(0, p.m.at[0].item)); }
      case CloseQueue => NextInv(p.m, CallClose(0)); NextKeeps(p.m, CallClose(0));
      case Pop(t) => NextInv(p.m, CallPop(t)); NextKeeps(p.m, CallPop(t));
      case Step(b) => NextInv(p.m, b); NextKeeps(p.m, b);
      case _ =>
    }
    assert PoolFacts(r) by {
      hide MonitorInv, PoolFacts, Q.Next;
      match a
      case Accept => AcceptFacts(p);
      case Retry => RetryFacts(p);
      case Pop(t) => PopFacts(p, t);
      case CloseQueue => CloseQueueFacts(p);
      case Step(b) => if Inner(b) { StepFacts(p, b); }
      case _ => PhaseFacts(p, a);
    }
    hide MonitorInv, PoolNext, Places, Ledger, Seats, LeftEmpty, AllEnded;
  }

  lemma {:induction false} PoolRunInv(poolSize: nat, queueCapacity: nat, acts: seq<PoolAct>)
    ensures PoolInv(PoolRun(Start(poolSize, queueCapacity), acts))
    decreases |acts|
  {
    var p := Start(poolSize, queueCapacity);
    if acts == [] {
      MonitorRunInv(Some(queueCapacity), Upto(p.workers), []);
      assert PoolFacts(p);
    } else {
      hide PoolInv, PoolNext;
      PoolRunInv(poolSize, queueCapacity, acts[..|acts| - 1]);
      PoolNextInv(PoolRun(p, acts[..|acts| - 1]), acts[|acts| - 1]);
    }
  }

  lemma {:induction false} PoolRunKeeps(p: Pool, acts: seq<PoolAct>)
    ensures PoolRun(p, acts).workers == p.workers && PoolRun(p, acts).m.capacity == p.m.capacity
    decreases |acts|
  {
    if acts != [] {
      var k, a := PoolRun(p, acts[..|acts| - 1]), acts[|acts| - 1];
      PoolRunKeeps(p, acts[..|acts| - 1]);
      NextKeeps(k.m, CallPush(0, k.accepted));
      if 0 in k.m.at && k.m.at[0].PushTimedOut? { NextKeeps(k.m, CallPush(0, k.m.at[0].item)); }
      NextKeeps(k.m, CallClose(0));
      if a.Pop? { NextKeeps(k.m, CallPop(a.t)); }
      if a.Step? { NextKeeps(k.m, a.a); }
      hide Q.Next;
    }
  }

  predicate Serving(l: Loc) { l.Popped? || l.PopDone? }

  ghost function InService(p: Pool): (s: set<nat>) { set t | t in p.m.at && Serving(p.m.at[t]) }

  // The connections whose worker has gone on to the next pop().
  ghost function Finished(p: Pool): (n: int) { |p.taken| - |InService(p)| }

  // What the accept loop has in hand, or gave up.
  function Rest(p: Pool): (s: seq<nat>) {
    if p.phase.Accepting? then (if 0 in p.m.at then Held(p.m.at[0]) else []) else p.dropped
  }

  // Every connection goes to exactly one worker, in the order they were accepted, except at most one that
  // the accept loop still holds or gave up; and no two workers serve the same one.
  ghost predicate OneWorkerEach(p: Pool) {
    && Numbers(p.accepted) == Conns(p.taken) + p.m.queue + Rest(p)
    && |Rest(p)| <= 1
    && (forall i :: 0 <= i < |p.taken| ==> p.taken[i].1 == i && 1 <= p.taken[i].0 <= p.workers)
    && (forall t, u :: t in InService(p) && u in InService(p) && t != u ==> p.m.at[t].item != p.m.at[u].item)
  }

  lemma EachConnectionToOneWorker(poolSize: nat, queueCapacity: nat, acts: seq<PoolAct>)
    ensures OneWorkerEach(PoolRun(Start(poolSize, queueCapacity), acts))
  {
    var p := PoolRun(Start(poolSize, queueCapacity), acts);
    PoolRunInv(poolSize, queueCapacity, acts);
    hide PoolRun, MonitorInv;
    assert Fifo(p.m) by { assert MonitorInv(p.m); MonitorIsFifo(p.m); }
    InvOneWorker(p);
  }

  lemma InvOneWorker(p: Pool)
    requires PoolInv(p) && Fifo(p.m)
    ensures OneWorkerEach(p)
  {
    hide MonitorInv;
    var rest := Rest(p);
    assert Numbers(p.accepted) == (p.m.popped + p.m.queue) + rest;
    forall i | 0 <= i < |p.taken| ensures p.taken[i].1 == i {
      assert Conns(p.taken)[i] == p.taken[i].1;
      assert Numbers(p.accepted)[i] == i;
    }
    forall t, u | t in InService(p) && u in InService(p) && t != u ensures p.m.at[t].item != p.m.at[u].item {
      assert (t, p.m.at[t].item) in p.taken && (u, p.m.at[u].item) in p.taken;
    }
  }

  lemma {:induction false} UptoSize(n: nat)
    ensures |Upto(n)| == n + 1
  {
    if n > 0 { UptoSize(n - 1); }
  }

  // The bounds the back-pressure is for: the queue never exceeds its capacity, no more connections
  // are in service than there are workers, and at most one more waits in the accept loop.
  lemma PoolIsBounded(poolSize: nat, queueCapacity: nat, acts: seq<PoolAct>)
    ensures var p := PoolRun(Start(poolSize, queueCapacity), acts);
            var workers, capacity := Max(poolSize, 1), Max(queueCapacity, 1);
            && |p.m.queue| <= capacity
            && |InService(p)| <= workers
            && p.accepted - Finished(p) - |p.dropped| <= workers + capacity + 1
  {
    var p := PoolRun(Start(poolSize, queueCapacity), acts);
    PoolRunInv(poolSize, queueCapacity, acts);
    PoolRunKeeps(Start(poolSize, queueCapacity), acts);
    hide PoolRun;
    MonitorIsFifo(p.m);
    InvOneWorker(p);
    hide MonitorInv;
    assert 0 in Upto(p.workers);
    assert InService(p) <= Upto(p.workers) - {0};
    UptoSize(p.workers);
    SubsetSize(InService(p), Upto(p.workers) - {0});
    hide Places, Seats, LeftEmpty, InService;
    assert |Numbers(p.accepted)| == |Conns(p.taken)| + |p.m.queue| + |Rest(p)|;
  }

  lemma {:induction false} SubsetSize(a: set<nat>, b: set<nat>)
    requires a <= b
    ensures |a| <= |b|
    decreases a
  {
    if a != {} {
      var x :| x in a;
      SubsetSize(a - {x}, b - {x});
    }
  }

  // When run() returns, everything it accepted has been served to the end by exactly one worker,
  // except at most one connection, given up because the stop flag was set.
  lemma ReturnMeansServed(poolSize: nat, queueCapacity: nat, acts: seq<PoolAct>)
    ensures var p := PoolRun(Start(poolSize, queueCapacity), acts);
            p.phase.Returned? ==>
              && p.m.queue == [] && InService(p) == {}
              && Numbers(p.accepted) == Conns(p.taken) + p.dropped && |p.dropped| <= 1
              && (p.dropped != [] ==> p.stop)
  {
    var p := PoolRun(Start(poolSize, queueCapacity), acts);
    PoolRunInv(poolSize, queueCapacity, acts);
    hide PoolRun;
    MonitorIsFifo(p.m);
    InvOneWorker(p);
    hide MonitorInv;
    if p.phase.Returned? {
      assert 1 in p.m.at && p.m.at[1].PopEnded?;
      assert Conns(p.taken) + [] == Conns(p.taken);
    }
  }
}
