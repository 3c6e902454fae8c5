// The resolver catches up: between two arrivals its workers take a bounded number of steps, one of
// them can always go on until they are at rest, and then every queued job has been published.
module ResolverDrain {
  import opened Basics
  import Q = ConnQueue
  import opened ConnQueue
  import opened Resolver

  // How many more steps a thread takes if it finds nothing more to do.
  function RankAt(jobs: map<nat, Job>, l: Loc): (n: nat) {
    match l
    case Popping => 1
    case PopWoken => 1
    case Idle => 2
    case PopDone(j) => 2 + if j in jobs then StationsLeft(jobs[j].at) else 5
    case Popped(_) => 8
    case _ => 0
  }

  function Rank(s: Res, t: nat): (n: nat) { if t in s.m.at then RankAt(s.jobs, s.m.at[t]) else 0 }

  function Ranks(s: Res, n: nat): (r: nat) { if n == 0 then 0 else Ranks(s, n - 1) + Rank(s, n) }

  // A job costs its worker at most nine steps, a notification one.
  ghost function Behind(s: Res): (n: nat) {
    9 * |s.m.queue| + Ranks(s, s.workers) + 2 * Num(s.m, Unannounced)
  }

  lemma {:induction false} RanksBound(s: Res, n: nat)
    ensures Ranks(s, n) <= 8 * n
  {
    if n > 0 { RanksBound(s, n - 1); }
  }

  lemma {:induction false} RanksMove(s: Res, r: Res, n: nat, t: nat)
    requires forall u :: 1 <= u <= n && u != t ==> Rank(r, u) == Rank(s, u)
    ensures Ranks(r, n) == Ranks(s, n) + if 1 <= t <= n then Rank(r, t) - Rank(s, t) else 0
  {
    hide Rank;
    if n > 0 { RanksMove(s, r, n - 1, t); }
  }

  // One thread moves.
  lemma MoveRanks(s: Res, r: Res, t: nat, l: Loc)
    requires t in s.m.at && r.m.at == s.m.at[t := l] && r.jobs == s.jobs && r.workers == s.workers
    ensures Ranks(r, s.workers) == Ranks(s, s.workers)
            + if 1 <= t <= s.workers then RankAt(s.jobs, l) - RankAt(s.jobs, s.m.at[t]) else 0
    ensures Num(r.m, Unannounced) == Num(s.m, Unannounced) - One(s.m.at[t].Pushed?) + One(l.Pushed?)
  {
    CountMoves(s.m, r.m, t, l, Unannounced);
    hide Num, RankAt;
    RanksMove(s, r, s.workers, t);
  }

  // What the workers do by themselves.
  predicate Internal(s: Res, e: Event) {
    || e.Work? || e.NextJob?
    || (e.Queue? && (e.a.Notify? || (e.a.Enter? && 1 <= e.a.t <= s.workers)))
  }

  // No new job, no wakeup out of the blue, no shutdown() under way.
  predicate Quiet(s: Res, e: Event) {
    Internal(s, e) || e.Return? || e.Read? || e.Look? || e.Abandon? || e.Joined?
  }

  // ---- one step -------------------------------------------------------------------------------

  // The connections' side and the join cost the workers nothing.
  lemma ClientStep(s: Res, e: Event)
    requires e.Return? || e.Read? || e.Look? || e.Abandon? || e.Joined?
    ensures Behind(ResNext(s, e)) == Behind(s)
  {
    var r := ResNext(s, e);
    assert r.m == s.m && r.workers == s.workers;
    assert forall j :: (j in r.jobs <==> j in s.jobs) && (j in s.jobs ==> r.jobs[j].at == s.jobs[j].at);
    hide ResNext, AllEnded;
    forall u | 1 <= u <= s.workers ensures Rank(r, u) == Rank(s, u) { }
    RanksMove(s, r, s.workers, 0);
  }

  lemma OtherHands(s: Res, t: nat, u: nat, j: nat)
    requires ResInv(s) && t in s.m.at && u in s.m.at && t != u && 1 <= t <= s.workers && 1 <= u <= s.workers
    requires s.m.at[t] == PopDone(j)
    ensures s.m.at[u] != PopDone(j)
  {
    hide MonitorInv, JobOk, QueueOk;
    assert ThreadOk(s, t) && ThreadOk(s, u);
  }

  lemma WorkShape(s: Res, t: nat, ok: bool, addrs: seq<nat>)
    ensures var r := ResNext(s, Work(t, ok, addrs));
            if Busy(s, t) && !s.jobs[s.m.at[t].item].at.Finished?
            then r == s.(jobs := s.jobs[s.m.at[t].item := Worked(s.jobs[s.m.at[t].item], ok, addrs)])
            else r == s
  {
    if Busy(s, t) && s.jobs[s.m.at[t].item].at.Finished? {
      assert s.jobs[s.m.at[t].item := s.jobs[s.m.at[t].item]] == s.jobs;
    }
  }

  lemma StationDone(j: Job, ok: bool, addrs: seq<nat>)
    requires !j.at.Finished?
    ensures StationsLeft(Worked(j, ok, addrs).at) < StationsLeft(j.at)
  {
  }

  lemma WorkStep(s: Res, t: nat, ok: bool, addrs: seq<nat>)
    requires ResInv(s)
    ensures var r := ResNext(s, Work(t, ok, addrs)); r == s || Behind(r) < Behind(s)
  {
    WorkShape(s, t, ok, addrs);
    var r := ResNext(s, Work(t, ok, addrs));
    hide ResNext, Worked, ResInv;
    if Busy(s, t) && !s.jobs[s.m.at[t].item].at.Finished? {
      var j := s.m.at[t].item;
      StationDone(s.jobs[j], ok, addrs);
      forall u | 1 <= u <= s.workers && u != t ensures Rank(r, u) == Rank(s, u) {
        if u in s.m.at { OtherHands(s, t, u, j); }
      }
      RanksMove(s, r, s.workers, t);
      assert Rank(r, t) < Rank(s, t);
      hide Ranks, Num, Rank;
    }
  }

  lemma NextJobShape(s: Res, t: nat)
    ensures var r := ResNext(s, NextJob(t));
            r == s || (1 <= t <= s.workers && t in s.m.at && r == s.(m := Go(s.m, t, Popping))
                       && RankAt(s.jobs, s.m.at[t]) == 2)
  {
  }

  lemma NextJobStep(s: Res, t: nat)
    ensures var r := ResNext(s, NextJob(t)); r == s || Behind(r) < Behind(s)
  {
    NextJobShape(s, t);
    var r := ResNext(s, NextJob(t));
    hide ResNext;
    if r != s {
      assert !s.m.at[t].Pushed?;
      MoveRanks(s, r, t, Popping);
      hide Ranks, Num;
    }
  }

  lemma EnterShape(s: Res, t: nat)
    requires t in s.m.at ==> WorkerAt(s.m.at[t])
    ensures var r := ResNext(s, Queue(Enter(t)));
            if t in s.m.at && (s.m.at[t].Popping? || s.m.at[t].PopWoken?)
            then r.m == PopSection(s.m, t) && r.jobs == s.jobs && r.workers == s.workers
            else r == s
  {
    hide PopSection;
  }

  lemma SectionRanks(s: Res, r: Res, t: nat)
    requires 1 <= t <= s.workers && t in s.m.at && (s.m.at[t].Popping? || s.m.at[t].PopWoken?)
    requires r.m == PopSection(s.m, t) && r.jobs == s.jobs && r.workers == s.workers
    ensures Behind(r) < Behind(s)
  {
    var l := if s.m.queue != [] then Popped(s.m.queue[0]) else if s.m.closed then PopEnded else PopAsleep;
    assert r.m.at == s.m.at[t := l] && |r.m.queue| == |s.m.queue| - if s.m.queue != [] then 1 else 0;
    hide PopSection, Ranks, Num;
    MoveRanks(s, r, t, l);
  }

  // A worker in the mutex section takes a job, goes to sleep or leaves.
  lemma EnterStep(s: Res, t: nat)
    requires 1 <= t <= s.workers
    requires t in s.m.at ==> WorkerAt(s.m.at[t])
    ensures var r := ResNext(s, Queue(Enter(t))); r == s || Behind(r) < Behind(s)
  {
    hide ResNext, Behind, PopSection;
    EnterShape(s, t);
    if t in s.m.at && (s.m.at[t].Popping? || s.m.at[t].PopWoken?) { SectionRanks(s, ResNext(s, Queue(Enter(t))), t); }
  }

  lemma NoProducerSleeps(s: Res)
    requires ResInv(s)
    ensures !AnyProducerAsleep(s.m)
  {
    hide ResFacts;
    assert forall u :: u in s.m.at && s.m.at[u].PushAsleep? ==> u in Where(s.m.at, AsleepIn);
  }

  lemma WorkerNotifyShape(s: Res, t: nat, u: nat)
    requires !AnyProducerAsleep(s.m) && t in s.m.at && s.m.at[t].Popped?
    ensures ResNext(s, Queue(Notify(t, u))) == s.(m := Go(s.m, t, PopDone(s.m.at[t].item)))
  {
    hide AnyConsumerAsleep;
  }

  lemma WorkerNotifyStep(s: Res, t: nat, u: nat)
    requires !AnyProducerAsleep(s.m) && t in s.m.at && s.m.at[t].Popped? && 1 <= t <= s.workers
    ensures Behind(ResNext(s, Queue(Notify(t, u)))) < Behind(s)
  {
    WorkerNotifyShape(s, t, u);
    var r := ResNext(s, Queue(Notify(t, u)));
    hide ResNext, AnyProducerAsleep;
    MoveRanks(s, r, t, PopDone(s.m.at[t].item));
    hide Ranks, Num;
  }

  lemma StarterNotifyShape(s: Res, t: nat, u: nat)
    requires t in s.m.at && s.m.at[t].Pushed?
    ensures var r := ResNext(s, Queue(Notify(t, u)));
            if u in s.m.at && s.m.at[u].PopAsleep? then r == s.(m := Go(Go(s.m, u, PopWoken), t, PushDone))
            else if AnyConsumerAsleep(s.m) then r == s
            else r == s.(m := Go(s.m, t, PushDone))
  {
    hide AnyProducerAsleep, AnyConsumerAsleep;
  }

  lemma NotifiedRanks(s: Res, t: nat)
    requires t in s.m.at && s.m.at[t].Pushed? && t > s.workers
    ensures Behind(s.(m := Go(s.m, t, PushDone))) == Behind(s) - 2
  {
    hide Ranks, Num, RankAt;
    MoveRanks(s, s.(m := Go(s.m, t, PushDone)), t, PushDone);
  }

  lemma WokenRanks(s: Res, u: nat)
    requires u in s.m.at && s.m.at[u].PopAsleep?
    ensures Behind(s.(m := Go(s.m, u, PopWoken))) <= Behind(s) + 1
  {
    hide Ranks, Num;
    MoveRanks(s, s.(m := Go(s.m, u, PopWoken)), u, PopWoken);
  }

  // start() notifies: at most one worker wakes.
  lemma StarterNotifyStep(s: Res, t: nat, u: nat)
    requires t in s.m.at && s.m.at[t].Pushed? && t > s.workers
    ensures var r := ResNext(s, Queue(Notify(t, u))); r == s || Behind(r) < Behind(s)
  {
    hide ResNext, AnyConsumerAsleep, Behind;
    StarterNotifyShape(s, t, u);
    if u in s.m.at && s.m.at[u].PopAsleep? {
      WokenRanks(s, u);
      NotifiedRanks(s.(m := Go(s.m, u, PopWoken)), t);
    } else {
      NotifiedRanks(s, t);
    }
  }

  lemma InternalStep(s: Res, e: Event)
    requires ResInv(s) && Internal(s, e)
    ensures var r := ResNext(s, e); r == s || Behind(r) < Behind(s)
  {
    hide ResNext, Behind, ResInv;
    match e
    case Work(t, ok, addrs) => WorkStep(s, t, ok, addrs);
    case NextJob(t) => NextJobStep(s, t);
    case Queue(a) =>
      if a.t in s.m.at { Placed(s, a.t); }
      if a.Enter? { EnterStep(s, a.t); }
      else { NotifyStep(s, a.t, a.u); }
    case _ =>
  }

  // Only workers hold popped jobs and only starters owe notifications.
  lemma Placed(s: Res, t: nat)
    requires ResInv(s) && t in s.m.at
    ensures 1 <= t <= s.workers ==> WorkerAt(s.m.at[t])
    ensures s.m.at[t].Popped? ==> 1 <= t <= s.workers
    ensures s.m.at[t].Pushed? ==> t > s.workers
  {
    hide MonitorInv, JobOk, QueueOk;
    assert ThreadOk(s, t);
  }

  lemma NotifyStep(s: Res, t: nat, u: nat)
    requires ResInv(s)
    ensures var r := ResNext(s, Queue(Notify(t, u))); r == s || Behind(r) < Behind(s)
  {
    hide Behind, ResInv;
    if t in s.m.at && s.m.at[t].Pushed? {
      Placed(s, t);
      hide ResNext;
      StarterNotifyStep(s, t, u);
    } else if t in s.m.at && s.m.at[t].Popped? {
      Placed(s, t);
      NoProducerSleeps(s);
      hide ResNext;
      WorkerNotifyStep(s, t, u);
    } else {
      assert Q.Next(s.m, Notify(t, u)) == s.m;
    }
  }

  // ---- every run ------------------------------------------------------------------------------

  // The internal events that changed something.
  ghost function Moves(s: Res, events: seq<Event>): (n: nat)
    decreases |events|
  {
    if events == [] then 0
    else
      var rest, e := events[..|events| - 1], events[|events| - 1];
      var k := ResRun(s, rest);
      Moves(s, rest) + if Internal(s, e) && ResNext(k, e) != k then 1 else 0
  }

  lemma {:induction false} QuietRun(s: Res, events: seq<Event>)
    requires ResInv(s) && forall i :: 0 <= i < |events| ==> Quiet(s, events[i])
    ensures var r := ResRun(s, events);
            ResInv(r) && r.workers == s.workers && Moves(s, events) + Behind(r) <= Behind(s)
    decreases |events|
  {
    hide ResInv, Behind, ResNext;
    if events != [] {
      var rest, e := events[..|events| - 1], events[|events| - 1];
      QuietRun(s, rest);
      var k := ResRun(s, rest);
      ResNextInv(k, e);
      if Internal(s, e) { InternalStep(k, e); } else { ClientStep(k, e); }
    }
  }

  ghost predicate CanMove(s: Res, e: Event) { Internal(s, e) && ResNext(s, e) != s }

  lemma FreeWorkerMoves(s: Res, t: nat)
    requires 1 <= t <= s.workers && t in s.m.at
    requires s.m.at[t].Idle? || (Busy(s, t) && s.jobs[s.m.at[t].item].at.Finished?)
    ensures ResNext(s, NextJob(t)) == s.(m := Go(s.m, t, Popping))
  {
  }

  lemma EnteringMoves(s: Res, t: nat)
    requires t in s.m.at && (s.m.at[t].Popping? || s.m.at[t].PopWoken?)
    ensures ResNext(s, Queue(Enter(t))) != s
  {
    EnterShape(s, t);
    hide ResNext;
    assert PopSection(s.m, t).at[t] != s.m.at[t];
  }

  lemma WorkMoves(s: Res, t: nat)
    requires Busy(s, t) && !s.jobs[s.m.at[t].item].at.Finished?
    ensures ResNext(s, Work(t, true, [])) != s
  {
    WorkShape(s, t, true, []);
    StationDone(s.jobs[s.m.at[t].item], true, []);
    hide ResNext, Worked;
  }

  lemma WorkerCanMove(s: Res, t: nat)
    requires ResInv(s) && 1 <= t <= s.workers && t in s.m.at && !s.m.at[t].PopAsleep? && !s.m.at[t].PopEnded?
    ensures exists e :: CanMove(s, e)
  {
    hide ResInv, ResNext, AnyProducerAsleep;
    Placed(s, t);
    NoProducerSleeps(s);
    var l := s.m.at[t];
    if l.PopDone? { JobIsThere(s, t); }
    if l.Popping? || l.PopWoken? {
      EnteringMoves(s, t);
      assert CanMove(s, Queue(Enter(t)));
    } else if l.Popped? {
      WorkerNotifyShape(s, t, 0);
      assert ResNext(s, Queue(Notify(t, 0))).m.at[t] != l;
      assert CanMove(s, Queue(Notify(t, 0)));
    } else if l.PopDone? && !s.jobs[l.item].at.Finished? {
      WorkMoves(s, t);
      assert CanMove(s, Work(t, true, []));
    } else {
      FreeWorkerMoves(s, t);
      assert ResNext(s, NextJob(t)).m.at[t] != l;
      assert CanMove(s, NextJob(t));
    }
  }

  lemma JobIsThere(s: Res, t: nat)
    requires ResInv(s) && 1 <= t <= s.workers && t in s.m.at && s.m.at[t].PopDone?
    ensures s.m.at[t].item in s.jobs
  {
    MonitorIsFifo(s.m);
    hide MonitorInv, JobOk;
    assert ThreadOk(s, t);
  }

  lemma StarterCanMove(s: Res, t: nat)
    requires t in s.m.at && s.m.at[t].Pushed?
    ensures exists e :: CanMove(s, e)
  {
    var u: nat := t;
    if AnyConsumerAsleep(s.m) { u :| u in s.m.at && s.m.at[u].PopAsleep?; }
    StarterNotifyShape(s, t, u);
    assert CanMove(s, Queue(Notify(t, u)));
  }

  // From any reachable state, while no new job arrives: the workers take at most nine steps for each
  // queued job, eight for each worker and two for each outstanding notification; as long as they are
  // not at rest one of them can go on; and at rest every job that was queued has been published.
  lemma ResolverCatchesUp(workers: nat, starters: set<nat>, events: seq<Event>, more: seq<Event>)
    requires forall i :: 0 <= i < |more| ==> Quiet(ResRun(Begin(workers, starters), events), more[i])
    ensures var s := ResRun(Begin(workers, starters), events);
            var r := ResRun(s, more);
            && Moves(s, more) <= 9 * |s.m.queue| + 8 * workers + 2 * Num(s.m, Unannounced)
            && (!AtRest(r) ==> exists e :: CanMove(r, e))
            && (AtRest(r) && workers > 0 ==> forall j :: j in r.m.pushed ==> j in r.jobs && r.jobs[j].published == 1)
  {
    var s := ResRun(Begin(workers, starters), events);
    var r := ResRun(s, more);
    ResRunInv(workers, starters, events);
    hide ResRun, ResInv, Moves;
    QuietRun(s, more);
    RanksBound(s, workers);
    hide Ranks, CanMove;
    if !AtRest(r) {
      var t :| t in r.m.at && (r.m.at[t].Pushed? || (1 <= t <= r.workers && !r.m.at[t].PopAsleep? && !r.m.at[t].PopEnded?));
      if r.m.at[t].Pushed? { StarterCanMove(r, t); } else { WorkerCanMove(r, t); }
    } else if workers > 0 {
      forall j | j in r.m.pushed ensures j in r.jobs && r.jobs[j].published == 1 { RestingIsPublished(r, j); }
    }
  }
}
