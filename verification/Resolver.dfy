// The asynchronous resolver of src/resolver.cpp and the connection's side of it.  Thread 0 calls
// shutdown(), threads 1 to `workers` run worker_loop, and every call of start() is a thread of its
// own, numbered like its job.  The job queue is the monitor of ConnQueue without a capacity.
module Resolver {
  import opened Basics
  import Q = ConnQueue
  import opened ConnQueue

  // What the connection that started the job is doing about it.
  datatype Client =
    | Starting                        // start() has not returned yet
    | Refused                         // it returned Failed: the resolver is shut down
    | Pending                         // waits for the pipe's read end
    | Drained(byte: bool)             // has read the pipe; `ready` not looked at yet
    | Answered(ok: bool, addrs: seq<nat>)
    | Gone                            // went away without waiting

  // The stations of a worker with a job, in the order of the code.
  datatype Station = Lookup | HasAddrs | HasOk | IsReady | HasByte | Finished

  // `ok` stands for the fields ok and err.  `wrote` and `published` count what the worker has done.
  datatype Job = Job(
    addrs: Option<seq<nat>>, ok: Option<bool>, ready: bool, bytes: nat, open: bool,
    wrote: nat, published: nat, at: Station, client: Client)

  const NEW_JOB := Job(None, None, false, 0, true, 0, 0, Lookup, Starting)

  // `owner` is the worker that took each job.
  datatype Res = Res(m: Monitor, workers: nat, jobs: map<nat, Job>, owner: map<nat, nat>, returned: bool)

  function Begin(workers: nat, starters: set<nat>): (s: Res) {
    Res(Fresh(None, {0} + Upto(workers) + starters), workers, map[], map[], false)
  }

  function Upto(n: nat): (s: set<nat>)
    ensures forall t: nat :: t in s <==> 1 <= t <= n
  {
    if n == 0 then {} else Upto(n - 1) + {n}
  }

  datatype Event =
    | Start(j: nat)                       // start() makes the job and goes for the queue
    | Return(j: nat)                      // start() returns
    | Read(j: nat)                        // finish_resolve() reads the pipe
    | Look(j: nat)                        // ... and then looks at `ready`
    | Abandon(j: nat)                     // the connection is destroyed while waiting
    | Work(t: nat, ok: bool, addrs: seq<nat>)  // a worker's next station; the last two are the lookup's answer
    | NextJob(t: nat)                     // a worker calls for the next job
    | Shutdown
    | Joined
    | Queue(a: Act)                       // a thread inside the queue goes on

  predicate Inner(a: Act) { a.Enter? || a.Spurious? || a.Notify? || a.NotifyAll? }

  // One station of worker_loop.
  function Worked(j: Job, ok: bool, addrs: seq<nat>): (r: Job) {
    match j.at
    case Lookup => j.(addrs := Some(addrs), at := HasAddrs)
    case HasAddrs => j.(ok := Some(ok), at := HasOk)
    case HasOk => j.(ready := true, at := IsReady)
    case IsReady => j.(bytes := j.bytes + 1, wrote := j.wrote + 1, at := HasByte)
    case HasByte => j.(open := false, published := j.published + 1, at := Finished)
    case Finished => j
  }

  // finish_resolve() after its read: the answer, or back to waiting.
  function Looked(j: Job): (r: Job) {
    if !j.ready then j.(client := Pending)
    else
      var ok := j.ok.Some? && j.ok.value;
      j.(client := Answered(ok, if ok && j.addrs.Some? then j.addrs.value else []))
  }

  function ClientNext(s: Res, e: Event): (j: Job)
    requires (e.Return? || e.Read? || e.Look? || e.Abandon?) && e.j in s.jobs && e.j in s.m.at
  {
    var j, l := s.jobs[e.j], s.m.at[e.j];
    match e
    case Return(_) =>
      if !j.client.Starting? then j
      else if l.PushDone? then j.(client := Pending)
      else if l.PushClosed? then j.(client := Refused)
      else j
    case Read(_) => if j.client.Pending? then j.(client := Drained(j.bytes > 0), bytes := 0) else j
    case Look(_) => if j.client.Drained? then Looked(j) else j
    case Abandon(_) => if j.client.Pending? || j.client.Drained? then j.(client := Gone) else j
  }

  // The job a worker has in hand.
  predicate Busy(s: Res, t: nat) {
    1 <= t <= s.workers && t in s.m.at && s.m.at[t].PopDone? && s.m.at[t].item in s.jobs
  }

  ghost predicate AllEnded(s: Res) {
    forall t :: 1 <= t <= s.workers && t in s.m.at ==> s.m.at[t].PopEnded?
  }

  ghost function ResNext(s: Res, e: Event): (r: Res) {
    match e
    case Start(j) =>
      if j > s.workers && j in s.m.at && s.m.at[j].Idle? && j !in s.jobs then
        s.(jobs := s.jobs[j := NEW_JOB], m := Q.Next(s.m, CallPush(j, j)))
      else s
    case Work(t, ok, addrs) =>
      if Busy(s, t) then s.(jobs := s.jobs[s.m.at[t].item := Worked(s.jobs[s.m.at[t].item], ok, addrs)]) else s
    case NextJob(t) =>
      if 1 <= t <= s.workers && t in s.m.at && (s.m.at[t].Idle? || (Busy(s, t) && s.jobs[s.m.at[t].item].at.Finished?))
      then s.(m := Q.Next(s.m, CallPop(t)))
      else s
    case Shutdown => if 0 in s.m.at && s.m.at[0].Idle? then s.(m := Q.Next(s.m, CallClose(0))) else s
    case Joined => if 0 in s.m.at && s.m.at[0].CloseDone? && AllEnded(s) then s.(returned := true) else s
    case Queue(a) =>
      if !Inner(a) then s
      else
        var m := Q.Next(s.m, a);
        if |m.popped| == |s.m.popped| + 1 then s.(m := m, owner := s.owner[m.popped[|s.m.popped|] := a.t])
        else s.(m := m)
    case _ => if e.j in s.jobs && e.j in s.m.at then s.(jobs := s.jobs[e.j := ClientNext(s, e)]) else s
  }

  ghost function ResRun(s: Res, events: seq<Event>): (r: Res)
    decreases |events|
  {
    if events == [] then s else ResNext(ResRun(s, events[..|events| - 1]), events[|events| - 1])
  }

  // ---- one job --------------------------------------------------------------------------------

  // The publication order: what each station of the worker guarantees.
  predicate Published(j: Job) {
    && (j.addrs.Some? <==> !j.at.Lookup?)
    && (j.ok.Some? <==> !(j.at.Lookup? || j.at.HasAddrs?))
    && (j.ready <==> j.at.IsReady? || j.at.HasByte? || j.at.Finished?)
    && j.wrote == (if j.at.HasByte? || j.at.Finished? then 1 else 0)
    && (j.open <==> !j.at.Finished?)
    && j.published == (if j.at.Finished? then 1 else 0)
    && j.bytes <= j.wrote
  }

  // The wakeup: a connection that has not read the byte will find it; one that has, finds `ready`.
  predicate Wakeup(j: Job) {
    match j.client
    case Drained(byte) => if byte then j.ready else j.bytes == j.wrote
    case Answered(ok, addrs) =>
      j.ready && j.ok == Some(ok) && (if ok then j.addrs == Some(addrs) else addrs == [])
    case Refused => j.at.Lookup?
    case Gone => true
    case _ => j.bytes == j.wrote
  }

  // The connection has its answer from start() only after the queue has taken or refused the job.
  predicate CallBack(j: Job, l: Loc) {
    !j.client.Starting? ==> if j.client.Refused? then l.PushClosed? else l.PushDone?
  }

  lemma WorkedJob(j: Job, ok: bool, addrs: seq<nat>)
    requires Published(j) && Wakeup(j)
    requires !j.client.Refused?
    ensures Published(Worked(j, ok, addrs)) && Wakeup(Worked(j, ok, addrs))
    ensures Worked(j, ok, addrs).client == j.client
  {
  }

  lemma ClientJob(s: Res, e: Event)
    requires (e.Return? || e.Read? || e.Look? || e.Abandon?) && e.j in s.jobs && e.j in s.m.at
    requires var j := s.jobs[e.j];
             Published(j) && Wakeup(j) && CallBack(j, s.m.at[e.j]) && (s.m.at[e.j].PushClosed? ==> j.at.Lookup?)
    ensures var j, r := s.jobs[e.j], ClientNext(s, e);
            Published(r) && Wakeup(r) && CallBack(r, s.m.at[e.j]) && r.at == j.at
  {
    var j := s.jobs[e.j];
    assert j.ok.Some? ==> j.ok == Some(j.ok.value);
  }

  // ---- the system -----------------------------------------------------------------------------

  // Worker `t` has job `j` in hand.
  predicate Has(l: Loc, j: nat) { (l.Popped? || l.PopDone?) && l.item == j }

  predicate MainAt(l: Loc, closed: bool) {
    || ((l.Idle? || l.Closing?) && !closed)
    || ((l.CloseFlagged? || l.CloseHalf? || l.CloseDone?) && closed)
  }

  predicate StarterAt(l: Loc, j: nat) {
    l == Pushing(j) || l.Pushed? || l.PushDone? || l == PushClosed(j)
  }

  predicate ThreadOk(s: Res, t: nat)
    requires t in s.m.at
  {
    var l := s.m.at[t];
    if t == 0 then MainAt(l, s.m.closed)
    else if t <= s.workers then
      && WorkerAt(l)
      && (l.Popped? || l.PopDone? ==> l.item in s.owner && s.owner[l.item] == t)
      && (l.PopEnded? ==> s.m.closed && s.m.queue == [])
    else if t in s.jobs then StarterAt(l, t)
    else l.Idle?
  }

  // How far a job is agrees with who has it.
  predicate JobOk(s: Res, j: nat)
    requires j in s.jobs && j in s.m.at
  {
    var job, l := s.jobs[j], s.m.at[j];
    && j > s.workers && Published(job) && Wakeup(job)
    && (l.Pushed? || l.PushDone? <==> j in s.m.pushed)
    && CallBack(job, l)
    && (j !in s.owner ==> job.at.Lookup?)
    && (j in s.owner ==>
          && 1 <= s.owner[j] <= s.workers && s.owner[j] in s.m.at
          && (job.at.Finished? || Has(s.m.at[s.owner[j]], j))
          && (s.m.at[s.owner[j]] == Popped(j) ==> job.at.Lookup?))
  }

  ghost predicate Distinct(q: seq<nat>) { forall i, j :: 0 <= i < j < |q| ==> q[i] != q[j] }

  ghost predicate QueueOk(s: Res) {
    && Distinct(s.m.pushed)
    && (forall j :: j in s.m.pushed ==> j in s.jobs)
    && (forall j :: j in s.owner <==> j in s.m.popped)
  }

  ghost predicate Members(s: Res) {
    && 0 in s.m.at
    && (forall t :: 1 <= t <= s.workers ==> t in s.m.at)
    && (forall j :: j in s.jobs ==> j in s.m.at)
  }

  ghost predicate ResFacts(s: Res) {
    && Members(s)
    && (forall t :: t in s.m.at ==> ThreadOk(s, t))
    && (forall j :: j in s.jobs ==> JobOk(s, j))
    && QueueOk(s)
    && (s.returned ==> s.m.closed && AllEnded(s))
  }

  ghost predicate ResInv(s: Res) { MonitorInv(s.m) && s.m.capacity.None? && ResFacts(s) }

  // ---- preservation ---------------------------------------------------------------------------

  // One job changes, not its station; the rest stays.
  lemma ClientFacts(s: Res, e: Event)
    requires ResFacts(s) && Fifo(s.m) && (e.Return? || e.Read? || e.Look? || e.Abandon?)
    ensures ResFacts(ResNext(s, e))
  {
    if e.j in s.jobs {
      assert JobOk(s, e.j);
      ClientJob(s, e);
      OneJob(s, e.j, ClientNext(s, e));
    }
  }

  lemma SameStationOk(s: Res, x: nat, k: Job)
    requires x in s.jobs && x in s.m.at && JobOk(s, x)
    requires Published(k) && Wakeup(k) && CallBack(k, s.m.at[x]) && k.at == s.jobs[x].at
    ensures JobOk(s.(jobs := s.jobs[x := k]), x)
  {
    hide Published, Wakeup, CallBack;
  }

  lemma OneJob(s: Res, x: nat, new_: Job)
    requires ResFacts(s) && x in s.jobs
    requires Published(new_) && Wakeup(new_) && CallBack(new_, s.m.at[x]) && new_.at == s.jobs[x].at
    ensures ResFacts(s.(jobs := s.jobs[x := new_]))
  {
    assert JobOk(s, x);
    SameStationOk(s, x, new_);
    hide JobOk, ThreadOk;
    WithJob(s, x, new_);
  }

  lemma WorkFacts(s: Res, t: nat, ok: bool, addrs: seq<nat>)
    requires ResFacts(s) && Fifo(s.m)
    ensures ResFacts(ResNext(s, Work(t, ok, addrs)))
  {
    if Busy(s, t) {
      var x := s.m.at[t].item;
      var k := Worked(s.jobs[x], ok, addrs);
      assert ThreadOk(s, t) && JobOk(s, x) && s.m.at[s.owner[x]] == PopDone(x);
      WorkedJob(s.jobs[x], ok, addrs);
      HandedJobOk(s, x, k);
      hide Worked, ThreadOk, JobOk;
      WithJob(s, x, k);
    }
  }

  // A job that its owner has in hand may be at any station.
  lemma HandedJobOk(s: Res, x: nat, k: Job)
    requires x in s.jobs && x in s.m.at && JobOk(s, x) && x in s.owner && s.m.at[s.owner[x]] == PopDone(x)
    requires Published(k) && Wakeup(k) && k.client == s.jobs[x].client
    ensures JobOk(s.(jobs := s.jobs[x := k]), x)
  {
    hide Published, Wakeup;
  }

  // Replacing one job by another that fits its place.
  lemma WithJob(s: Res, x: nat, k: Job)
    requires ResFacts(s) && x in s.jobs && x in s.m.at && JobOk(s.(jobs := s.jobs[x := k]), x)
    ensures ResFacts(s.(jobs := s.jobs[x := k]))
  {
    var r := s.(jobs := s.jobs[x := k]);
    forall j | j in r.jobs ensures JobOk(r, j) { if j != x { OtherJob(s, x, k, j); } }
    hide JobOk;
    forall u | u in r.m.at ensures ThreadOk(r, u) { assert ThreadOk(s, u); }
    hide ThreadOk;
  }

  lemma OtherJob(s: Res, x: nat, k: Job, j: nat)
    requires x in s.jobs && j in s.jobs && j in s.m.at && j != x && JobOk(s, j)
    ensures JobOk(s.(jobs := s.jobs[x := k]), j)
  {
    hide Published, Wakeup, CallBack;
  }

  lemma GentleLocs(l: Loc, k: Loc, j: nat, closed: bool)
    requires Gentle(l, k)
    ensures MainAt(l, closed) ==> MainAt(k, closed)
    ensures WorkerAt(l) ==> WorkerAt(k)
    ensures StarterAt(l, j) ==> StarterAt(k, j)
    ensures l.Idle? <==> k.Idle?
    ensures k.PopEnded? <==> l.PopEnded?
    ensures k.Popped? || k.PopDone? <==> l.Popped? || l.PopDone?
    ensures k.Popped? || k.PopDone? ==> l.item == k.item
    ensures k.Popped? ==> k == l
    ensures l.Pushed? || l.PushDone? <==> k.Pushed? || k.PushDone?
    ensures (l.PushClosed? <==> k.PushClosed?) && (l.PushDone? ==> k.PushDone?)
  {
  }

  lemma GentleFacts(s: Res, m: Monitor)
    requires ResFacts(s) && Gently(s.m, m)
    ensures ResFacts(s.(m := m))
  {
    var r := s.(m := m);
    forall t | t in r.m.at ensures ThreadOk(r, t) {
      assert ThreadOk(s, t);
      GentleLocs(s.m.at[t], m.at[t], t, m.closed);
      hide MainAt, WorkerAt, StarterAt;
    }
    forall j | j in r.jobs ensures JobOk(r, j) {
      assert JobOk(s, j);
      GentleLocs(s.m.at[j], m.at[j], j, m.closed);
      if j in s.owner { GentleLocs(s.m.at[s.owner[j]], m.at[s.owner[j]], j, m.closed); }
      hide Published, Wakeup;
    }
    forall t | t in s.m.at ensures m.at[t].PopEnded? <==> s.m.at[t].PopEnded? {
      GentleLocs(s.m.at[t], m.at[t], t, m.closed);
    }
  }

  // The mutex sections.
  lemma HeadIsNew(s: Res)
    requires QueueOk(s) && Fifo(s.m) && s.m.queue != []
    ensures var x := s.m.queue[0]; x in s.m.pushed && x !in s.m.popped && x in s.jobs && x !in s.owner
  {
    var x, n := s.m.queue[0], |s.m.popped|;
    assert s.m.pushed[n] == x;
    forall i | 0 <= i < n ensures s.m.popped[i] != x { assert s.m.pushed[i] == s.m.popped[i]; }
  }

  function Take(s: Res, t: nat): (r: Res)
    requires s.m.queue != []
  {
    s.(m := PopSection(s.m, t), owner := s.owner[s.m.queue[0] := t])
  }

  lemma TakeQueue(s: Res, t: nat)
    requires QueueOk(s) && s.m.queue != []
    ensures QueueOk(Take(s, t))
  {
  }

  lemma TakeThread(s: Res, t: nat, u: nat)
    requires s.m.queue != [] && s.m.queue[0] !in s.owner && 1 <= t <= s.workers
    requires t in s.m.at && u in s.m.at && ThreadOk(s, u)
    ensures ThreadOk(Take(s, t), u)
  {
  }

  lemma TakeJob(s: Res, t: nat, j: nat)
    requires s.m.queue != [] && s.m.queue[0] !in s.owner && 1 <= t <= s.workers
    requires t in s.m.at && (s.m.at[t].Popping? || s.m.at[t].PopWoken?)
    requires j in s.jobs && j in s.m.at && JobOk(s, j)
    ensures JobOk(Take(s, t), j)
  {
    hide Published, Wakeup, CallBack;
  }

  lemma TakeShape(s: Res, t: nat)
    requires s.m.queue != [] && t in s.m.at && (s.m.at[t].Popping? || s.m.at[t].PopWoken?)
    ensures ResNext(s, Queue(Enter(t))) == Take(s, t) && Take(s, t).m.at.Keys == s.m.at.Keys
  {
  }

  lemma TakeMembers(s: Res, t: nat)
    requires Members(s) && s.m.queue != [] && t in s.m.at && !s.m.at[t].PopEnded?
    ensures Members(Take(s, t)) && Take(s, t).jobs == s.jobs && Take(s, t).m.at.Keys == s.m.at.Keys
    ensures 1 <= t <= s.workers ==> !AllEnded(s)
    ensures forall j :: j in s.jobs ==> j in s.m.at
    ensures Take(s, t).returned == s.returned
  {
  }

  lemma TakeFacts(s: Res, t: nat)
    requires ResFacts(s) && Fifo(s.m) && 1 <= t <= s.workers && s.m.queue != []
    requires t in s.m.at && (s.m.at[t].Popping? || s.m.at[t].PopWoken?)
    ensures ResFacts(ResNext(s, Queue(Enter(t))))
  {
    var r := Take(s, t);
    TakeShape(s, t);
    HeadIsNew(s);
    TakeQueue(s, t);
    TakeMembers(s, t);
    hide ResNext, QueueOk, Fifo, Members, AllEnded;
    forall u | u in r.m.at ensures ThreadOk(r, u) { TakeThread(s, t, u); }
    forall j | j in r.jobs ensures JobOk(r, j) { TakeJob(s, t, j); }
    hide ThreadOk, JobOk;
  }

  // A thread moves and the queue stays as it is.
  predicate CanMove(s: Res, t: nat, l: Loc)
    requires t in s.m.at
  {
    var k := s.m.at[t];
    && !k.Popped? && (k.PopDone? && k.item in s.jobs ==> s.jobs[k.item].at.Finished?) && !k.PopEnded?
    && !l.Popped? && !l.PopDone?
    && (t > s.workers ==> l.PushClosed? && k.Pushing?)
  }

  lemma MoveJob(s: Res, t: nat, l: Loc, j: nat)
    requires t in s.m.at && CanMove(s, t, l) && j in s.jobs && j in s.m.at && JobOk(s, j)
    ensures JobOk(s.(m := Go(s.m, t, l)), j)
  {
    hide Published, Wakeup;
  }

  lemma MoveFacts(s: Res, t: nat, l: Loc)
    requires ResFacts(s) && t in s.m.at && CanMove(s, t, l)
    requires ThreadOk(s.(m := Go(s.m, t, l)), t)
    ensures ResFacts(s.(m := Go(s.m, t, l)))
  {
    var r := s.(m := Go(s.m, t, l));
    forall u | u in r.m.at ensures ThreadOk(r, u) { assert ThreadOk(s, u); }
    hide ThreadOk;
    forall j | j in r.jobs ensures JobOk(r, j) { MoveJob(s, t, l, j); }
    hide JobOk;
  }

  function Store(s: Res, t: nat): (r: Res) {
    s.(m := Go(s.m.(queue := s.m.queue + [t], pushed := s.m.pushed + [t]), t, Pushed))
  }

  lemma StoreJob(s: Res, t: nat, j: nat)
    requires t in s.m.at && t > s.workers && s.m.at[t].Pushing? && !s.m.closed
    requires j in s.jobs && j in s.m.at && JobOk(s, j)
    ensures JobOk(Store(s, t), j)
  {
    hide Published, Wakeup;
  }

  lemma StoreQueue(s: Res, t: nat)
    requires QueueOk(s) && t !in s.m.pushed && t in s.jobs
    ensures QueueOk(Store(s, t))
  {
  }

  lemma StoreShape(s: Res, t: nat)
    requires t in s.m.at && s.m.at[t] == Pushing(t) && !s.m.closed && s.m.capacity.None?
    ensures ResNext(s, Queue(Enter(t))) == Store(s, t) && Store(s, t).m.at.Keys == s.m.at.Keys
  {
  }

  lemma StoreFacts(s: Res, t: nat)
    requires ResFacts(s) && t > s.workers && t in s.m.at && s.m.at[t].Pushing?
    requires !s.m.closed && s.m.capacity.None?
    ensures ResFacts(ResNext(s, Queue(Enter(t))))
  {
    var r := Store(s, t);
    assert ThreadOk(s, t) && JobOk(s, t) && t !in s.m.pushed;
    StoreShape(s, t);
    hide Q.Next, ResNext;
    StoreQueue(s, t);
    hide QueueOk;
    forall u | u in r.m.at ensures ThreadOk(r, u) { assert ThreadOk(s, u); }
    hide ThreadOk;
    forall j | j in r.jobs ensures JobOk(r, j) { StoreJob(s, t, j); }
    hide JobOk;
  }

  lemma CloseFacts(s: Res)
    requires ResFacts(s) && s.m.at[0].Closing?
    ensures ResFacts(ResNext(s, Queue(Enter(0))))
  {
    var r := FlagSet(s);
    assert ThreadOk(s, 0);
    CloseShape(s);
    hide ResNext;
    forall u | u in r.m.at ensures ThreadOk(r, u) { CloseThread(s, u); }
    hide ThreadOk;
    forall j | j in r.jobs ensures JobOk(r, j) { CloseJob(s, j); }
    hide JobOk;
  }

  function FlagSet(s: Res): (r: Res) { s.(m := Go(s.m.(closed := true), 0, CloseFlagged)) }

  lemma CloseShape(s: Res)
    requires 0 in s.m.at && s.m.at[0].Closing? && !s.m.closed
    ensures ResNext(s, Queue(Enter(0))) == FlagSet(s)
  {
  }

  lemma CloseThread(s: Res, u: nat)
    requires u in s.m.at && ThreadOk(s, u) && 0 in s.m.at && !s.m.closed
    ensures ThreadOk(FlagSet(s), u)
  {
  }

  lemma CloseJob(s: Res, j: nat)
    requires j in s.jobs && j in s.m.at && JobOk(s, j) && 0 in s.m.at
    ensures JobOk(FlagSet(s), j)
  {
    hide Published, Wakeup, CallBack;
  }

  function Started(s: Res, t: nat): (r: Res) {
    s.(jobs := s.jobs[t := NEW_JOB], m := Go(s.m, t, Pushing(t)))
  }

  predicate CanStart(s: Res, t: nat) { t > s.workers && t in s.m.at && s.m.at[t].Idle? && t !in s.jobs }

  lemma StartShape(s: Res, t: nat)
    requires CanStart(s, t)
    ensures ResNext(s, Start(t)) == Started(s, t)
  {
  }

  lemma StartJob(s: Res, t: nat, j: nat)
    requires CanStart(s, t) && j in s.jobs && j in s.m.at && JobOk(s, j)
    ensures JobOk(Started(s, t), j)
  {
    hide Published, Wakeup;
  }

  lemma StartNewJob(s: Res, t: nat)
    requires CanStart(s, t) && t !in s.m.pushed && t !in s.owner
    ensures JobOk(Started(s, t), t)
  {
  }

  lemma StartThread(s: Res, t: nat, u: nat)
    requires CanStart(s, t) && u in s.m.at && ThreadOk(s, u)
    ensures ThreadOk(Started(s, t), u)
  {
  }

  lemma StartQueue(s: Res, t: nat)
    requires CanStart(s, t) && QueueOk(s) && Fifo(s.m) && Members(s)
    ensures QueueOk(Started(s, t)) && Members(Started(s, t)) && t !in s.m.pushed && t !in s.owner
    ensures AllEnded(s) ==> AllEnded(Started(s, t))
    ensures Started(s, t).m.at.Keys == s.m.at.Keys
  {
    assert t in s.owner ==> t in s.m.popped && t in s.m.pushed;
  }

  lemma StartFacts(s: Res, t: nat)
    requires ResFacts(s) && Fifo(s.m) && CanStart(s, t)
    ensures ResFacts(ResNext(s, Start(t)))
  {
    var r := Started(s, t);
    StartShape(s, t);
    StartQueue(s, t);
    StartNewJob(s, t);
    hide ResNext, QueueOk, AllEnded, Fifo, Members;
    forall u | u in r.m.at ensures ThreadOk(r, u) { StartThread(s, t, u); }
    forall j | j in r.jobs ensures JobOk(r, j) {
      if j != t { assert j in s.m.at by { MemberJob(s, j); } StartJob(s, t, j); }
    }
    hide ThreadOk, JobOk;
  }

  lemma MemberJob(s: Res, j: nat)
    requires Members(s) && j in s.jobs
    ensures j in s.m.at
  {
  }

  lemma StayFacts(s: Res, t: nat)
    requires ResFacts(s) && t in s.m.at && (s.m.at[t].Popping? || s.m.at[t].PopWoken?) && s.m.queue == []
    ensures ResFacts(ResNext(s, Queue(Enter(t))))
  {
    var k := if s.m.closed then PopEnded else PopAsleep;
    assert ResNext(s, Queue(Enter(t))) == s.(m := Go(s.m, t, k));
    assert ThreadOk(s, t);
    MoveFacts(s, t, k);
  }

  lemma RefuseFacts(s: Res, t: nat)
    requires ResFacts(s) && t in s.m.at && s.m.at[t] == Pushing(t) && s.m.closed
    ensures ResFacts(ResNext(s, Queue(Enter(t))))
  {
    assert ResNext(s, Queue(Enter(t))) == s.(m := Go(s.m, t, PushClosed(t)));
    assert ThreadOk(s, t);
    MoveFacts(s, t, PushClosed(t));
  }

  lemma EnterFacts(s: Res, t: nat)
    requires ResFacts(s) && Fifo(s.m) && s.m.capacity.None? && t in s.m.at
    ensures ResFacts(ResNext(s, Queue(Enter(t))))
  {
    var l := s.m.at[t];
    assert ThreadOk(s, t);
    hide ResFacts, PopSection, PushSection, CloseSection, Fifo;
    if l.Popping? || l.PopWoken? {
      if s.m.queue != [] { TakeFacts(s, t); }
      else { StayFacts(s, t); }
    } else if l.Pushing? {
      if !s.m.closed { StoreFacts(s, t); }
      else { RefuseFacts(s, t); }
    } else if l.Closing? {
      CloseFacts(s);
    } else {
      assert Q.Next(s.m, Enter(t)) == s.m;
    }
  }

  lemma ResNextFacts(s: Res, e: Event)
    requires ResFacts(s) && Fifo(s.m) && s.m.capacity.None?
    ensures ResFacts(ResNext(s, e))
  {
    match e
    case Start(j) =>
      if CanStart(s, j) { StartFacts(s, j); }
    case Work(t, ok, addrs) => WorkFacts(s, t, ok, addrs);
    case NextJob(t) =>
      if ResNext(s, e) != s {
        assert ThreadOk(s, t);
        MoveFacts(s, t, Popping);
      }
    case Shutdown => if s.m.at[0].Idle? { assert ThreadOk(s, 0); MoveFacts(s, 0, Closing); }
    case Joined => JoinedFacts(s);
    case Queue(a) => QueueFacts(s, a);
    case _ => ClientFacts(s, e);
  }

  lemma JoinedFacts(s: Res)
    requires ResFacts(s)
    ensures ResFacts(ResNext(s, Joined))
  {
    assert ThreadOk(s, 0);
    var r := ResNext(s, Joined);
    forall t | t in r.m.at ensures ThreadOk(r, t) { assert ThreadOk(s, t); }
    forall j | j in r.jobs ensures JobOk(r, j) { assert JobOk(s, j); }
  }

  lemma QueueFacts(s: Res, a: Act)
    requires ResFacts(s) && Fifo(s.m) && s.m.capacity.None?
    ensures ResFacts(ResNext(s, Queue(a)))
  {
    hide ResFacts;
    if Inner(a) {
      if a.t !in s.m.at {
        assert ResNext(s, Queue(a)) == s;
      } else if a.Enter? {
        EnterFacts(s, a.t);
      } else {
        if a.Notify? { NotifyIsGentle(s.m, a); } else { WakingIsGentle(s.m, a); }
        hide Q.Next;
        GentleFacts(s, Q.Next(s.m, a));
      }
    }
  }

  // ---- every run ------------------------------------------------------------------------------

  lemma ResNextInv(s: Res, e: Event)
    requires ResInv(s)
    ensures ResInv(ResNext(s, e)) && ResNext(s, e).workers == s.workers
  {
    ResNextFacts(s, e);
    hide MonitorInv, ResFacts, ResNext;
    MonitorKept(s, e);
  }

  lemma MonitorKept(s: Res, e: Event)
    requires MonitorInv(s.m)
    ensures var r := ResNext(s, e); MonitorInv(r.m) && r.m.capacity == s.m.capacity && r.workers == s.workers
  {
    hide MonitorInv, Q.Next, ClientNext, Worked, AllEnded, Busy;
    match e
    case Start(j) => Both(s.m, CallPush(j, j));
    case NextJob(t) => Both(s.m, CallPop(t));
    case Shutdown => Both(s.m, CallClose(0));
    case Queue(a) => Both(s.m, a);
    case _ =>
  }

  lemma Both(m: Monitor, a: Act)
    requires MonitorInv(m)
    ensures MonitorInv(Q.Next(m, a)) && Q.Next(m, a).capacity == m.capacity
  {
    hide Q.Next, MonitorInv;
    NextInv(m, a);
    NextKeeps(m, a);
  }

  lemma {:induction false} ResRunInv(workers: nat, starters: set<nat>, events: seq<Event>)
    ensures ResInv(ResRun(Begin(workers, starters), events))
    ensures ResRun(Begin(workers, starters), events).workers == workers
    decreases |events|
  {
    var s := Begin(workers, starters);
    if events == [] {
      MonitorRunInv(None, {0} + Upto(workers) + starters, []);
      assert forall t :: t in s.m.at ==> ThreadOk(s, t);
      hide MonitorInv;
    } else {
      ResRunInv(workers, starters, events[..|events| - 1]);
      hide ResInv, ResNext;
      ResNextInv(ResRun(s, events[..|events| - 1]), events[|events| - 1]);
    }
  }

  // What a woken connection finds, and that it will be woken.
  ghost predicate Wakes(s: Res, j: nat)
    requires j in s.jobs
  {
    var job := s.jobs[j];
    // A readable pipe means the whole result is there ...
    && (job.bytes > 0 || !job.open ==> job.ready && job.addrs.Some? && job.ok.Some?)
    // ... so reading it and looking gives that result ...
    && (job.client.Pending? && (job.bytes > 0 || !job.open) ==>
          var n := ResNext(ResNext(s, Read(j)), Look(j));
          && j in n.jobs
          && n.jobs[j].client == Answered(job.ok.value, if job.ok.value then job.addrs.value else []))
    // ... and once the worker has signalled, a waiting connection's pipe is readable.
    && (job.client.Pending? && job.wrote > 0 ==> job.bytes > 0)
  }

  // The result a connection got is the one its worker published.
  ghost predicate Gets(s: Res, j: nat)
    requires j in s.jobs
  {
    var job := s.jobs[j];
    job.client.Answered? ==>
      job.ok == Some(job.client.ok) && (job.client.ok ==> job.addrs == Some(job.client.addrs))
  }

  lemma WokenSeesTheResult(workers: nat, starters: set<nat>, events: seq<Event>, j: nat)
    requires j in ResRun(Begin(workers, starters), events).jobs
    ensures var s := ResRun(Begin(workers, starters), events); Wakes(s, j) && Gets(s, j)
  {
    var s := ResRun(Begin(workers, starters), events);
    ResRunInv(workers, starters, events);
    hide ResRun, MonitorInv;
    assert JobOk(s, j) && j in s.m.at;
    hide QueueOk, AllEnded, ThreadOk;
  }

  // No job is published twice, none that was refused is published, and when shutdown() returns
  // every job that was queued has been published, if there was a worker to do it.
  lemma PublishedExactlyOnce(workers: nat, starters: set<nat>, events: seq<Event>)
    ensures var s := ResRun(Begin(workers, starters), events);
            && (forall j :: j in s.jobs ==> s.jobs[j].published <= 1 && s.jobs[j].wrote <= 1)
            && (forall j :: j in s.jobs && s.jobs[j].client.Refused? ==> s.jobs[j].published == 0)
            && (forall j :: j in s.m.pushed ==> j in s.jobs)
            && (s.returned && workers > 0 ==> forall j :: j in s.m.pushed ==> j in s.jobs && s.jobs[j].published == 1)
  {
    var s := ResRun(Begin(workers, starters), events);
    ResRunInv(workers, starters, events);
    hide ResRun;
    assert Fifo(s.m);
    hide MonitorInv;
    forall j | j in s.jobs
      ensures s.jobs[j].published <= 1 && s.jobs[j].wrote <= 1
      ensures s.jobs[j].client.Refused? ==> s.jobs[j].published == 0
    {
      assert JobOk(s, j);
    }
    if s.returned && workers > 0 {
      assert ThreadOk(s, 1) && s.m.at[1].PopEnded?;
      forall j | j in s.m.pushed ensures j in s.jobs && s.jobs[j].published == 1 {
        assert JobOk(s, j) && j in s.owner;
        assert s.m.at[s.owner[j]].PopEnded?;
      }
    }
  }

  // Without resolver threads nothing is ever published and no connection is ever answered.
  lemma NoThreadsNoAnswer(starters: set<nat>, events: seq<Event>, j: nat)
    requires j in ResRun(Begin(0, starters), events).jobs
    ensures var job := ResRun(Begin(0, starters), events).jobs[j];
            job.published == 0 && job.bytes == 0 && job.open && !job.client.Answered?
  {
    var s := ResRun(Begin(0, starters), events);
    ResRunInv(0, starters, events);
    hide ResRun, MonitorInv;
    assert JobOk(s, j) && j !in s.owner;
  }

  // Nothing moves any more: the workers sleep or have left, and no start() still owes a notification.
  ghost predicate AtRest(s: Res) {
    forall t :: t in s.m.at ==>
      && !s.m.at[t].Pushed?
      && (1 <= t <= s.workers ==> s.m.at[t].PopAsleep? || s.m.at[t].PopEnded?)
  }

  // No job is forgotten: with a worker, before or after shutdown(), the workers come to rest only
  // when every queued job has been published.
  lemma RestMeansPublished(workers: nat, starters: set<nat>, events: seq<Event>, j: nat)
    requires workers > 0
    ensures var s := ResRun(Begin(workers, starters), events);
            AtRest(s) && j in s.m.pushed ==> j in s.jobs && s.jobs[j].published == 1
  {
    var s := ResRun(Begin(workers, starters), events);
    ResRunInv(workers, starters, events);
    hide ResRun, ResInv, AtRest;
    if AtRest(s) && j in s.m.pushed { RestingIsPublished(s, j); }
  }

  lemma RestingIsPublished(s: Res, j: nat)
    requires ResInv(s) && AtRest(s) && s.workers > 0 && j in s.m.pushed
    ensures j in s.jobs && s.jobs[j].published == 1
  {
    RestIsEmpty(s);
    hide MonitorInv;
    assert JobOk(s, j) && j in s.owner;
  }

  // A sleeping consumer, nobody woken and no notification owed: the queue is empty.
  lemma SleeperMeansEmpty(m: Monitor, t: nat)
    requires MonitorInv(m) && t in m.at && m.at[t].PopAsleep?
    requires forall u :: u in m.at ==> !m.at[u].PopWoken? && !m.at[u].Pushed?
    ensures m.queue == []
  {
    assert t in Where(m.at, Asleep);
    assert Where(m.at, Woken) == {} == Where(m.at, Unannounced);
    hide Fifo, CloseWakes, CloserInPlace, ProducersServed;
  }

  lemma RestIsEmpty(s: Res)
    requires ResInv(s) && AtRest(s) && s.workers > 0
    ensures s.m.queue == [] && s.m.popped == s.m.pushed
  {
    MonitorIsFifo(s.m);
    hide MonitorInv, JobOk, QueueOk;
    assert 1 in s.m.at && ThreadOk(s, 1);
    forall t | t in s.m.at ensures !s.m.at[t].PopWoken? { assert ThreadOk(s, t); }
    hide ResFacts, ThreadOk;
    if s.m.at[1].PopAsleep? { SleeperMeansEmpty(s.m, 1); }
    assert s.m.queue == [];
  }

  function StationsLeft(a: Station): (n: nat) {
    match a
    case Lookup => 5
    case HasAddrs => 4
    case HasOk => 3
    case IsReady => 2
    case HasByte => 1
    case Finished => 0
  }

  // All stations of worker_loop in a row.
  function WorkedThrough(j: Job, ok: bool, addrs: seq<nat>): (r: Job) {
    Worked(Worked(Worked(Worked(Worked(j, ok, addrs), ok, addrs), ok, addrs), ok, addrs), ok, addrs)
  }

  // The job object.  `at` is where its worker is in worker_loop.
  class ResolveJob {
    var addrs: Option<seq<nat>>
    var ok: Option<bool>
    var ready: bool
    var bytes: nat
    var open: bool
    var at: Station

    ghost predicate Shows(j: Job)
      reads this
    {
      addrs == j.addrs && ok == j.ok && ready == j.ready && bytes == j.bytes && open == j.open && at == j.at
    }

    constructor ()
      ensures Shows(NEW_JOB)
    {
      addrs, ok, ready, bytes, open, at := None, None, false, 0, true, Lookup;
    }

    // The next statement of worker_loop on this job, with the lookup's answer.
    method Advance(found: bool, list: seq<nat>, ghost j: Job)
      requires Shows(j)
      modifies this
      ensures Shows(Worked(j, found, list))
    {
      match at
      case Lookup =>
        addrs := Some(list);
        at := HasAddrs;
      case HasAddrs =>
        ok := Some(found);
        at := HasOk;
      case HasOk =>
        ready := true;
        at := IsReady;
      case IsReady =>
        bytes := bytes + 1;
        at := HasByte;
      case HasByte =>
        open := false;
        at := Finished;
      case Finished =>
    }

    // worker_loop on one job.  At every point of it a readable pipe means a complete result.
    method Publish(found: bool, list: seq<nat>, ghost j: Job) returns (ghost passed: seq<Job>)
      requires Shows(j) && j.at.Lookup? && Published(j) && Wakeup(j) && !j.client.Refused?
      modifies this
      ensures Shows(WorkedThrough(j, found, list)) && at.Finished?
      ensures |passed| == 6 && passed[0] == j && passed[5] == WorkedThrough(j, found, list)
      ensures forall i :: 0 <= i < 5 ==> passed[i + 1] == Worked(passed[i], found, list)
      ensures forall i :: 0 <= i < 6 ==> Published(passed[i]) && Wakeup(passed[i])
    {
      ghost var k := j;
      passed := [j];
      while !at.Finished?
        invariant Shows(k) && Published(k) && Wakeup(k) && !k.client.Refused?
        invariant |passed| >= 1 && passed[0] == j && passed[|passed| - 1] == k
        invariant |passed| + StationsLeft(k.at) == 6
        invariant forall i :: 0 <= i < |passed| - 1 ==> passed[i + 1] == Worked(passed[i], found, list)
        invariant forall i :: 0 <= i < |passed| ==> Published(passed[i]) && Wakeup(passed[i])
        decreases StationsLeft(at)
      {
        WorkedJob(k, found, list);
        Advance(found, list, k);
        k := Worked(k, found, list);
        passed := passed + [k];
      }
      assert passed[1] == Worked(passed[0], found, list) && passed[2] == Worked(passed[1], found, list);
      assert passed[3] == Worked(passed[2], found, list) && passed[4] == Worked(passed[3], found, list);
      assert passed[5] == Worked(passed[4], found, list);
    }

    method FinishResolve(ghost j: Job) returns (client: Client)
      requires Shows(j) && Published(j) && j.client.Pending?
      modifies this
      ensures var r := Looked(j.(client := Drained(j.bytes > 0), bytes := 0)); Shows(r) && client == r.client
    {
      bytes := 0;
      if !ready { return Pending; }
      var done := ok.value;
      client := Answered(done, if done then addrs.value else []);
    }
  }
}
