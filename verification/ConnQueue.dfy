// The bounded queue of src/conn_queue.cpp as a monitor: every step is one mutex section or one
// notification, taken by any thread in any order, with spurious wakeups, timeouts and stolen items.
// Without a capacity it is the job queue of src/resolver.cpp.
module ConnQueue {
  import opened Basics

  // Where a thread stands.
  datatype Loc =
    | Idle
    // pop()
    | Popping            // about to take the mutex and look
    | PopAsleep          // in the wait set of not_empty_
    | PopWoken           // notified, not running yet
    | Popped(item: nat)    // has an item; not_full_ not notified yet
    | PopDone(item: nat)   // returned true
    | PopEnded           // returned false
    // push_for()
    | Pushing(item: nat)
    | PushAsleep(item: nat)
    | PushWoken(item: nat)
    | Pushed             // stored; not_empty_ not notified yet
    | PushDone
    | PushTimedOut(item: nat)
    | PushClosed(item: nat)
    // close()
    | Closing
    | CloseFlagged       // closed_ set; nobody notified yet
    | CloseHalf          // not_empty_ notified
    | CloseDone

  // `pushed` and `popped` are everything that ever went in and came out.  `calledOut` says that the
  // first close() has notified all consumers, `calledIn` all producers.
  datatype Monitor = Monitor(
    queue: seq<nat>, closed: bool, capacity: Option<nat>, at: map<nat, Loc>,
    pushed: seq<nat>, popped: seq<nat>, calledOut: bool, calledIn: bool)

  predicate HasRoom(m: Monitor) { m.capacity.None? || |m.queue| < m.capacity.value }

  function Go(m: Monitor, t: nat, l: Loc): (r: Monitor)
    ensures t in m.at ==> r.at.Keys == m.at.Keys
  {
    m.(at := m.at[t := l])
  }

  datatype Act =
    | CallPop(t: nat) | CallPush(t: nat, x: nat) | CallClose(t: nat)
    | Enter(t: nat)           // takes the mutex, first time or after waking
    | Spurious(t: nat)        // wakes without a notification
    | Timeout(t: nat)         // wait_for gives up, after one more look
    | Notify(t: nat, u: nat)  // notify_one after unlocking; u is the thread that wakes, if any sleeps
    | NotifyAll(t: nat)

  // The mutex section of pop().
  function PopSection(m: Monitor, t: nat): (r: Monitor) {
    if m.queue != [] then
      Go(m.(queue := m.queue[1..], popped := m.popped + [m.queue[0]]), t, Popped(m.queue[0]))
    else if m.closed then Go(m, t, PopEnded)
    else Go(m, t, PopAsleep)
  }

  // The mutex section of push_for(); `last` when the time is up.
  function PushSection(m: Monitor, t: nat, x: nat, last: bool): (r: Monitor) {
    if m.closed then Go(m, t, PushClosed(x))
    else if HasRoom(m) then Go(m.(queue := m.queue + [x], pushed := m.pushed + [x]), t, Pushed)
    else if last then Go(m, t, PushTimedOut(x))
    else Go(m, t, PushAsleep(x))
  }

  function CloseSection(m: Monitor, t: nat): (r: Monitor) {
    if m.closed then Go(m, t, CloseDone) else Go(m.(closed := true), t, CloseFlagged)
  }

  ghost predicate AnyConsumerAsleep(m: Monitor) { exists u :: u in m.at && m.at[u].PopAsleep? }
  ghost predicate AnyProducerAsleep(m: Monitor) { exists u :: u in m.at && m.at[u].PushAsleep? }

  // notify_one wakes some sleeper, and is lost if nobody sleeps.
  ghost function NotifyConsumer(m: Monitor, t: nat, u: nat): (r: Monitor) {
    if u in m.at && m.at[u].PopAsleep? then Go(Go(m, u, PopWoken), t, PushDone)
    else if AnyConsumerAsleep(m) then m
    else Go(m, t, PushDone)
  }

  ghost function NotifyProducer(m: Monitor, t: nat, u: nat, x: nat): (r: Monitor) {
    if u in m.at && m.at[u].PushAsleep? then Go(Go(m, u, PushWoken(m.at[u].item)), t, PopDone(x))
    else if AnyProducerAsleep(m) then m
    else Go(m, t, PopDone(x))
  }

  function WakeConsumers(at: map<nat, Loc>): (r: map<nat, Loc>) {
    map u | u in at :: if at[u].PopAsleep? then PopWoken else at[u]
  }

  function WakeProducers(at: map<nat, Loc>): (r: map<nat, Loc>) {
    map u | u in at :: if at[u].PushAsleep? then PushWoken(at[u].item) else at[u]
  }

  predicate Free(l: Loc) {
    l.Idle? || l.PopDone? || l.PopEnded? || l.PushDone? || l.PushTimedOut? || l.PushClosed? || l.CloseDone?
  }

  // A step that is not possible leaves the monitor alone, so every list of steps is a run.
  ghost function Next(m: Monitor, a: Act): (r: Monitor) {
    if a.t !in m.at then m
    else
      var l := m.at[a.t];
      match a
      case CallPop(t) => if Free(l) then Go(m, t, Popping) else m
      case CallPush(t, x) => if Free(l) then Go(m, t, Pushing(x)) else m
      case CallClose(t) => if Free(l) then Go(m, t, Closing) else m
      case Enter(t) =>
        if l.Popping? || l.PopWoken? then PopSection(m, t)
        else if l.Pushing? || l.PushWoken? then PushSection(m, t, l.item, false)
        else if l.Closing? then CloseSection(m, t)
        else m
      case Spurious(t) =>
        if l.PopAsleep? then Go(m, t, Popping)
        else if l.PushAsleep? then Go(m, t, Pushing(l.item))
        else m
      case Timeout(t) => if l.PushAsleep? || l.PushWoken? then PushSection(m, t, l.item, true) else m
      case Notify(t, u) =>
        if l.Pushed? then NotifyConsumer(m, t, u)
        else if l.Popped? then NotifyProducer(m, t, u, l.item)
        else m
      case NotifyAll(t) =>
        if l.CloseFlagged? then Go(m.(at := WakeConsumers(m.at), calledOut := true), t, CloseHalf)
        else if l.CloseHalf? then Go(m.(at := WakeProducers(m.at), calledIn := true), t, CloseDone)
        else m
  }

  // ---- counting threads -----------------------------------------------------------------------

  datatype Role = Asleep | Woken | Unannounced | AsleepIn | WokenIn | UnannouncedIn | Flagged | Half | Other

  function RoleOf(l: Loc): (r: Role) {
    match l
    case PopAsleep => Asleep
    case PopWoken => Woken
    case Pushed => Unannounced
    case PushAsleep(_) => AsleepIn
    case PushWoken(_) => WokenIn
    case Popped(_) => UnannouncedIn
    case CloseFlagged => Flagged
    case CloseHalf => Half
    case _ => Other
  }

  ghost function Where(at: map<nat, Loc>, r: Role): (s: set<nat>) {
    set t | t in at && RoleOf(at[t]) == r
  }

  // How many threads are in role `r`.
  ghost function Num(m: Monitor, r: Role): (n: nat) { |Where(m.at, r)| }

  function One(b: bool): (n: nat) { if b then 1 else 0 }

  // ---- the invariant --------------------------------------------------------------------------

  // A sleeping consumer means every item in the queue already has a consumer on its way to it or a
  // producer about to notify one.
  ghost predicate ConsumersServed(m: Monitor) {
    Num(m, Asleep) > 0 ==> |m.queue| <= Num(m, Woken) + Num(m, Unannounced)
  }

  // The same for producers and free places, until the queue is closed: then a close() is still
  // about to notify them all.
  ghost predicate ProducersServed(m: Monitor) {
    Num(m, AsleepIn) > 0 ==>
      && m.capacity.Some?
      && (!m.closed ==> m.capacity.value - |m.queue| <= Num(m, WokenIn) + Num(m, UnannouncedIn))
  }

  ghost predicate Fifo(m: Monitor) {
    && m.pushed == m.popped + m.queue
    && (m.capacity.Some? ==> |m.queue| <= m.capacity.value)
  }

  // After the first close() has notified one side nobody sleeps there again.
  ghost predicate CloseWakes(m: Monitor) {
    && (m.calledOut ==> Num(m, Asleep) == 0)
    && (m.calledIn ==> Num(m, AsleepIn) == 0)
  }

  // The one close() that set the flag is between its two notifications exactly when the flags say so.
  ghost predicate CloserInPlace(m: Monitor) {
    && (m.calledIn ==> m.calledOut) && (m.calledOut ==> m.closed)
    && Num(m, Flagged) == One(m.closed && !m.calledOut)
    && Num(m, Half) == One(m.calledOut && !m.calledIn)
  }

  ghost predicate MonitorInv(m: Monitor) {
    ConsumersServed(m) && ProducersServed(m) && Fifo(m) && CloseWakes(m) && CloserInPlace(m)
  }

  // ---- preservation ---------------------------------------------------------------------------

  // The count of role `r` after one thread went from `from` to `to`.
  ghost predicate Delta(m: Monitor, n: Monitor, r: Role, from: Loc, to: Loc) {
    Num(n, r) == Num(m, r) - One(RoleOf(from) == r) + One(RoleOf(to) == r)
  }

  lemma CountMoves(m: Monitor, n: Monitor, t: nat, l: Loc, r: Role)
    requires t in m.at && n.at == m.at[t := l]
    ensures Delta(m, n, r, m.at[t], l)
  {
    hide RoleOf;
    var s, s' := Where(m.at, r), Where(n.at, r);
    assert s' == (if RoleOf(l) == r then s + {t} else s - {t});
    assert t in s <==> RoleOf(m.at[t]) == r;
  }

  ghost predicate Deltas(m: Monitor, n: Monitor, from: Loc, to: Loc) {
    && Delta(m, n, Asleep, from, to) && Delta(m, n, Woken, from, to) && Delta(m, n, Unannounced, from, to)
    && Delta(m, n, AsleepIn, from, to) && Delta(m, n, WokenIn, from, to) && Delta(m, n, UnannouncedIn, from, to)
    && Delta(m, n, Flagged, from, to) && Delta(m, n, Half, from, to)
  }

  // How every count changes when thread `t` goes to `l`.
  lemma Moved(m: Monitor, n: Monitor, t: nat, l: Loc)
    requires t in m.at && n.at == m.at[t := l]
    ensures Deltas(m, n, m.at[t], l)
  {
    hide Delta;
    CountMoves(m, n, t, l, Asleep);
    CountMoves(m, n, t, l, Woken);
    CountMoves(m, n, t, l, Unannounced);
    CountMoves(m, n, t, l, AsleepIn);
    CountMoves(m, n, t, l, WokenIn);
    CountMoves(m, n, t, l, UnannouncedIn);
    CountMoves(m, n, t, l, Flagged);
    CountMoves(m, n, t, l, Half);
  }

  // A thread moves between two places that play no role.
  lemma MoveIdle(m: Monitor, t: nat, l: Loc)
    requires MonitorInv(m) && t in m.at
    requires RoleOf(m.at[t]) == RoleOf(l) == Other
    ensures MonitorInv(Go(m, t, l))
  {
    hide RoleOf, Where, Num;
    Moved(m, Go(m, t, l), t, l);
  }

  lemma TakeInv(m: Monitor, t: nat)
    requires MonitorInv(m) && t in m.at && (m.at[t].Popping? || m.at[t].PopWoken?) && m.queue != []
    ensures MonitorInv(PopSection(m, t))
  {
    hide Where, Num;
    var n := PopSection(m, t);
    Moved(m, n, t, Popped(m.queue[0]));
    assert m.queue == [m.queue[0]] + m.queue[1..];
  }

  lemma StayInv(m: Monitor, t: nat)
    requires MonitorInv(m) && t in m.at && (m.at[t].Popping? || m.at[t].PopWoken?) && m.queue == []
    ensures MonitorInv(PopSection(m, t))
  {
    hide Where, Num;
    Moved(m, PopSection(m, t), t, if m.closed then PopEnded else PopAsleep);
  }

  predicate CanPush(l: Loc, last: bool) { l.Pushing? || l.PushWoken? || (last && l.PushAsleep?) }

  lemma StoreInv(m: Monitor, t: nat, x: nat, last: bool)
    requires MonitorInv(m) && t in m.at && CanPush(m.at[t], last) && !m.closed && HasRoom(m)
    ensures MonitorInv(PushSection(m, t, x, last))
  {
    hide Where, Num;
    var n := PushSection(m, t, x, last);
    Moved(m, n, t, Pushed);
    assert m.popped + (m.queue + [x]) == (m.popped + m.queue) + [x];
  }

  lemma RefuseInv(m: Monitor, t: nat, x: nat, last: bool)
    requires MonitorInv(m) && t in m.at && CanPush(m.at[t], last) && (m.closed || !HasRoom(m))
    ensures MonitorInv(PushSection(m, t, x, last))
  {
    hide Where, Num;
    var n := PushSection(m, t, x, last);
    Moved(m, n, t, if m.closed then PushClosed(x) else if last then PushTimedOut(x) else PushAsleep(x));
  }

  lemma PushInv(m: Monitor, t: nat, x: nat, last: bool)
    requires MonitorInv(m) && t in m.at && CanPush(m.at[t], last)
    ensures MonitorInv(PushSection(m, t, x, last))
  {
    if m.closed || !HasRoom(m) { RefuseInv(m, t, x, last); } else { StoreInv(m, t, x, last); }
  }

  lemma CloseInv(m: Monitor, t: nat)
    requires MonitorInv(m) && t in m.at && m.at[t].Closing?
    ensures MonitorInv(CloseSection(m, t))
  {
    hide Where, Num;
    Moved(m, CloseSection(m, t), t, if m.closed then CloseDone else CloseFlagged);
  }

  lemma SpuriousInv(m: Monitor, t: nat, l: Loc)
    requires MonitorInv(m) && t in m.at && RoleOf(m.at[t]) in {Asleep, AsleepIn} && RoleOf(l) == Other
    ensures MonitorInv(Go(m, t, l))
  {
    hide RoleOf, Where, Num;
    Moved(m, Go(m, t, l), t, l);
  }

  lemma NobodyAsleep(m: Monitor)
    ensures !AnyConsumerAsleep(m) ==> Num(m, Asleep) == 0
    ensures !AnyProducerAsleep(m) ==> Num(m, AsleepIn) == 0
  {
    assert !AnyConsumerAsleep(m) ==> Where(m.at, Asleep) == {};
    assert !AnyProducerAsleep(m) ==> Where(m.at, AsleepIn) == {};
  }

  // Waking one sleeper leaves a notification to spare.
  lemma WakeConsumerInv(m: Monitor, u: nat)
    requires MonitorInv(m) && u in m.at && m.at[u].PopAsleep?
    ensures var k := Go(m, u, PopWoken); MonitorInv(k) && |k.queue| < Num(k, Woken) + Num(k, Unannounced)
  {
    assert u in Where(m.at, Asleep);
    assert RoleOf(PopAsleep) == Asleep && RoleOf(PopWoken) == Woken;
    hide Where, Num, RoleOf;
    Moved(m, Go(m, u, PopWoken), u, PopWoken);
  }

  lemma WakeProducerInv(m: Monitor, u: nat)
    requires MonitorInv(m) && u in m.at && m.at[u].PushAsleep?
    ensures var k := Go(m, u, PushWoken(m.at[u].item));
            && MonitorInv(k) && k.capacity.Some?
            && (!k.closed ==> k.capacity.value - |k.queue| < Num(k, WokenIn) + Num(k, UnannouncedIn))
  {
    assert u in Where(m.at, AsleepIn);
    assert RoleOf(m.at[u]) == AsleepIn && RoleOf(PushWoken(m.at[u].item)) == WokenIn;
    hide Where, Num, RoleOf;
    Moved(m, Go(m, u, PushWoken(m.at[u].item)), u, PushWoken(m.at[u].item));
  }

  lemma PushReturnsInv(m: Monitor, t: nat)
    requires MonitorInv(m) && t in m.at && m.at[t].Pushed?
    requires Num(m, Asleep) > 0 ==> |m.queue| < Num(m, Woken) + Num(m, Unannounced)
    ensures MonitorInv(Go(m, t, PushDone))
  {
    hide Where, Num;
    Moved(m, Go(m, t, PushDone), t, PushDone);
  }

  lemma PopReturnsInv(m: Monitor, t: nat, x: nat)
    requires MonitorInv(m) && t in m.at && m.at[t].Popped?
    requires Num(m, AsleepIn) > 0 && !m.closed ==>
               m.capacity.value - |m.queue| < Num(m, WokenIn) + Num(m, UnannouncedIn)
    ensures MonitorInv(Go(m, t, PopDone(x)))
  {
    hide Where, Num;
    Moved(m, Go(m, t, PopDone(x)), t, PopDone(x));
  }

  lemma NotifyConsumerInv(m: Monitor, t: nat, u: nat)
    requires MonitorInv(m) && t in m.at && m.at[t].Pushed?
    ensures MonitorInv(NotifyConsumer(m, t, u))
  {
    hide MonitorInv, Num;
    if u in m.at && m.at[u].PopAsleep? {
      WakeConsumerInv(m, u);
      PushReturnsInv(Go(m, u, PopWoken), t);
    } else if !AnyConsumerAsleep(m) {
      NobodyAsleep(m);
      PushReturnsInv(m, t);
    }
  }

  lemma NotifyProducerInv(m: Monitor, t: nat, u: nat, x: nat)
    requires MonitorInv(m) && t in m.at && m.at[t].Popped?
    ensures MonitorInv(NotifyProducer(m, t, u, x))
  {
    hide MonitorInv, Num;
    if u in m.at && m.at[u].PushAsleep? {
      WakeProducerInv(m, u);
      PopReturnsInv(Go(m, u, PushWoken(m.at[u].item)), t, x);
    } else if !AnyProducerAsleep(m) {
      NobodyAsleep(m);
      PopReturnsInv(m, t, x);
    }
  }

  // Waking everybody on one side leaves every other count alone.
  lemma WokenConsumers(m: Monitor, n: Monitor, r: Role)
    requires n.at == WakeConsumers(m.at)
    ensures Num(n, Asleep) == 0
    ensures r !in {Asleep, Woken} ==> Num(n, r) == Num(m, r)
  {
    assert Where(n.at, Asleep) == {};
    assert r !in {Asleep, Woken} ==> Where(n.at, r) == Where(m.at, r);
  }

  lemma WokenProducers(m: Monitor, n: Monitor, r: Role)
    requires n.at == WakeProducers(m.at)
    ensures Num(n, AsleepIn) == 0
    ensures r !in {AsleepIn, WokenIn} ==> Num(n, r) == Num(m, r)
  {
    assert Where(n.at, AsleepIn) == {};
    assert r !in {AsleepIn, WokenIn} ==> Where(n.at, r) == Where(m.at, r);
  }

  lemma CallOutInv(m: Monitor, t: nat)
    requires MonitorInv(m) && t in m.at && m.at[t].CloseFlagged?
    ensures MonitorInv(Next(m, NotifyAll(t)))
  {
    hide Where, Num;
    var k := m.(at := WakeConsumers(m.at), calledOut := true);
    WokenConsumers(m, k, AsleepIn);
    WokenConsumers(m, k, WokenIn);
    WokenConsumers(m, k, UnannouncedIn);
    WokenConsumers(m, k, Flagged);
    WokenConsumers(m, k, Half);
    assert k.at[t] == CloseFlagged;
    assert RoleOf(CloseFlagged) == Flagged && RoleOf(CloseHalf) == Half;
    hide RoleOf, WakeConsumers;
    Moved(k, Go(k, t, CloseHalf), t, CloseHalf);
  }

  lemma CallInInv(m: Monitor, t: nat)
    requires MonitorInv(m) && t in m.at && m.at[t].CloseHalf?
    ensures MonitorInv(Next(m, NotifyAll(t)))
  {
    hide Where, Num;
    var k := m.(at := WakeProducers(m.at), calledIn := true);
    WokenProducers(m, k, Asleep);
    WokenProducers(m, k, Flagged);
    WokenProducers(m, k, Half);
    assert k.at[t] == CloseHalf;
    assert RoleOf(CloseHalf) == Half && RoleOf(CloseDone) == Other;
    hide RoleOf, WakeProducers;
    Moved(k, Go(k, t, CloseDone), t, CloseDone);
  }

  lemma NextInv(m: Monitor, a: Act)
    requires MonitorInv(m)
    ensures MonitorInv(Next(m, a))
  {
    hide MonitorInv, PopSection, PushSection, CloseSection, NotifyConsumer, NotifyProducer,
         WakeConsumers, WakeProducers;
    if a.t in m.at {
      var l := m.at[a.t];
      match a
      case CallPop(t) => if Free(l) { MoveIdle(m, t, Popping); }
      case CallPush(t, x) => if Free(l) { MoveIdle(m, t, Pushing(x)); }
      case CallClose(t) => if Free(l) { MoveIdle(m, t, Closing); }
      case Enter(t) =>
        if l.Popping? || l.PopWoken? { if m.queue == [] { StayInv(m, t); } else { TakeInv(m, t); } }
        else if l.Pushing? || l.PushWoken? { PushInv(m, t, l.item, false); }
        else if l.Closing? { CloseInv(m, t); }
      case Spurious(t) =>
        if l.PopAsleep? { SpuriousInv(m, t, Popping); }
        else if l.PushAsleep? { SpuriousInv(m, t, Pushing(l.item)); }
      case Timeout(t) => if l.PushAsleep? || l.PushWoken? { PushInv(m, t, l.item, true); }
      case Notify(t, u) =>
        if l.Pushed? { NotifyConsumerInv(m, t, u); }
        else if l.Popped? { NotifyProducerInv(m, t, u, l.item); }
      case NotifyAll(t) => if l.CloseFlagged? { CallOutInv(m, t); } else if l.CloseHalf? { CallInInv(m, t); }
    }
  }

  // ---- every run ------------------------------------------------------------------------------

  // A new queue; a capacity of 0 is taken as 1.
  function Fresh(capacity: Option<nat>, threads: set<nat>): (m: Monitor) {
    var limit := if capacity == Some(0) then Some(1) else capacity;
    Monitor([], false, limit, map t | t in threads :: Idle, [], [], false, false)
  }

  ghost function MonitorRun(m: Monitor, acts: seq<Act>): (r: Monitor)
    decreases |acts|
  {
    if acts == [] then m else Next(MonitorRun(m, acts[..|acts| - 1]), acts[|acts| - 1])
  }

  lemma {:induction false} MonitorRunInv(capacity: Option<nat>, threads: set<nat>, acts: seq<Act>)
    ensures MonitorInv(MonitorRun(Fresh(capacity, threads), acts))
    decreases |acts|
  {
    if acts == [] {
      var m := Fresh(capacity, threads);
      assert forall r | r != Other :: Where(m.at, r) == {};
    } else {
      MonitorRunInv(capacity, threads, acts[..|acts| - 1]);
      NextInv(MonitorRun(Fresh(capacity, threads), acts[..|acts| - 1]), acts[|acts| - 1]);
    }
  }

  // Nobody is on the way to the queue: no woken thread and no notification outstanding.
  ghost predicate Settled(m: Monitor) {
    forall t :: t in m.at ==> RoleOf(m.at[t]) in {Asleep, AsleepIn, Other}
  }

  // Whatever the schedule, the spurious wakeups, the timeouts and the threads that arrive between a
  // notification and the notified: once things settle, nobody sleeps on something it could use.
  lemma NoLostWakeup(capacity: Option<nat>, threads: set<nat>, acts: seq<Act>)
    ensures var m := MonitorRun(Fresh(capacity, threads), acts);
            Settled(m) ==>
              && (AnyConsumerAsleep(m) ==> m.queue == [] && !m.closed)
              && (AnyProducerAsleep(m) ==> !HasRoom(m) && !m.closed)
  {
    var m := MonitorRun(Fresh(capacity, threads), acts);
    MonitorRunInv(capacity, threads, acts);
    hide MonitorRun;
    if Settled(m) { SettledMonitor(m); }
  }

  lemma SettledMonitor(m: Monitor)
    requires MonitorInv(m) && Settled(m)
    ensures AnyConsumerAsleep(m) ==> m.queue == [] && !m.closed
    ensures AnyProducerAsleep(m) ==> !HasRoom(m) && !m.closed
  {
    forall r | r in {Woken, Unannounced, WokenIn, UnannouncedIn, Flagged, Half} ensures Num(m, r) == 0 {
      assert Where(m.at, r) == {};
    }
    if AnyConsumerAsleep(m) {
      var u :| u in m.at && m.at[u].PopAsleep?;
      assert u in Where(m.at, Asleep);
    }
    if AnyProducerAsleep(m) {
      var u :| u in m.at && m.at[u].PushAsleep?;
      assert u in Where(m.at, AsleepIn);
    }
  }

  // What comes out is what went in, in that order, and never more than the capacity is inside.
  lemma QueueIsFifo(capacity: Option<nat>, threads: set<nat>, acts: seq<Act>)
    ensures var m := MonitorRun(Fresh(capacity, threads), acts);
            && m.pushed == m.popped + m.queue
            && (capacity.Some? ==> |m.queue| <= if capacity.value == 0 then 1 else capacity.value)
  {
    MonitorRunInv(capacity, threads, acts);
    RunKeepsCapacity(Fresh(capacity, threads), acts);
  }

  lemma NextKeeps(m: Monitor, a: Act)
    ensures Next(m, a).capacity == m.capacity
    ensures Next(m, a).at.Keys == m.at.Keys
  {
    if a.NotifyAll? {
      assert WakeConsumers(m.at).Keys == m.at.Keys;
      assert WakeProducers(m.at).Keys == m.at.Keys;
    }
  }

  lemma {:induction false} RunKeepsCapacity(m: Monitor, acts: seq<Act>)
    ensures MonitorRun(m, acts).capacity == m.capacity
    ensures MonitorRun(m, acts).at.Keys == m.at.Keys
    decreases |acts|
  {
    hide Next;
    if acts != [] {
      RunKeepsCapacity(m, acts[..|acts| - 1]);
      NextKeeps(MonitorRun(m, acts[..|acts| - 1]), acts[|acts| - 1]);
    }
  }

  ghost predicate NobodyAt(m: Monitor, l: Loc) { forall t :: t in m.at ==> m.at[t] != l }

  lemma ClosedMonitor(m: Monitor)
    requires MonitorInv(m) && m.closed && NobodyAt(m, CloseFlagged)
    ensures !AnyConsumerAsleep(m)
    ensures NobodyAt(m, CloseHalf) ==> !AnyProducerAsleep(m)
  {
    assert Where(m.at, Flagged) == {};
    assert m.calledOut && Where(m.at, Asleep) == {};
    assert forall u :: u in m.at && m.at[u].PopAsleep? ==> u in Where(m.at, Asleep);
    if NobodyAt(m, CloseHalf) {
      assert Where(m.at, Half) == {};
      assert m.calledIn && Where(m.at, AsleepIn) == {};
      assert forall u :: u in m.at && m.at[u].PushAsleep? ==> u in Where(m.at, AsleepIn);
    }
  }

  // Once no close() is left between setting the flag and notifying, a closed queue has no sleepers.
  lemma CloseWakesEveryone(capacity: Option<nat>, threads: set<nat>, acts: seq<Act>)
    ensures var m := MonitorRun(Fresh(capacity, threads), acts);
            m.closed && NobodyAt(m, CloseFlagged) ==>
              && !AnyConsumerAsleep(m)
              && (NobodyAt(m, CloseHalf) ==> !AnyProducerAsleep(m))
  {
    var m := MonitorRun(Fresh(capacity, threads), acts);
    MonitorRunInv(capacity, threads, acts);
    hide MonitorRun, MonitorInv;
    if m.closed && NobodyAt(m, CloseFlagged) { ClosedMonitor(m); }
  }

  // Thread t set the flag: it is still in close(), or it has notified everybody.
  ghost predicate Closer(m: Monitor, t: nat) {
    && t in m.at && m.closed
    && (m.at[t].CloseFlagged? || (m.calledOut && (m.at[t].CloseHalf? || m.calledIn)))
  }

  lemma CloserStays(m: Monitor, t: nat, a: Act)
    requires Closer(m, t)
    ensures Closer(Next(m, a), t)
  {
    NextKeeps(m, a);
    hide AnyConsumerAsleep, AnyProducerAsleep;
  }

  lemma {:induction false} CloserRuns(m: Monitor, before: seq<Act>, t: nat, after: seq<Act>)
    requires var k := MonitorRun(m, before); t in k.at && k.at[t].Closing? && !k.closed
    ensures Closer(MonitorRun(m, before + [Enter(t)] + after), t)
    decreases |after|
  {
    if after == [] {
      RunStep(m, before, Enter(t));
      assert before + [Enter(t)] + [] == before + [Enter(t)];
    } else {
      var rest, a := after[..|after| - 1], after[|after| - 1];
      CloserRuns(m, before, t, rest);
      RunStep(m, before + [Enter(t)] + rest, a);
      assert before + [Enter(t)] + rest + [a] == before + [Enter(t)] + after;
      hide Next, MonitorRun;
      CloserStays(MonitorRun(m, before + [Enter(t)] + rest), t, a);
    }
  }

  // For the caller that entered close() on an open queue: once its call has returned nobody sleeps,
  // and nobody falls asleep again, whatever happens afterwards.
  lemma CloserWakesEveryone(capacity: Option<nat>, threads: set<nat>, before: seq<Act>, t: nat, after: seq<Act>)
    requires var k := MonitorRun(Fresh(capacity, threads), before); t in k.at && k.at[t].Closing? && !k.closed
    ensures var m := MonitorRun(Fresh(capacity, threads), before + [Enter(t)] + after);
            && t in m.at
            && (m.at[t].CloseFlagged? || m.at[t].CloseHalf? || (!AnyConsumerAsleep(m) && !AnyProducerAsleep(m)))
  {
    var m := MonitorRun(Fresh(capacity, threads), before + [Enter(t)] + after);
    CloserRuns(Fresh(capacity, threads), before, t, after);
    MonitorRunInv(capacity, threads, before + [Enter(t)] + after);
    hide MonitorRun;
    if m.calledIn {
      assert Where(m.at, Asleep) == {} == Where(m.at, AsleepIn);
      assert forall u :: u in m.at && m.at[u].PopAsleep? ==> u in Where(m.at, Asleep);
      assert forall u :: u in m.at && m.at[u].PushAsleep? ==> u in Where(m.at, AsleepIn);
    }
  }

  function Three(a: Loc, b: Loc, c: Loc, closed: bool): (m: Monitor) {
    Monitor([], closed, Some(1), map[0 := a, 1 := b, 2 := c], [], [], false, false)
  }

  lemma FirstSleeps()
    ensures MonitorRun(Fresh(Some(1), {0, 1, 2}), [CallPop(0), Enter(0)]) == Three(PopAsleep, Idle, Idle, false)
  {
    var m := Fresh(Some(1), {0, 1, 2});
    assert m == Three(Idle, Idle, Idle, false);
    assert MonitorRun(m, []) == m;
    hide MonitorRun, Fresh, NotifyConsumer, NotifyProducer, PushSection, CloseSection, WakeConsumers, WakeProducers;
    TwoSteps(m, [], CallPop(0), Enter(0));
    assert [] + [CallPop(0), Enter(0)] == [CallPop(0), Enter(0)];
    assert Next(m, CallPop(0)) == Three(Popping, Idle, Idle, false);
  }

  lemma FirstCloseSetsFlag()
    ensures MonitorRun(Fresh(Some(1), {0, 1, 2}), [CallPop(0), Enter(0)] + [CallClose(1), Enter(1)])
            == Three(PopAsleep, CloseFlagged, Idle, true)
  {
    hide MonitorRun, Fresh, NotifyConsumer, NotifyProducer, PushSection, PopSection, WakeConsumers, WakeProducers;
    FirstSleeps();
    TwoSteps(Fresh(Some(1), {0, 1, 2}), [CallPop(0), Enter(0)], CallClose(1), Enter(1));
    assert Next(Three(PopAsleep, Idle, Idle, false), CallClose(1)) == Three(PopAsleep, Closing, Idle, false);
  }

  // That condition is needed: a second close() returns at once, and a consumer may still be asleep
  // because the first has not notified yet.
  lemma SecondCloseMayReturnFirst()
    ensures MonitorRun(Fresh(Some(1), {0, 1, 2}),
                       [CallPop(0), Enter(0)] + [CallClose(1), Enter(1)] + [CallClose(2), Enter(2)])
            == Three(PopAsleep, CloseFlagged, CloseDone, true)
  {
    hide MonitorRun, Fresh, NotifyConsumer, NotifyProducer, PushSection, PopSection, WakeConsumers, WakeProducers;
    FirstCloseSetsFlag();
    TwoSteps(Fresh(Some(1), {0, 1, 2}), [CallPop(0), Enter(0)] + [CallClose(1), Enter(1)],
             CallClose(2), Enter(2));
    assert Next(Three(PopAsleep, CloseFlagged, Idle, true), CallClose(2)) == Three(PopAsleep, CloseFlagged, Closing, true);
  }

  lemma TwoSteps(m: Monitor, acts: seq<Act>, a: Act, b: Act)
    ensures MonitorRun(m, acts + [a, b]) == Next(Next(MonitorRun(m, acts), a), b)
  {
    hide Next;
    RunStep(m, acts, a);
    RunStep(m, acts + [a], b);
    assert acts + [a] + [b] == acts + [a, b];
  }

  lemma RunStep(m: Monitor, acts: seq<Act>, a: Act)
    ensures MonitorRun(m, acts + [a]) == Next(MonitorRun(m, acts), a)
  {
    assert (acts + [a])[..|acts|] == acts;
  }

  lemma MonitorIsFifo(m: Monitor)
    requires MonitorInv(m)
    ensures Fifo(m)
  {
  }

  // Where a thread that only pops can be.
  predicate WorkerAt(l: Loc) {
    l.Idle? || l.Popping? || l.PopAsleep? || l.PopWoken? || l.Popped? || l.PopDone? || l.PopEnded?
  }

  // Moves between places where a thread holds the same connection and has as much left to do.
  predicate Gentle(l: Loc, k: Loc) {
    || k == l
    || (l.PopAsleep? && (k.PopWoken? || k.Popping?))
    || (l.PushAsleep? && (k.PushWoken? || k.Pushing?) && k.item == l.item)
    || (l.Pushed? && k.PushDone?)
    || (l.Popped? && k.PopDone? && k.item == l.item)
    || (l.CloseFlagged? && k.CloseHalf?)
    || (l.CloseHalf? && k.CloseDone?)
  }

  ghost predicate Gently(m: Monitor, n: Monitor) {
    && n.at.Keys == m.at.Keys && n.queue == m.queue && n.closed == m.closed
    && n.pushed == m.pushed && n.popped == m.popped
    && (forall t :: t in m.at ==> Gentle(m.at[t], n.at[t]))
  }

  lemma NotifyIsGentle(m: Monitor, b: Act)
    requires b.Notify?
    ensures Gently(m, Next(m, b))
  {
    NextKeeps(m, b);
    hide AnyConsumerAsleep, AnyProducerAsleep, RoleOf;
  }

  lemma WakingIsGentle(m: Monitor, b: Act)
    requires b.Spurious? || b.NotifyAll?
    ensures Gently(m, Next(m, b))
  {
    NextKeeps(m, b);
  }

  // The queue object: each method is one critical section, and does to the fields what the step of
  // the same name does to the monitor.  What it returns is where the calling thread goes next.
  class Queue {
    var queue: seq<nat>
    var closed: bool
    const capacity: nat

    ghost predicate Shows(m: Monitor)
      reads this
    {
      queue == m.queue && closed == m.closed && m.capacity == Some(capacity)
    }

    constructor (capacity: nat, ghost threads: set<nat>)
      ensures Shows(Fresh(Some(capacity), threads))
    {
      queue, closed := [], false;
      this.capacity := if capacity != 0 then capacity else 1;
    }

    method Push(fd: nat, last: bool, ghost m: Monitor, ghost t: nat) returns (next: Loc)
      requires Shows(m)
      modifies this
      ensures Shows(PushSection(m, t, fd, last)) && next == PushSection(m, t, fd, last).at[t]
    {
      var ready := closed || |queue| < capacity;
      if !ready && !last { return PushAsleep(fd); }
      if closed { return PushClosed(fd); }
      if !ready { return PushTimedOut(fd); }
      queue := queue + [fd];
      return Pushed;
    }

    method Pop(ghost m: Monitor, ghost t: nat) returns (next: Loc)
      requires Shows(m)
      modifies this
      ensures Shows(PopSection(m, t)) && next == PopSection(m, t).at[t]
    {
      if !(closed || queue != []) { return PopAsleep; }
      if queue == [] { return PopEnded; }
      next := Popped(queue[0]);
      queue := queue[1..];
    }

    method Close(ghost m: Monitor, ghost t: nat) returns (next: Loc)
      requires Shows(m)
      modifies this
      ensures Shows(CloseSection(m, t)) && next == CloseSection(m, t).at[t]
    {
      if closed { return CloseDone; }
      closed := true;
      return CloseFlagged;
    }
  }
}
