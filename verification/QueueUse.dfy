// The queue used from beginning to end by one thread: what push_for(), close() and pop() return, for
// every capacity and every list of items.
module QueueUse {
  import opened Basics
  import opened ConnQueue

  // Thread 0 alone, standing at l.
  predicate Stands(m: Monitor, l: Loc) { m.at == map[0 := l] }

  // One uninterrupted call each.
  function PushCall(x: nat): (acts: seq<Act>) { [CallPush(0, x), Enter(0), Notify(0, 0)] }
  function LatePushCall(x: nat): (acts: seq<Act>) { [CallPush(0, x), Enter(0), Timeout(0)] }
  function PopCall(): (acts: seq<Act>) { [CallPop(0), Enter(0), Notify(0, 0)] }
  function CloseCall(): (acts: seq<Act>) { [CallClose(0), Enter(0), NotifyAll(0), NotifyAll(0)] }

  lemma {:induction false} RunAppend(m: Monitor, a: seq<Act>, b: seq<Act>)
    ensures MonitorRun(m, a + b) == MonitorRun(MonitorRun(m, a), b)
    decreases |b|
  {
    hide Next;
    if b == [] {
      assert a + b == a;
    } else {
      RunAppend(m, a, b[..|b| - 1]);
      assert (a + b)[..|a + b| - 1] == a + b[..|b| - 1];
    }
  }

  lemma ThreeActs(m: Monitor, a: Act, b: Act, c: Act)
    ensures MonitorRun(m, [a, b, c]) == Next(Next(Next(m, a), b), c)
  {
    hide Next;
    RunStep(m, [], a);
    RunStep(m, [a], b);
    RunStep(m, [a, b], c);
    assert [] + [a] == [a] && [a] + [b] == [a, b] && [a, b] + [c] == [a, b, c];
  }

  lemma NobodySleeps(m: Monitor, l: Loc)
    requires Stands(m, l) && !l.PopAsleep? && !l.PushAsleep?
    ensures !AnyConsumerAsleep(m) && !AnyProducerAsleep(m)
  {
  }

  // push_for() on a queue with room.
  lemma PushStores(m: Monitor, l: Loc, x: nat)
    requires Stands(m, l) && Free(l) && !m.closed && HasRoom(m)
    ensures var r := MonitorRun(m, PushCall(x));
            Stands(r, PushDone) && r.queue == m.queue + [x] && !r.closed && r.capacity == m.capacity
  {
    ThreeActs(m, CallPush(0, x), Enter(0), Notify(0, 0));
    hide MonitorRun;
    var p := Next(Next(m, CallPush(0, x)), Enter(0));
    assert Next(m, CallPush(0, x)) == m.(at := map[0 := Pushing(x)]);
    assert Stands(p, Pushed);
    NobodySleeps(p, Pushed);
  }

  // push_for() on a full one, when the time is up.
  lemma PushTimesOut(m: Monitor, l: Loc, x: nat)
    requires Stands(m, l) && Free(l) && !m.closed && !HasRoom(m)
    ensures var r := MonitorRun(m, LatePushCall(x));
            Stands(r, PushTimedOut(x)) && r.queue == m.queue && !r.closed && r.capacity == m.capacity
  {
    ThreeActs(m, CallPush(0, x), Enter(0), Timeout(0));
    hide MonitorRun;
    assert Next(m, CallPush(0, x)) == m.(at := map[0 := Pushing(x)]);
    assert Next(Next(m, CallPush(0, x)), Enter(0)) == m.(at := map[0 := PushAsleep(x)]);
  }

  // push_for() on a closed one.
  lemma PushIsRefused(m: Monitor, l: Loc, x: nat)
    requires Stands(m, l) && Free(l) && m.closed
    ensures var r := MonitorRun(m, PushCall(x)); Stands(r, PushClosed(x)) && r.queue == m.queue && r.closed
  {
    ThreeActs(m, CallPush(0, x), Enter(0), Notify(0, 0));
    hide MonitorRun;
    assert Next(m, CallPush(0, x)) == m.(at := map[0 := Pushing(x)]);
    assert Next(Next(m, CallPush(0, x)), Enter(0)) == m.(at := map[0 := PushClosed(x)]);
  }

  // pop() on a queue with items.
  lemma PopReturnsHead(m: Monitor, l: Loc)
    requires Stands(m, l) && Free(l) && m.queue != []
    ensures var r := MonitorRun(m, PopCall());
            Stands(r, PopDone(m.queue[0])) && r.queue == m.queue[1..] && r.closed == m.closed && r.capacity == m.capacity
  {
    ThreeActs(m, CallPop(0), Enter(0), Notify(0, 0));
    hide MonitorRun;
    var p := Next(Next(m, CallPop(0)), Enter(0));
    assert Next(m, CallPop(0)) == m.(at := map[0 := Popping]);
    assert Stands(p, Popped(m.queue[0]));
    NobodySleeps(p, Popped(m.queue[0]));
  }

  // pop() on a closed and empty one.
  lemma PopReturnsEnd(m: Monitor, l: Loc)
    requires Stands(m, l) && Free(l) && m.queue == [] && m.closed
    ensures Stands(MonitorRun(m, PopCall()), PopEnded)
  {
    ThreeActs(m, CallPop(0), Enter(0), Notify(0, 0));
    hide MonitorRun;
    assert Next(m, CallPop(0)) == m.(at := map[0 := Popping]);
    assert Next(Next(m, CallPop(0)), Enter(0)) == m.(at := map[0 := PopEnded]);
  }

  lemma ClosingSteps(m: Monitor, l: Loc)
    requires Stands(m, l) && Free(l) && !m.closed
    ensures Next(Next(m, CallClose(0)), Enter(0)) == m.(at := map[0 := CloseFlagged], closed := true)
  {
    assert Next(m, CallClose(0)) == m.(at := map[0 := Closing]);
  }

  lemma CallsOut(f: Monitor)
    requires Stands(f, CloseFlagged)
    ensures Next(f, NotifyAll(0)) == f.(at := map[0 := CloseHalf], calledOut := true)
  {
    assert WakeConsumers(f.at) == f.at;
    hide WakeConsumers;
  }

  lemma CallsIn(h: Monitor)
    requires Stands(h, CloseHalf)
    ensures Next(h, NotifyAll(0)) == h.(at := map[0 := CloseDone], calledIn := true)
  {
    assert WakeProducers(h.at) == h.at;
    hide WakeProducers;
  }

  lemma CloseReturns(m: Monitor, l: Loc)
    requires Stands(m, l) && Free(l) && !m.closed
    ensures var r := MonitorRun(m, CloseCall()); Stands(r, CloseDone) && r.queue == m.queue && r.closed && r.capacity == m.capacity
  {
    hide MonitorRun, Next;
    assert CloseCall() == [CallClose(0), Enter(0), NotifyAll(0)] + [NotifyAll(0)];
    RunStep(m, [CallClose(0), Enter(0), NotifyAll(0)], NotifyAll(0));
    ThreeActs(m, CallClose(0), Enter(0), NotifyAll(0));
    ClosingSteps(m, l);
    var f := m.(at := map[0 := CloseFlagged], closed := true);
    CallsOut(f);
    CallsIn(f.(at := map[0 := CloseHalf], calledOut := true));
  }

  // ---- fill, close, drain ---------------------------------------------------------------------

  function FillCalls(xs: seq<nat>): (acts: seq<Act>) {
    if xs == [] then [] else FillCalls(xs[..|xs| - 1]) + PushCall(xs[|xs| - 1])
  }

  function DrainCalls(n: nat): (acts: seq<Act>) { if n == 0 then [] else DrainCalls(n - 1) + PopCall() }

  function Limit(capacity: nat): (n: nat) { if capacity == 0 then 1 else capacity }

  // Thread 0 is between calls, with these items inside.
  ghost predicate Between(m: Monitor, items: seq<nat>, closed: bool, limit: nat) {
    && (exists l :: Stands(m, l) && Free(l))
    && m.queue == items && m.closed == closed && m.capacity == Some(limit)
  }

  lemma {:induction false} FillsInOrder(capacity: nat, xs: seq<nat>)
    requires |xs| <= Limit(capacity)
    ensures Between(MonitorRun(Fresh(Some(capacity), {0}), FillCalls(xs)), xs, false, Limit(capacity))
  {
    hide Next;
    var m := Fresh(Some(capacity), {0});
    if xs == [] {
      assert Stands(m, Idle);
    } else {
      var k := |xs| - 1;
      FillsInOrder(capacity, xs[..k]);
      var b := MonitorRun(m, FillCalls(xs[..k]));
      var l :| Stands(b, l) && Free(l);
      RunAppend(m, FillCalls(xs[..k]), PushCall(xs[k]));
      PushStores(b, l, xs[k]);
      assert xs[..k] + [xs[k]] == xs;
      hide MonitorRun, FillCalls;
      assert Stands(MonitorRun(b, PushCall(xs[k])), PushDone);
    }
  }

  // What one more push of a full queue comes to.
  lemma FullQueueRefuses(capacity: nat, xs: seq<nat>, x: nat)
    requires |xs| == Limit(capacity)
    ensures var r := MonitorRun(Fresh(Some(capacity), {0}), FillCalls(xs) + LatePushCall(x));
            Stands(r, PushTimedOut(x)) && r.queue == xs
  {
    hide MonitorRun, FillCalls;
    var m := Fresh(Some(capacity), {0});
    FillsInOrder(capacity, xs);
    var b := MonitorRun(m, FillCalls(xs));
    var l :| Stands(b, l) && Free(l);
    RunAppend(m, FillCalls(xs), LatePushCall(x));
    PushTimesOut(b, l, x);
  }

  lemma ClosedKeepsItems(capacity: nat, xs: seq<nat>)
    requires |xs| <= Limit(capacity)
    ensures Between(MonitorRun(Fresh(Some(capacity), {0}), FillCalls(xs) + CloseCall()), xs, true, Limit(capacity))
  {
    hide MonitorRun, FillCalls;
    var m := Fresh(Some(capacity), {0});
    FillsInOrder(capacity, xs);
    var b := MonitorRun(m, FillCalls(xs));
    var l :| Stands(b, l) && Free(l);
    RunAppend(m, FillCalls(xs), CloseCall());
    CloseReturns(b, l);
    assert Stands(MonitorRun(b, CloseCall()), CloseDone);
  }

  lemma {:induction false} DrainsInOrder(m: Monitor, xs: seq<nat>, limit: nat, n: nat)
    requires Between(m, xs, true, limit) && n <= |xs|
    ensures var r := MonitorRun(m, DrainCalls(n));
            Between(r, xs[n..], true, limit) && (n > 0 ==> Stands(r, PopDone(xs[n - 1])))
    decreases n
  {
    hide Next;
    if n > 0 {
      DrainsInOrder(m, xs, limit, n - 1);
      var b := MonitorRun(m, DrainCalls(n - 1));
      var l :| Stands(b, l) && Free(l);
      RunAppend(m, DrainCalls(n - 1), PopCall());
      hide MonitorRun, DrainCalls;
      PopReturnsHead(b, l);
      assert xs[n - 1..][0] == xs[n - 1] && xs[n - 1..][1..] == xs[n..];
    }
  }

  // Fill, close, drain: a closed queue refuses new items, hands out what it holds in the order in
  // which it was stored, one item a call, and then says that it is at its end.
  lemma FillCloseDrain(capacity: nat, xs: seq<nat>, n: nat, x: nat)
    requires |xs| <= Limit(capacity) && n <= |xs|
    ensures var r := MonitorRun(Fresh(Some(capacity), {0}), FillCalls(xs) + CloseCall() + DrainCalls(n));
            && r.queue == xs[n..] && (n > 0 ==> Stands(r, PopDone(xs[n - 1])))
            && Stands(MonitorRun(r, PushCall(x)), PushClosed(x))
            && (n == |xs| ==> Stands(MonitorRun(r, PopCall()), PopEnded))
  {
    hide MonitorRun, FillCalls, DrainCalls, Fresh;
    var m, acts := Fresh(Some(capacity), {0}), FillCalls(xs) + CloseCall();
    ClosedKeepsItems(capacity, xs);
    var b := MonitorRun(m, acts);
    DrainsInOrder(b, xs, Limit(capacity), n);
    RunAppend(m, acts, DrainCalls(n));
    var r := MonitorRun(b, DrainCalls(n));
    var l :| Stands(r, l) && Free(l);
    PushIsRefused(r, l, x);
    if n == |xs| { PopReturnsEnd(r, l); }
  }
}
