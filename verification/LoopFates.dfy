// What becomes of every connection of the event loop, told from the actions of the run: one event
// moves exactly one connection by exactly one call, and a connection goes away before it is done only
// if the kernel refused its registration in that very action.
module LoopFates {
  import opened Basics
  import opened ConnMachine
  import opened ConnInv
  import opened EpochRule
  import opened Kernel
  import opened EventLoop
  import opened LoopInv
  import EventLoopClass

  // ---- one event ------------------------------------------------------------------------------

  // Nothing but the connection at p is touched.
  ghost predicate OthersKept(l: Loop, p: nat, l': Loop) {
    && l'.live - {p} == l.live - {p} && l'.nextId == l.nextId && l'.stories == l.stories
    && l'.pending == l.pending && l'.source == l.source
  }

  ghost predicate StaysAs(l: Loop, p: nat, c: Conn, l': Loop)
    requires p in l.live
  {
    p in l'.live && l'.live[p].conn == c && l'.live[p].id == l.live[p].id && l'.ended == l.ended
  }

  ghost predicate LeavesAs(l: Loop, p: nat, c: Conn, armFailed: bool, l': Loop)
    requires p in l.live
  {
    p !in l'.live && l'.ended == l.ended[l.live[p].id := Ending(c, armFailed)]
  }

  // The connection at p makes its call; it leaves when done, or when its new wish is refused.
  ghost predicate Fate(cfg: Config, l: Loop, p: nat, e: Env, l': Loop)
    requires p in l.live
  {
    var c, c' := l.live[p].conn, Step(cfg, l.live[p].conn, e.a);
    && OthersKept(l, p, l')
    && if c'.state == Done then LeavesAs(l, p, c', false, l')
       else if e.armOk || c'.epoch == c.epoch then StaysAs(l, p, c', l')
       else LeavesAs(l, p, c', true, l')
  }

  lemma ErasedFate(l: Loop, p: nat, w: World, c: Conn, armFailed: bool)
    requires p in l.live
    ensures OthersKept(l, p, Erase(l, p, w, c, armFailed)) && LeavesAs(l, p, c, armFailed, Erase(l, p, w, c, armFailed))
  {
    hide GiveUp;
    assert l.live - {p} - {p} == l.live - {p};
  }

  lemma KeptFate(l: Loop, p: nat, w: World, s: Slot)
    requires p in l.live && s.id == l.live[p].id
    ensures var l' := l.(w := w, live := l.live[p := s]); OthersKept(l, p, l') && StaysAs(l, p, s.conn, l')
  {
    assert l.live[p := s] - {p} == l.live - {p};
  }

  lemma ServiceFate(cfg: Config, l: Loop, p: nat, e: Env)
    requires Quiet(cfg, l) && CanService(cfg, l, p, e)
    ensures Fate(cfg, l, p, e, Service(cfg, l, p, e))
  {
    hide Step, Settled, TagsOk, Mine, Owned, OtherSteps, Erase, AfterCall, Fair, CanAcquire, BeforeOpen, Arm, Disarm,
      OthersKept, StaysAs, LeavesAs, Alive, WorldInv, Holds;
    SettledParts(cfg, l.w, l.live, l.source, p);
    StepWants(cfg, l.live[p].conn, e.a);
    var slot := l.live[p];
    var c' := Step(cfg, slot.conn, e.a);
    var w := AfterCall(cfg, l, p, e);
    if c'.state == Done {
      ErasedFate(l, p, Disarm(w, slot.key), c', false);
    } else if c'.epoch == slot.epoch {
      KeptFate(l, p, w, slot.(conn := c'));
    } else {
      EventLoopClass.NewKeyIsOpen(cfg, l, p, e);
      var u := OtherSteps(Disarm(w, slot.key), Mine(l.live - {p}, l.source) + Owned(c'), e.afterDelete);
      ErasedFate(l, p, u, c', true);
      if e.armOk { KeptFate(l, p, Arm(u, KeyOf(c'), ConnTag(p)), Slot(c', slot.id, KeyOf(c'), c'.epoch)); }
    }
  }

  // The loop when its next event, on the connection at p, has been taken from the batch and noted.
  ghost function Noted(l: Loop, p: nat, a: Answer): (l1: Loop)
    requires l.pending != [] && p in l.live
  {
    var c, id := l.live[p].conn, l.live[p].id;
    var fd := if c.WantDesc().Some? then c.WantDesc().value else Desc(0, 0);
    var b := Beat(fd, c.WantWrite(), a);
    l.(pending := l.pending[1..],
       stories := if id in l.stories then l.stories[id := l.stories[id].(beats := l.stories[id].beats + [b])] else l.stories)
  }

  ghost predicate NextIsFor(l: Loop, p: nat) { l.pending != [] && l.pending[0].reg.tag == ConnTag(p) && p in l.live }

  // One event for a connection: it makes one call, on the descriptor and direction it waits for.
  lemma HandleMovesOne(cfg: Config, source: Desc, xs: seq<Action>, p: nat, e: Env, arrivals: seq<Arrival>)
    requires var l := LoopRun(cfg, source, xs);
             NextIsFor(l, p) && CanService(cfg, l.(pending := l.pending[1..]), p, e)
    ensures var l := LoopRun(cfg, source, xs);
            Fate(cfg, Noted(l, p, e.a), p, e, LoopRun(cfg, source, xs + [Handle(e, arrivals)]))
  {
    hide LoopRun, Fate, LoopOk, Service, CanService;
    var l := LoopRun(cfg, source, xs);
    OneMoreAction(cfg, source, xs, Handle(e, arrivals));
    RunInv(cfg, source, xs);
    HandledFate(cfg, l, p, e, arrivals);
  }

  lemma OneMoreAction(cfg: Config, source: Desc, xs: seq<Action>, x: Action)
    ensures LoopRun(cfg, source, xs + [x]) == Next(cfg, LoopRun(cfg, source, xs), x)
  {
    hide Next;
    assert (xs + [x])[..|xs|] == xs;
  }

  lemma HandledFate(cfg: Config, l: Loop, p: nat, e: Env, arrivals: seq<Arrival>)
    requires LoopOk(cfg, l) && NextIsFor(l, p) && CanService(cfg, l.(pending := l.pending[1..]), p, e)
    ensures Fate(cfg, Noted(l, p, e.a), p, e, HandleNext(cfg, l, e, arrivals))
  {
    hide Settled, TagsOk, StoriesOk, CanService, Service, EventOk, Fate;
    var ev, l1 := l.pending[0], l.(pending := l.pending[1..]);
    assert EventOk(l, ev);
    BeatMatches(cfg, l, ev, e.a);
    var told := l1.(stories := Told(l1, l1.live[p].id, Beat(Desc(ev.key.num, ev.reg.gen), ev.key.write, e.a)));
    SameCall(cfg, l1, told, p, e);
    ServiceFate(cfg, told, p, e);
    assert told == Noted(l, p, e.a);
  }

  // A poll brings the reported registrations as events, in order, and touches nothing else.
  lemma PollBringsEvents(cfg: Config, source: Desc, xs: seq<Action>, keys: seq<Key>)
    requires CanPoll(LoopRun(cfg, source, xs), keys)
    ensures var l, l' := LoopRun(cfg, source, xs), LoopRun(cfg, source, xs + [Poll(keys)]);
            && l' == l.(pending := l'.pending) && |l'.pending| == |keys|
            && forall i :: 0 <= i < |keys| ==> l'.pending[i].key == keys[i] && l'.pending[i].reg == l.w.kq[keys[i]]
  {
    hide LoopRun, CanPoll;
    OneMoreAction(cfg, source, xs, Poll(keys));
  }

  // ---- new connections ------------------------------------------------------------------------

  // The arrival n is connection number `id`: it is live at its address, or was refused at once.
  ghost predicate Arrived(l: Loop, n: Arrival, id: nat) {
    && id in l.stories && l.stories[id] == Story(n.d, [])
    && if n.armOk then n.ptr in l.live && l.live[n.ptr].id == id && l.live[n.ptr].conn == Init(n.d)
       else id in l.ended && l.ended[id] == Ending(Init(n.d), true)
  }

  // Nothing of what was there is lost.
  ghost predicate Grown(l: Loop, l': Loop) {
    && l.nextId <= l'.nextId && l'.pending == l.pending && l'.source == l.source
    && (forall p :: p in l.live ==> p in l'.live && l'.live[p] == l.live[p])
    && (forall id :: id in l.stories && id < l.nextId ==> id in l'.stories && l'.stories[id] == l.stories[id])
    && (forall id :: id in l.ended && id < l.nextId ==> id in l'.ended && l'.ended[id] == l.ended[id])
  }

  lemma AdoptGrows(l: Loop, n: Arrival)
    requires CanAdopt(l, n)
    ensures Grown(l, Adopt(l, n)) && Adopt(l, n).nextId == l.nextId + 1 && Arrived(Adopt(l, n), n, l.nextId)
  {
    hide Open, Close, Arm, Mine, Init;
  }

  lemma ArrivedStays(l: Loop, l': Loop, n: Arrival, id: nat)
    requires Grown(l, l') && Arrived(l, n, id) && id < l.nextId
    ensures Arrived(l', n, id)
  {
    hide Init;
  }

  lemma GrownOn(l: Loop, m: Loop, l': Loop)
    requires Grown(l, m) && Grown(m, l')
    ensures Grown(l, l')
  {
  }

  lemma OthersGrow(l: Loop, os: seq<Other>)
    ensures Grown(l, Others(l, os)) && Others(l, os).nextId == l.nextId
  {
    hide OtherSteps, Mine;
  }

  ghost predicate AllArrived(l: Loop, ns: seq<Arrival>, first: nat) {
    forall i :: 0 <= i < |ns| ==> Arrived(l, ns[i], first + i)
  }

  // Every arrival of an accept or hand-off loop becomes a connection of its own, numbered in order,
  // and the connections that were there stay as they are.
  lemma {:induction false} ArrivalsAreAdopted(l: Loop, ns: seq<Arrival>)
    requires EventLoopClass.Adoptable(l, ns)
    ensures var l' := AdoptAll(l, ns); Grown(l, l') && l'.nextId == l.nextId + |ns| && AllArrived(l', ns, l.nextId)
  {
    hide Grown, AllArrived, Adopt, Others, CanAdopt, EventLoopClass.Adoptable;
    if ns == [] {
      GrownItself(l);
      assert AllArrived(l, ns, l.nextId) by { NoneArrived(l, l.nextId); }
    } else {
      var k := |ns| - 1;
      AdoptablePrefix(l, ns);
      ArrivalsAreAdopted(l, ns[..k]);
      EventLoopClass.AdoptableAt(l, ns, k);
      OneMoreArrived(l, ns, AdoptAll(l, ns[..k]));
    }
  }

  lemma NoneArrived(l: Loop, first: nat)
    ensures AllArrived(l, [], first)
  {
  }

  lemma OneMoreArrived(l: Loop, ns: seq<Arrival>, b: Loop)
    requires ns != [] && Grown(l, b) && b.nextId == l.nextId + |ns| - 1 && AllArrived(b, ns[..|ns| - 1], l.nextId)
    requires CanAdopt(Others(b, ns[|ns| - 1].os), ns[|ns| - 1])
    ensures var l' := Adopt(Others(b, ns[|ns| - 1].os), ns[|ns| - 1]);
            Grown(l, l') && l'.nextId == l.nextId + |ns| && AllArrived(l', ns, l.nextId)
  {
    hide Grown, Arrived, Adopt, Others, CanAdopt;
    var k := |ns| - 1;
    var m := Others(b, ns[k].os);
    var l' := Adopt(m, ns[k]);
    OthersGrow(b, ns[k].os);
    AdoptGrows(m, ns[k]);
    GrownOn(b, m, l');
    GrownOn(l, b, l');
    forall i | 0 <= i < |ns| ensures Arrived(l', ns[i], l.nextId + i) {
      if i < k {
        assert ns[..k][i] == ns[i];
        ArrivedStays(b, l', ns[i], l.nextId + i);
      }
    }
  }

  lemma GrownItself(l: Loop)
    ensures Grown(l, l)
  {
  }

  lemma AdoptablePrefix(l: Loop, ns: seq<Arrival>)
    requires EventLoopClass.Adoptable(l, ns) && ns != []
    ensures EventLoopClass.Adoptable(l, ns[..|ns| - 1])
  {
    hide CanAdopt, AdoptAll, Others;
    var k := |ns| - 1;
    forall i | 0 <= i < k ensures CanAdopt(Others(AdoptAll(l, ns[..k][..i]), ns[..k][i].os), ns[..k][i]) {
      assert ns[..k][..i] == ns[..i];
      EventLoopClass.AdoptableAt(l, ns, i);
    }
  }

  // ---- every run ------------------------------------------------------------------------------

  ghost predicate IsLive(l: Loop, id: nat) { exists p :: p in l.live && l.live[p].id == id }

  // Every connection ever numbered is live or has ended.
  ghost predicate Accounted(l: Loop) {
    forall id :: 0 <= id < l.nextId ==> id in l.stories && (id in l.ended || IsLive(l, id))
  }

  // The ids that this action ends before they are done, because it refuses their registration.
  ghost predicate Refuses(cfg: Config, l: Loop, x: Action, id: nat) {
    x.Handle? && l.pending != [] &&
    var l1 := l.(pending := l.pending[1..]);
    match l.pending[0].reg.tag
    case ConnTag(p) => p in l.live && l.live[p].id == id && !x.e.armOk
    case SourceTag => exists j :: 0 <= j < |x.arrivals| && RefusesArrival(l1, x.arrivals, j, id)
  }

  ghost predicate RefusesArrival(l: Loop, ns: seq<Arrival>, j: nat, id: nat)
    requires j < |ns|
  {
    !ns[j].armOk && AdoptAll(l, ns[..j]).nextId == id
  }

  // What has ended stays ended as it did.
  ghost predicate EndsKept(l: Loop, l': Loop) {
    forall id :: id in l.ended ==> id in l'.ended && l'.ended[id] == l.ended[id]
  }

  lemma AdoptAccounts(cfg: Config, l: Loop, n: Arrival)
    requires StoriesOk(cfg, l) && Accounted(l)
    ensures Accounted(Adopt(l, n)) && EndsKept(l, Adopt(l, n))
    ensures forall id :: id in Adopt(l, n).ended && id !in l.ended ==> !n.armOk && id == l.nextId
  {
    hide Open, Close, Arm, Mine, Init, Plays;
    if CanAdopt(l, n) {
      var l' := Adopt(l, n);
      forall id | 0 <= id < l'.nextId ensures id in l'.stories && (id in l'.ended || IsLive(l', id)) {
        if id == l.nextId {
          if n.armOk { assert l'.live[n.ptr].id == id; }
        } else if id !in l.ended {
          var p :| p in l.live && l.live[p].id == id;
          assert l'.live[p].id == id;
        }
      }
    }
  }

  lemma OthersAccount(l: Loop, os: seq<Other>)
    ensures var l' := Others(l, os); l'.live == l.live && l'.ended == l.ended && l'.stories == l.stories && l'.nextId == l.nextId
  {
    hide OtherSteps, Mine;
  }

  lemma AccountedSame(l: Loop, l': Loop)
    requires l'.live == l.live && l'.ended == l.ended && l'.stories == l.stories && l'.nextId == l.nextId
    ensures Accounted(l) ==> Accounted(l')
    ensures EndsKept(l, l')
  {
    if Accounted(l) {
      forall id | 0 <= id < l'.nextId ensures id in l'.stories && (id in l'.ended || IsLive(l', id)) {
        assert IsLive(l, id) ==> IsLive(l', id);
      }
    }
  }

  lemma {:induction false} AdoptAllAccounts(cfg: Config, l: Loop, ns: seq<Arrival>)
    requires LoopOk(cfg, l) && Accounted(l)
    ensures Accounted(AdoptAll(l, ns)) && EndsKept(l, AdoptAll(l, ns))
    ensures forall id :: id in AdoptAll(l, ns).ended && id !in l.ended ==> exists j :: 0 <= j < |ns| && RefusesArrival(l, ns, j, id)
  {
    hide Accounted, Adopt, Others, Settled, TagsOk, BatchOk, StoriesOk;
    if ns != [] {
      var k := |ns| - 1;
      AdoptAllAccounts(cfg, l, ns[..k]);
      AdoptAllInv(cfg, l, ns[..k]);
      var b := AdoptAll(l, ns[..k]);
      var m := Others(b, ns[k].os);
      OthersInv(cfg, b, ns[k].os);
      OthersAccount(b, ns[k].os);
      AccountedSame(b, m);
      AdoptAccounts(cfg, m, ns[k]);
      forall id | id in Adopt(m, ns[k]).ended && id !in l.ended ensures exists j :: 0 <= j < |ns| && RefusesArrival(l, ns, j, id) {
        if id in b.ended {
          var j :| 0 <= j < k && RefusesArrival(l, ns[..k], j, id);
          assert ns[..k][..j] == ns[..j];
          assert RefusesArrival(l, ns, j, id);
        } else {
          assert RefusesArrival(l, ns, k, id);
        }
      }
    }
  }

  lemma FateAccounts(cfg: Config, l: Loop, p: nat, e: Env, l': Loop)
    requires p in l.live && Fate(cfg, l, p, e, l') && Accounted(l) && l.live[p].id !in l.ended
    ensures Accounted(l') && EndsKept(l, l')
    ensures forall id :: id in l'.ended && id !in l.ended ==> id == l.live[p].id && (l'.ended[id].conn.state == Done || !e.armOk)
  {
    hide Step;
    forall id | 0 <= id < l'.nextId ensures id in l'.stories && (id in l'.ended || IsLive(l', id)) {
      if id !in l.ended {
        var q :| q in l.live && l.live[q].id == id;
        if q != p { Survives(l.live, l'.live, p, q); }
        assert q in l'.live ==> l'.live[q].id == id;
      }
    }
  }

  lemma NotedAccounts(l: Loop, p: nat, a: Answer)
    requires l.pending != [] && p in l.live && Accounted(l)
    ensures var n := Noted(l, p, a); Accounted(n) && n.live == l.live && n.ended == l.ended
  {
    var n := Noted(l, p, a);
    forall id | 0 <= id < n.nextId ensures id in n.stories && (id in n.ended || IsLive(n, id)) {
      assert IsLive(l, id) ==> IsLive(n, id);
    }
  }

  lemma LiveNotEnded(cfg: Config, l: Loop, p: nat)
    requires LoopOk(cfg, l) && p in l.live
    ensures l.live[p].id !in l.ended
  {
    hide Settled, TagsOk, BatchOk, Plays;
  }

  // What an action ends early, it refused.
  ghost predicate EndsAreRefused(cfg: Config, l: Loop, x: Action, l': Loop) {
    forall id :: id in l'.ended && id !in l.ended ==> l'.ended[id].conn.state == Done || Refuses(cfg, l, x, id)
  }

  lemma HandleAccounts(cfg: Config, l: Loop, e: Env, arrivals: seq<Arrival>)
    requires LoopOk(cfg, l) && Accounted(l) && l.pending != []
    ensures var l' := HandleNext(cfg, l, e, arrivals);
            Accounted(l') && EndsKept(l, l') && EndsAreRefused(cfg, l, Handle(e, arrivals), l')
  {
    hide LoopOk, CanService, Service, AdoptAll, Accounted, Fate, RefusesArrival;
    var l1 := l.(pending := l.pending[1..]);
    LaterEventsInv(cfg, l);
    AccountedSame(l, l1);
    match l.pending[0].reg.tag
    case SourceTag => AdoptAllAccounts(cfg, l1, arrivals);
    case ConnTag(p) =>
      if p in l1.live && CanService(cfg, l1, p, e) {
        HandledFate(cfg, l, p, e, arrivals);
        NotedAccounts(l, p, e.a);
        LiveNotEnded(cfg, l, p);
        FateAccounts(cfg, Noted(l, p, e.a), p, e, HandleNext(cfg, l, e, arrivals));
      }
  }

  lemma NextAccounts(cfg: Config, l: Loop, x: Action)
    requires LoopOk(cfg, l) && Accounted(l)
    ensures var l' := Next(cfg, l, x); Accounted(l') && EndsKept(l, l') && EndsAreRefused(cfg, l, x, l')
  {
    hide LoopOk, HandleNext, Others, CanPoll, Reported, Accounted, Refuses;
    match x
    case Poll(keys) => AccountedSame(l, Next(cfg, l, x));
    case Elsewhere(os) => OthersAccount(l, os); AccountedSame(l, Others(l, os));
    case Handle(e, arrivals) => if l.pending != [] { HandleAccounts(cfg, l, e, arrivals); }
  }

  ghost predicate RefusedAt(cfg: Config, source: Desc, xs: seq<Action>, i: nat, id: nat)
    requires i < |xs|
  {
    Refuses(cfg, LoopRun(cfg, source, xs[..i]), xs[i], id)
  }

  // What ended early was refused in some action of the run.
  ghost predicate EarlyEndsRefused(cfg: Config, source: Desc, xs: seq<Action>, l: Loop) {
    forall id :: id in l.ended ==>
      l.ended[id].conn.state == Done || exists i :: 0 <= i < |xs| && RefusedAt(cfg, source, xs, i, id)
  }

  lemma OneMoreRefused(cfg: Config, source: Desc, xs: seq<Action>, b: Loop, l: Loop)
    requires xs != [] && EarlyEndsRefused(cfg, source, xs[..|xs| - 1], b) && EndsKept(b, l)
    requires b == LoopRun(cfg, source, xs[..|xs| - 1]) && EndsAreRefused(cfg, b, xs[|xs| - 1], l)
    ensures EarlyEndsRefused(cfg, source, xs, l)
  {
    hide LoopRun, Refuses;
    var k := |xs| - 1;
    forall id | id in l.ended && l.ended[id].conn.state != Done
      ensures exists i :: 0 <= i < |xs| && RefusedAt(cfg, source, xs, i, id)
    {
      if id in b.ended {
        var i :| 0 <= i < k && RefusedAt(cfg, source, xs[..k], i, id);
        assert xs[..k][..i] == xs[..i];
        assert RefusedAt(cfg, source, xs, i, id);
      } else {
        assert RefusedAt(cfg, source, xs, k, id);
      }
    }
  }

  // In every run: each connection ever accepted is live or has ended, and one that ended before it
  // was done was refused its registration by an action that served or adopted it.
  lemma {:induction false} EveryConnectionIsAccountedFor(cfg: Config, source: Desc, xs: seq<Action>)
    ensures var l := LoopRun(cfg, source, xs); Accounted(l) && EarlyEndsRefused(cfg, source, xs, l)
  {
    hide Next, Accounted, EarlyEndsRefused, EndsKept, EndsAreRefused, Begin;
    if xs == [] {
      BeginAccounted(source);
      NothingEnded(cfg, source, Begin(source));
    } else {
      var b := LoopRun(cfg, source, xs[..|xs| - 1]);
      EveryConnectionIsAccountedFor(cfg, source, xs[..|xs| - 1]);
      RunInv(cfg, source, xs[..|xs| - 1]);
      NextAccounts(cfg, b, xs[|xs| - 1]);
      OneMoreRefused(cfg, source, xs, b, LoopRun(cfg, source, xs));
    }
  }

  lemma NothingEnded(cfg: Config, source: Desc, l: Loop)
    requires l.ended == map[]
    ensures EarlyEndsRefused(cfg, source, [], l)
  {
  }

  lemma BeginAccounted(source: Desc)
    ensures Accounted(Begin(source)) && Begin(source).ended == map[]
  {
  }

  // The kernel accepts every registration of this run.
  ghost predicate AllArmed(xs: seq<Action>) {
    forall i :: 0 <= i < |xs| && xs[i].Handle? ==> xs[i].e.armOk && forall j :: 0 <= j < |xs[i].arrivals| ==> xs[i].arrivals[j].armOk
  }

  // Then no connection is dropped: each is live, or went all the way to Done.
  lemma NoneIsDropped(cfg: Config, source: Desc, xs: seq<Action>, id: nat)
    requires AllArmed(xs) && id < LoopRun(cfg, source, xs).nextId
    ensures var l := LoopRun(cfg, source, xs);
            id in l.stories && if id in l.ended then l.ended[id].conn.state == Done else IsLive(l, id)
  {
    hide LoopRun, AdoptAll;
    EveryConnectionIsAccountedFor(cfg, source, xs);
    assert forall i :: 0 <= i < |xs| ==> !RefusedAt(cfg, source, xs, i, id);
  }
}
