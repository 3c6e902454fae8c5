// The event loop's promises, read off the invariant, and the loop itself as a class.
module LoopTheorems {
  import opened Basics
  import opened ConnMachine
  import opened ConnInv
  import opened EpochRule
  import opened Kernel
  import opened EventLoop
  import opened LoopInv

  // The connection at p has one registration and no other: under its wanted number and direction,
  // for the opening of that number that is open now, tagged with p.
  ghost predicate OneRegistration(l: Loop, p: nat) {
    p in l.live ==>
      var c := l.live[p].conn;
      && c.WantDesc().Some? && IsOpen(l.w, c.WantDesc().value)
      && (forall k :: k in l.w.kq && l.w.kq[k].tag == ConnTag(p) ==> k == KeyOf(c))
      && KeyOf(c) in l.w.kq && l.w.kq[KeyOf(c)] == Reg(c.WantDesc().value.gen, ConnTag(p))
  }

  lemma ExactlyOneRegistration(cfg: Config, source: Desc, xs: seq<Action>, p: nat)
    ensures OneRegistration(LoopRun(cfg, source, xs), p)
  {
    hide LoopRun, Inv, Apart, StoriesOk, BatchOk;
    RunInv(cfg, source, xs);
    var l := LoopRun(cfg, source, xs);
    if p in l.live { WantIsOwned(l.live[p].conn); }
  }

  // Every event still to be handled in a batch finds its connection live, the very one it was
  // reported for although addresses are reused, with the registration that produced it in place.
  ghost predicate EventFindsItsConnection(l: Loop, i: nat) {
    i < |l.pending| && l.pending[i].reg.tag.ConnTag? ==>
      var e := l.pending[i];
      var p := e.reg.tag.ptr;
      && p in l.live && l.live[p].id == e.id
      && e.key in l.w.kq && l.w.kq[e.key] == e.reg
      && l.live[p].conn.WantDesc() == Some(Desc(e.key.num, e.reg.gen)) && l.live[p].conn.WantWrite() == e.key.write
  }

  lemma BatchEventsFindTheirConnections(cfg: Config, source: Desc, xs: seq<Action>, i: nat)
    ensures EventFindsItsConnection(LoopRun(cfg, source, xs), i)
  {
    hide LoopRun, Inv, StoriesOk, Settled, TagsOk, EventOk;
    RunInv(cfg, source, xs);
    var l := LoopRun(cfg, source, xs);
    if i < |l.pending| && l.pending[i].reg.tag.ConnTag? {
      assert EventOk(l, l.pending[i]);
      EventParts(l, l.pending[i]);
      BeatMatches(cfg, l, l.pending[i], AnyAnswer());
    }
  }

  lemma EventParts(l: Loop, e: Event)
    requires EventOk(l, e)
    ensures e.key in l.w.kq && l.w.kq[e.key] == e.reg
    ensures e.reg.tag.ConnTag? ==> e.reg.tag.ptr in l.live && l.live[e.reg.tag.ptr].id == e.id
  {
  }

  function AnyAnswer(): (a: Answer) {
    Answer(ReadBlocked, WriteBlocked, None, LookupFailed, JobNotReady, false, [])
  }

  // Projected onto any one connection, a run of the event loop is a run of the blocking serve loop
  // alone with that connection: the same calls, each on the descriptor and direction that loop would
  // poll.  A connection is dropped early only if the kernel refuses its registration.
  ghost predicate IsBlockingRun(cfg: Config, l: Loop) {
    && (forall p :: p in l.live ==> l.live[p].id in l.stories && Plays(cfg, l.stories[l.live[p].id], l.live[p].conn))
    && (forall id :: id in l.ended ==> id in l.stories && Plays(cfg, l.stories[id], l.ended[id].conn)
                                       && (l.ended[id].armFailed || l.ended[id].conn.state == Done))
  }

  lemma ProjectionIsBlockingRun(cfg: Config, source: Desc, xs: seq<Action>)
    ensures IsBlockingRun(cfg, LoopRun(cfg, source, xs))
  {
    hide LoopRun, Settled, TagsOk, BatchOk, Plays;
    RunInv(cfg, source, xs);
  }

  // Why the epoch is compared and not (number, direction): when trying the next address opens a
  // socket under the number just closed, the pair is the same as before and yet nothing is
  // registered under it any more.
  lemma ReusedNumberHasNoRegistration(cfg: Config, l: Loop, p: nat, e: Env)
    requires Quiet(cfg, l) && CanService(cfg, l, p, e)
    requires var c, c' := l.live[p].conn, Step(cfg, l.live[p].conn, e.a);
             && c'.want == c.want == WriteUpstream && c.upstream.Some? && c'.upstream.Some?
             && c'.upstream != c.upstream && c'.upstream.value.num == c.upstream.value.num
    ensures KeyOf(Step(cfg, l.live[p].conn, e.a)) == l.live[p].key
    ensures l.live[p].key !in AfterCall(cfg, l, p, e).kq
    ensures Step(cfg, l.live[p].conn, e.a).epoch != l.live[p].epoch
  {
    hide Step, Inv, TagsOk, Settled, AfterCall, CanAcquire, BeforeOpen, Mine, Fair;
    var c, c' := l.live[p].conn, Step(cfg, l.live[p].conn, e.a);
    SettledParts(cfg, l.w, l.live, l.source, p);
    CallSettles(cfg, l, p, e);
    EpochRuleHolds(cfg, c, e.a);
    var v := AfterCall(cfg, l, p, e);
    OldRegistration(cfg, l, p, Mine(l.live - {p}, l.source) + Owned(c) * Owned(c'), v);
    SettledWorld(cfg, v, l.live - {p}, l.source);
    assert c'.upstream.value in Owned(c');
  }
}

// EventLoop of src/backend/event_loop.cpp as an object: live_ is a field that the methods update; the
// kernel is the ghost field `w`, which the calls of the loop and of other threads change.
module EventLoopClass {
  import opened Basics
  import opened ConnMachine
  import opened Kernel
  import E = EventLoop
  import opened EventLoop
  import opened LoopInv

  class EventLoopImpl {
    const cfg: Config
    const source: Desc
    var live: map<nat, Slot>
    var nextId: nat
    ghost var w: World
    ghost var pending: seq<Event>
    ghost var stories: map<nat, Story>
    ghost var ended: map<nat, Ending>

    ghost function Value(): (l: Loop)
      reads this
    {
      Loop(w, live, source, nextId, pending, stories, ended)
    }

    // run() up to the loop: the listener or hand-off pipe is armed.
    constructor (cfg: Config, source: Desc)
      ensures Value() == Begin(source) && LoopOk(cfg, Value()) && this.cfg == cfg
    {
      this.cfg, this.source := cfg, source;
      live, nextId := map[], 0;
      w, pending, stories, ended := Begin(source).w, [], map[], map[];
      new;
      BeginInv(cfg, source);
    }

    // disarm(): the result of kevent is ignored.
    method Delete(key: Key)
      modifies this`w
      ensures w == Disarm(old(w), key)
    {
      w := Disarm(w, key);
    }

    // arm(): the kernel may refuse.
    method Add(key: Key, tag: Tag, accepted: bool) returns (ok: bool)
      requires key.num in w.open
      modifies this`w
      ensures ok == accepted
      ensures w == if ok then Arm(old(w), key, tag) else old(w)
    {
      if accepted { w := Arm(w, key, tag); }
      return accepted;
    }

    // live_.erase(): the unique_ptr destroys the Connection, whose Fds close.
    method Remove(p: nat, c: Conn, ghost armFailed: bool)
      requires p in live
      modifies this`live, this`w, this`ended
      ensures Value() == Erase(old(Value()), p, old(w), c, armFailed)
    {
      ended := ended[live[p].id := Ending(c, armFailed)];
      w := GiveUp(w, c, {});
      live := live - {p};
    }

    // service(), for a connection that is live.
    method Service(p: nat, e: Env)
      requires Quiet(cfg, Value()) && CanService(cfg, Value(), p, e)
      modifies this`live, this`w, this`ended
      ensures Value() == E.Service(cfg, old(Value()), p, e)
      ensures Quiet(cfg, Value())
    {
      hide Step, AfterCall, OtherSteps, Mine, Arm, Disarm, Erase, Settled, TagsOk, BeforeOpen, CanAcquire, Fair, Owned;
      ServiceQuiet(cfg, Value(), p, e);
      ghost var was := Value();
      var slot := live[p];
      var c := Step(cfg, slot.conn, e.a);  // conn->on_ready()
      w := AfterCall(cfg, was, p, e);
      if c.state == Done || c.WantDesc().None? {
        Delete(slot.key);
        EraseSetsWorld(was, Value(), p, w, c, false);
        Remove(p, c, false);
        return;
      }
      if c.epoch != slot.epoch {
        Delete(slot.key);
        w := OtherSteps(w, Mine(was.live - {p}, source) + Owned(c), e.afterDelete);
        NewKeyIsOpen(cfg, was, p, e);
        var ok := Add(KeyOf(c), ConnTag(p), e.armOk);
        if !ok {
          EraseSetsWorld(was, Value(), p, w, c, true);
          Remove(p, c, true);
          return;
        }
        live := live[p := Slot(c, slot.id, KeyOf(c), c.epoch)];
      } else {
        live := live[p := slot.(conn := c)];
      }
    }

    // One turn of do_accept() or take_from_inbox(): a new Connection is armed and goes live, or is
    // destroyed if the kernel refuses.
    method AdoptOne(n: Arrival)
      requires CanAdopt(Value(), n)
      modifies this
      ensures Value() == Adopt(old(Value()), n)
    {
      hide Mine, Close;
      if !n.handed { w := Open(w, n.d); }
      var c := Init(n.d);
      var id := nextId;
      nextId := nextId + 1;
      stories := stories[id := Story(n.d, [])];
      var ok := Add(KeyOf(c), ConnTag(n.ptr), n.armOk);
      if !ok {
        w := Close(w, n.d);
        ended := ended[id := Ending(c, true)];
        return;
      }
      live := live[n.ptr := Slot(c, id, KeyOf(c), 0)];
    }

    // The accept and hand-off loops: until the source has nothing left.
    method AdoptEach(ns: seq<Arrival>)
      requires Adoptable(Value(), ns)
      modifies this
      ensures Value() == AdoptAll(old(Value()), ns)
    {
      hide Adopt, Others, CanAdopt;
      var i := 0;
      while i < |ns|
        invariant 0 <= i <= |ns|
        invariant Value() == AdoptAll(old(Value()), ns[..i])
      {
        AdoptableAt(old(Value()), ns, i);
        assert ns[..i + 1][..i] == ns[..i];
        w := Others(Value(), ns[i].os).w;
        OthersOnlyWorld(AdoptAll(old(Value()), ns[..i]), ns[i].os);
        AdoptOne(ns[i]);
        i := i + 1;
      }
      assert ns[..i] == ns;
    }
  }

  lemma EraseSetsWorld(l: Loop, l': Loop, p: nat, w: World, c: Conn, armFailed: bool)
    requires p in l.live && l' == l.(w := l'.w)
    ensures Erase(l', p, w, c, armFailed) == Erase(l, p, w, c, armFailed)
  {
  }

  // Each arrival can happen when its turn comes.
  ghost predicate Adoptable(l: Loop, ns: seq<Arrival>) {
    forall i :: 0 <= i < |ns| ==> CanAdopt(Others(AdoptAll(l, ns[..i]), ns[i].os), ns[i])
  }

  lemma AdoptableAt(l: Loop, ns: seq<Arrival>, i: nat)
    requires Adoptable(l, ns) && i < |ns|
    ensures CanAdopt(Others(AdoptAll(l, ns[..i]), ns[i].os), ns[i])
  {
  }

  lemma OthersOnlyWorld(l: Loop, os: seq<Other>)
    ensures Others(l, os) == l.(w := Others(l, os).w)
  {
  }

  // When the loop re-arms, the wanted descriptor is open.
  lemma NewKeyIsOpen(cfg: Config, l: Loop, p: nat, e: Env)
    requires Quiet(cfg, l) && CanService(cfg, l, p, e)
    requires Step(cfg, l.live[p].conn, e.a).WantDesc().Some?
    ensures var c := Step(cfg, l.live[p].conn, e.a);
            KeyOf(c).num in OtherSteps(Disarm(AfterCall(cfg, l, p, e), l.live[p].key),
                                       Mine(l.live - {p}, l.source) + Owned(c), e.afterDelete).open
  {
    hide Step, AfterCall, OtherSteps, Mine, Settled, TagsOk, Drift, WorldInv, BeforeOpen, CanAcquire, Fair;
    var c := Step(cfg, l.live[p].conn, e.a);
    CallSettles(cfg, l, p, e);
    var v, keep := AfterCall(cfg, l, p, e), Mine(l.live - {p}, l.source) + Owned(c);
    SettledWorld(cfg, v, l.live - {p}, l.source);
    var u := Disarm(v, l.live[p].key);
    DisarmWorld(v, l.live[p].key);
    DisarmHolds(v, l.live[p].key, c);
    OthersDrift(u, keep, e.afterDelete);
    HoldsDrifts(u, keep, OtherSteps(u, keep, e.afterDelete), c);
    WantIsOwned(c);
  }

  lemma DisarmWorld(w: World, key: Key)
    requires WorldInv(w)
    ensures WorldInv(Disarm(w, key))
  {
  }
}
