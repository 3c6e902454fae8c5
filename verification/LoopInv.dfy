// What holds of the event loop in every reachable state, for any reuse of descriptor numbers and any
// interleaving with other threads.
module LoopInv {
  import opened Basics
  import opened ConnMachine
  import opened ConnInv
  import opened ConnRuns
  import opened EpochRule
  import opened Kernel
  import opened EventLoop

  // ---- the invariant --------------------------------------------------------------------------

  // c's three descriptors are different.
  ghost predicate Separate(c: Conn) {
    && (c.client.Some? ==> c.client != c.upstream && c.client != c.job)
    && (c.upstream.Some? ==> c.upstream != c.job)
  }

  // c's descriptors are open, and a resolver shares at most its job's.
  ghost predicate Holds(w: World, c: Conn) {
    && Separate(c)
    && (forall d :: d in Owned(c) ==> IsOpen(w, d) && (d in w.held ==> c.job == Some(d)))
  }

  // The one registration of the connection at p names its wanted descriptor, in its current opening,
  // and its wanted direction, and carries p.
  ghost predicate Registered(w: World, p: nat, s: Slot) {
    && s.epoch == s.conn.epoch
    && s.conn.WantDesc().Some? && s.key == KeyOf(s.conn)
    && s.key in w.kq && w.kq[s.key] == Reg(s.conn.WantDesc().value.gen, ConnTag(p))
  }

  ghost predicate SourceArmed(w: World, source: Desc) {
    && IsOpen(w, source) && source !in w.held
    && Key(source.num, false) in w.kq && w.kq[Key(source.num, false)] == Reg(source.gen, SourceTag)
  }

  ghost predicate Alive(cfg: Config, c: Conn) { Inv(cfg, c) && c.state != Done }

  ghost predicate SlotsOk(cfg: Config, w: World, live: map<nat, Slot>) {
    forall p :: p in live ==> Alive(cfg, live[p].conn) && Holds(w, live[p].conn) && Registered(w, p, live[p])
  }

  // No descriptor belongs to two connections or to the loop and a connection.
  ghost predicate Apart(live: map<nat, Slot>, source: Desc) {
    && (forall p :: p in live ==> source !in Owned(live[p].conn))
    && (forall p, q :: p in live && q in live && p != q ==> Owned(live[p].conn) !! Owned(live[q].conn))
  }

  ghost predicate Settled(cfg: Config, w: World, live: map<nat, Slot>, source: Desc) {
    WorldInv(w) && SourceArmed(w, source) && SlotsOk(cfg, w, live) && Apart(live, source)
  }

  // Every registration is the source's or the one of a live connection.
  ghost predicate TagsOk(w: World, live: map<nat, Slot>, source: Desc) {
    forall k :: k in w.kq ==>
      match w.kq[k].tag
      case SourceTag => k == Key(source.num, false)
      case ConnTag(p) => p in live && k == live[p].key
  }

  // Except that the connection at p may still have one under `key`.
  ghost predicate TagsOkBut(w: World, live: map<nat, Slot>, source: Desc, p: nat, key: Key) {
    forall k :: k in w.kq ==>
      match w.kq[k].tag
      case SourceTag => k == Key(source.num, false)
      case ConnTag(q) => (q == p && k == key) || (q in live && k == live[q].key)
  }

  // The registration an unhandled event came from is still there, for the same connection.
  ghost predicate EventOk(l: Loop, e: Event) {
    && e.key in l.w.kq && l.w.kq[e.key] == e.reg
    && match e.reg.tag
       case SourceTag => e.key == Key(l.source.num, false)
       case ConnTag(p) => p in l.live && l.live[p].key == e.key && l.live[p].id == e.id
  }

  ghost predicate BatchOk(l: Loop) {
    && (forall i :: 0 <= i < |l.pending| ==> EventOk(l, l.pending[i]))
    && (forall i, j :: 0 <= i < j < |l.pending| ==> l.pending[i].key != l.pending[j].key)
  }

  // Ids are unique, and every connection's history is a run of the blocking serve loop.
  ghost predicate StoriesOk(cfg: Config, l: Loop) {
    && (forall p :: p in l.live ==> l.live[p].id in l.stories && Plays(cfg, l.stories[l.live[p].id], l.live[p].conn))
    && (forall p, q :: p in l.live && q in l.live && p != q ==> l.live[p].id != l.live[q].id)
    && (forall id :: id in l.stories ==> id < l.nextId)
    && (forall id :: id in l.ended ==> id in l.stories && Plays(cfg, l.stories[id], l.ended[id].conn)
                                       && (l.ended[id].armFailed || l.ended[id].conn.state == Done))
    && (forall p :: p in l.live ==> l.live[p].id !in l.ended)
  }

  ghost predicate LoopOk(cfg: Config, l: Loop) {
    && Settled(cfg, l.w, l.live, l.source)
    && TagsOk(l.w, l.live, l.source)
    && BatchOk(l)
    && StoriesOk(cfg, l)
  }

  // ---- drifting -------------------------------------------------------------------------------

  lemma MineHas(live: map<nat, Slot>, source: Desc, p: nat)
    requires p in live
    ensures Owned(live[p].conn) <= Mine(live, source) && source in Mine(live, source)
  {
  }

  lemma WantIsOwned(c: Conn)
    requires c.WantDesc().Some?
    ensures c.WantDesc().value in Owned(c)
  {
  }

  lemma HoldsDrifts(w: World, keep: set<Desc>, v: World, c: Conn)
    requires WorldInv(w) && Drift(w, keep, v) && Holds(w, c) && Owned(c) <= keep
    ensures Holds(v, c)
  {
    forall d | d in Owned(c) ensures IsOpen(v, d) && (d in v.held ==> c.job == Some(d)) {
      assert IsOpen(w, d);
    }
  }

  lemma RegisteredDrifts(w: World, keep: set<Desc>, v: World, p: nat, s: Slot)
    requires WorldInv(w) && Drift(w, keep, v) && Registered(w, p, s) && Holds(w, s.conn) && Owned(s.conn) <= keep
    ensures Registered(v, p, s)
  {
    WantIsOwned(s.conn);
    var d := s.conn.WantDesc().value;
    assert IsOpen(v, d);
    assert Desc(s.key.num, w.kq[s.key].gen) == d;
  }

  // Whatever happens outside the loop's own descriptors, its connections stay settled.
  lemma SettledDrifts(cfg: Config, w: World, keep: set<Desc>, v: World, live: map<nat, Slot>, source: Desc)
    requires Settled(cfg, w, live, source) && Drift(w, keep, v) && Mine(live, source) <= keep
    ensures Settled(cfg, v, live, source)
  {
    hide Drift, Holds, Registered, Alive, Mine, WorldInv;
    DriftGivesInv(w, keep, v);
    SourceDrifts(w, keep, v, live, source);
    forall p | p in live ensures Alive(cfg, live[p].conn) && Holds(v, live[p].conn) && Registered(v, p, live[p]) {
      MineHas(live, source, p);
      HoldsDrifts(w, keep, v, live[p].conn);
      RegisteredDrifts(w, keep, v, p, live[p]);
    }
  }

  lemma SourceDrifts(w: World, keep: set<Desc>, v: World, live: map<nat, Slot>, source: Desc)
    requires WorldInv(w) && SourceArmed(w, source) && Drift(w, keep, v) && Mine(live, source) <= keep
    ensures SourceArmed(v, source)
  {
    assert source in keep;
    assert Desc(source.num, source.gen) == source;
  }

  lemma TagsDrift(w: World, keep: set<Desc>, v: World, live: map<nat, Slot>, source: Desc, p: nat, key: Key)
    requires Drift(w, keep, v)
    ensures TagsOk(w, live, source) ==> TagsOk(v, live, source)
    ensures TagsOkBut(w, live, source, p, key) ==> TagsOkBut(v, live, source, p, key)
  {
  }

  lemma OthersInv(cfg: Config, l: Loop, os: seq<Other>)
    requires LoopOk(cfg, l)
    ensures LoopOk(cfg, Others(l, os))
  {
    hide Drift, SlotsOk, Mine, OtherSteps, WorldInv, TagsOk, StoriesOk;
    var v := OtherSteps(l.w, Mine(l.live, l.source), os);
    OthersDrift(l.w, Mine(l.live, l.source), os);
    SettledDrifts(cfg, l.w, Mine(l.live, l.source), v, l.live, l.source);
    TagsDrift(l.w, Mine(l.live, l.source), v, l.live, l.source, 0, Key(0, false));
    BatchDrifts(cfg, l, Others(l, os));
    StoriesSame(cfg, l, Others(l, os));
  }

  // The batch only needs the loop to be settled before and after, with the connections it names in
  // place.
  lemma BatchDrifts(cfg: Config, l: Loop, l': Loop)
    requires Settled(cfg, l.w, l.live, l.source) && Settled(cfg, l'.w, l'.live, l'.source)
    requires BatchOk(l) && l'.pending == l.pending && l'.source == l.source
    requires forall i :: 0 <= i < |l.pending| && l.pending[i].reg.tag.ConnTag? ==>
               var p := l.pending[i].reg.tag.ptr; p in l.live && p in l'.live && l'.live[p] == l.live[p]
    ensures BatchOk(l')
  {
    hide WorldInv, Alive, Holds, Apart;
    forall i | 0 <= i < |l.pending| ensures EventOk(l', l.pending[i]) {
      assert EventOk(l, l.pending[i]);
    }
  }

  lemma StoriesSame(cfg: Config, l: Loop, l': Loop)
    requires StoriesOk(cfg, l) && l'.live == l.live && l'.stories == l.stories && l'.ended == l.ended && l'.nextId == l.nextId
    ensures StoriesOk(cfg, l')
  {
    hide Plays;
  }

  // ---- one service: descriptors ---------------------------------------------------------------

  lemma WithoutOne(cfg: Config, w: World, live: map<nat, Slot>, source: Desc, p: nat)
    requires Settled(cfg, w, live, source) && p in live
    ensures Settled(cfg, w, live - {p}, source)
    ensures Owned(live[p].conn) !! Mine(live - {p}, source)
  {
    hide WorldInv, Alive, Holds, Registered, Owned;
  }

  lemma WithOne(cfg: Config, w: World, rest: map<nat, Slot>, source: Desc, p: nat, s: Slot)
    requires Settled(cfg, w, rest, source) && p !in rest
    requires Alive(cfg, s.conn) && Holds(w, s.conn) && Registered(w, p, s) && Owned(s.conn) !! Mine(rest, source)
    ensures Settled(cfg, w, rest[p := s], source)
  {
    hide WorldInv, Alive, Holds, Registered, Owned, Mine;
    assert source !in Owned(s.conn) by { SourceIsMine(rest, source); }
    forall q | q in rest ensures Owned(rest[q].conn) !! Owned(s.conn) {
      MineHas(rest, source, q);
    }
  }

  lemma SourceIsMine(live: map<nat, Slot>, source: Desc)
    ensures source in Mine(live, source)
  {
  }

  lemma DropDrifts(w: World, d: Option<Desc>, kept: set<Desc>, keep: set<Desc>)
    requires WorldInv(w) && (d.Some? && d.value !in kept ==> d.value !in keep)
    ensures Drift(w, keep, Drop(w, d, kept))
  {
    hide Drift, Close;
    DriftReflexive(w, keep);
    if d.Some? && d.value !in kept && d.value !in w.held { CloseDrifts(w, keep, d.value); }
  }

  lemma GiveUpDrifts(w: World, c: Conn, kept: set<Desc>, keep: set<Desc>)
    requires WorldInv(w) && (forall d :: d in Owned(c) && d !in kept ==> d !in keep)
    ensures Drift(w, keep, GiveUp(w, c, kept))
  {
    hide Drift, Drop, WorldInv;
    var w1 := Drop(w, c.upstream, kept);
    var w2 := Drop(w1, c.job, kept);
    DropDrifts(w, c.upstream, kept, keep);
    DriftGivesInv(w, keep, w1);
    DropDrifts(w1, c.job, kept, keep);
    DriftGivesInv(w1, keep, w2);
    DropDrifts(w2, c.client, kept, keep);
    DriftTransitive(w, keep, w1, w2);
    DriftTransitive(w, keep, w2, GiveUp(w, c, kept));
  }

  lemma AcquireDrifts(w: World, c: Conn, c': Conn, keep: set<Desc>)
    requires WorldInv(w) && CanAcquire(w, c, c')
    ensures Drift(w, keep, Acquire(w, c, c'))
  {
    hide Drift, Open, Hold;
    DriftReflexive(w, keep);
    if NewDesc(c, c').Some? {
      OpenDrifts(w, keep, NewDesc(c, c').value);
      HoldDrifts(w, keep, NewDesc(c, c').value);
    }
  }

  // c and c' share what both own; c' has at most one descriptor more, and it is new.
  ghost predicate Successor(c: Conn, c': Conn) {
    && (c'.client == c.client || c'.client.None?)
    && (c'.job.Some? ==> c'.upstream.None?)
  }

  lemma StepIsSuccessor(cfg: Config, c: Conn, a: Answer)
    requires Alive(cfg, c) && Fair(cfg, c, a)
    ensures Inv(cfg, Step(cfg, c, a)) && Successor(c, Step(cfg, c, a)) && Rule(c, Step(cfg, c, a))
  {
    hide Step, Asked, Waiting, Tapped, SentPrefix, GaveUpHonestly, HitHonestly;
    StepInv(cfg, c, a);
    EpochRuleHolds(cfg, c, a);
  }

  lemma AcquireHolds(w0: World, keep: set<Desc>, w: World, c: Conn, c': Conn)
    requires WorldInv(w0) && Holds(w0, c) && Drift(w0, keep, w) && Owned(c) * Owned(c') <= keep
    requires Successor(c, c') && CanAcquire(w, c, c')
    ensures Holds(Acquire(w, c, c'), c')
  {
    var v := Acquire(w, c, c');
    AcquireDrifts(w, c, c', keep);
    DriftTransitive(w0, keep, w, v);
    forall d | d in Owned(c') ensures IsOpen(v, d) && (d in v.held ==> c'.job == Some(d)) {
      if d in Owned(c) { assert d in keep && IsOpen(w0, d); }
    }
  }

  // A descriptor opened during the call belongs to nobody else in the loop.
  lemma AcquireApart(cfg: Config, w0: World, keep: set<Desc>, w: World, rest: map<nat, Slot>, source: Desc, c: Conn, c': Conn)
    requires Settled(cfg, w0, rest, source) && Drift(w0, keep, w) && Owned(c) !! Mine(rest, source)
    requires Successor(c, c') && CanAcquire(w, c, c')
    ensures Owned(c') !! Mine(rest, source)
  {
    hide Alive, Registered;
    forall d | d in Owned(c') ensures d !in Mine(rest, source) {
      if d !in Owned(c) {
        assert d.gen >= w0.nextGen;
        assert !IsOpen(w0, d);
      }
    }
  }

  // ---- one service: registrations -------------------------------------------------------------

  // After the call the old registration is there exactly if its descriptor is still open, and it is
  // still the connection's own: deleting it by number and filter cannot hit anybody else's.
  lemma OldRegistration(cfg: Config, l: Loop, p: nat, keep: set<Desc>, v: World)
    requires Settled(cfg, l.w, l.live, l.source) && TagsOk(l.w, l.live, l.source) && p in l.live && Drift(l.w, keep, v)
    ensures var s := l.live[p];
            s.key in v.kq ==> v.kq[s.key] == Reg(s.conn.WantDesc().value.gen, ConnTag(p))
    ensures TagsOkBut(v, l.live - {p}, l.source, p, l.live[p].key)
  {
    hide Holds, Alive, WorldInv;
  }

  // Deleting it leaves the rest of the loop settled, and no registration of p.
  lemma DisarmOwn(cfg: Config, v: World, rest: map<nat, Slot>, source: Desc, p: nat, key: Key)
    requires Settled(cfg, v, rest, source) && TagsOkBut(v, rest, source, p, key) && p !in rest
    requires key in v.kq ==> v.kq[key].tag == ConnTag(p)
    ensures Settled(cfg, Disarm(v, key), rest, source) && TagsOk(Disarm(v, key), rest, source)
  {
    hide Alive, Owned;
    assert SourceArmed(Disarm(v, key), source);
    forall q | q in rest ensures Holds(Disarm(v, key), rest[q].conn) && Registered(Disarm(v, key), q, rest[q]) {
      assert rest[q].key != key;
    }
    assert WorldInv(Disarm(v, key));
    hide WorldInv, Holds, Registered, SourceArmed;
  }

  // Adding a registration for c' replaces nobody else's.
  lemma ArmOwn(cfg: Config, u: World, rest: map<nat, Slot>, source: Desc, p: nat, s: Slot)
    requires Settled(cfg, u, rest, source) && TagsOk(u, rest, source) && p !in rest
    requires Alive(cfg, s.conn) && Holds(u, s.conn) && Owned(s.conn) !! Mine(rest, source)
    requires s.conn.WantDesc().Some? && s.key == KeyOf(s.conn) && s.epoch == s.conn.epoch
    ensures s.key.num in u.open
    ensures var v := Arm(u, s.key, ConnTag(p)); Settled(cfg, v, rest[p := s], source) && TagsOk(v, rest[p := s], source)
  {
    hide Alive, Inv, Mine, WorldInv, SlotsOk, Apart, TagsOk, Arm;
    var d := s.conn.WantDesc().value;
    WantIsOwned(s.conn);
    assert IsOpen(u, d);
    var v := Arm(u, s.key, ConnTag(p));
    ArmFacts(u, s.key, ConnTag(p));
    NoKeyShared(cfg, u, rest, source, d, s.key);
    RestUntouched(cfg, u, v, rest, source, s.key);
    WithOne(cfg, v, rest, source, p, s);
    ArmTags(u, v, rest, source, p, s);
  }

  lemma ArmFacts(u: World, key: Key, tag: Tag)
    requires WorldInv(u) && key.num in u.open
    ensures var v := Arm(u, key, tag);
            && WorldInv(v) && v == u.(kq := v.kq) && key in v.kq && v.kq[key] == Reg(u.open[key.num], tag)
            && (forall k :: k != key ==> (k in u.kq <==> k in v.kq) && (k in u.kq ==> v.kq[k] == u.kq[k]))
  {
  }

  lemma NoKeyShared(cfg: Config, u: World, rest: map<nat, Slot>, source: Desc, d: Desc, key: Key)
    requires Settled(cfg, u, rest, source) && IsOpen(u, d) && d !in Mine(rest, source) && key.num == d.num
    ensures (forall q :: q in rest ==> rest[q].key != key) && Key(source.num, false) != key
  {
    hide Alive, Holds, Registered, WorldInv, Mine;
    forall q | q in rest ensures rest[q].key != key {
      KeysDiffer(u, rest, source, q, d);
    }
    SourceIsMine(rest, source);
  }

  lemma ArmTags(u: World, v: World, rest: map<nat, Slot>, source: Desc, p: nat, s: Slot)
    requires TagsOk(u, rest, source) && p !in rest
    requires s.key in v.kq && v.kq[s.key].tag == ConnTag(p)
    requires forall k :: k in v.kq && k != s.key ==> k in u.kq && v.kq[k] == u.kq[k]
    ensures TagsOk(v, rest[p := s], source)
  {
  }

  lemma KeysDiffer(u: World, rest: map<nat, Slot>, source: Desc, q: nat, d: Desc)
    requires q in rest && Holds(u, rest[q].conn) && Registered(u, q, rest[q]) && IsOpen(u, d)
    requires d !in Mine(rest, source)
    ensures rest[q].key.num != d.num
  {
    MineHas(rest, source, q);
    WantIsOwned(rest[q].conn);
  }

  lemma RestUntouched(cfg: Config, u: World, v: World, rest: map<nat, Slot>, source: Desc, key: Key)
    requires Settled(cfg, u, rest, source) && v == u.(kq := v.kq) && WorldInv(v)
    requires forall k :: k in u.kq && k != key ==> k in v.kq && v.kq[k] == u.kq[k]
    requires (forall q :: q in rest ==> rest[q].key != key) && Key(source.num, false) != key
    ensures Settled(cfg, v, rest, source)
  {
    hide Alive, WorldInv;
    forall q | q in rest ensures Holds(v, rest[q].conn) && Registered(v, q, rest[q]) {
      assert Holds(u, rest[q].conn) && Registered(u, q, rest[q]);
    }
  }

  // ---- one service, put together --------------------------------------------------------------

  ghost predicate Quiet(cfg: Config, l: Loop) {
    Settled(cfg, l.w, l.live, l.source) && TagsOk(l.w, l.live, l.source)
  }

  // on_ready() returns to a world in which the others are settled and c' holds what it owns.
  lemma CallSettles(cfg: Config, l: Loop, p: nat, e: Env)
    requires Quiet(cfg, l) && CanService(cfg, l, p, e)
    ensures var c := l.live[p].conn;
            var c' := Step(cfg, c, e.a);
            var rest := l.live - {p};
            && Drift(l.w, Mine(rest, l.source) + Owned(c) * Owned(c'), AfterCall(cfg, l, p, e))
            && Settled(cfg, AfterCall(cfg, l, p, e), rest, l.source)
            && Holds(AfterCall(cfg, l, p, e), c') && Owned(c') !! Mine(rest, l.source)
  {
    hide Step, Settled, TagsOk, Drift, Holds, WorldInv, Mine, Owned, OtherSteps, GiveUp, Acquire, NewDesc, Fair, Alive, Inv, Successor, CanAcquire;
    var c := l.live[p].conn;
    var c' := Step(cfg, c, e.a);
    var rest, mine := l.live - {p}, Mine(l.live - {p}, l.source);
    var keep, keep' := mine + Owned(c) * Owned(c'), mine + Owned(c');
    SettledParts(cfg, l.w, l.live, l.source, p);
    WithoutOne(cfg, l.w, l.live, l.source, p);
    StepIsSuccessor(cfg, c, e.a);
    var w1 := GiveUp(l.w, c, Owned(c'));
    GiveUpDrifts(l.w, c, Owned(c'), keep);
    DriftGivesInv(l.w, keep, w1);
    var w2 := OtherSteps(w1, keep, e.inCall);
    OthersDrift(w1, keep, e.inCall);
    DriftTransitive(l.w, keep, w1, w2);
    DriftGivesInv(l.w, keep, w2);
    assert w2 == BeforeOpen(cfg, l, p, e);
    var w3 := Acquire(w2, c, c');
    AcquireDrifts(w2, c, c', keep);
    AcquireHolds(l.w, keep, w2, c, c');
    AcquireApart(cfg, l.w, keep, w2, rest, l.source, c, c');
    DriftTransitive(l.w, keep, w2, w3);
    DriftGivesInv(l.w, keep, w3);
    var w4 := OtherSteps(w3, keep', e.afterCall);
    OthersDrift(w3, keep', e.afterCall);
    HoldsDrifts(w3, keep', w4, c');
    DriftNarrows(w3, keep', keep, w4);
    DriftTransitive(l.w, keep, w3, w4);
    SettledDrifts(cfg, l.w, keep, w4, rest, l.source);
  }

  lemma SettledParts(cfg: Config, w: World, live: map<nat, Slot>, source: Desc, p: nat)
    requires Settled(cfg, w, live, source) && p in live
    ensures WorldInv(w) && Alive(cfg, live[p].conn) && Holds(w, live[p].conn) && Registered(w, p, live[p])
  {
  }

  // The connection keeps its registration: the epoch has not moved.
  lemma KeepsRegistration(cfg: Config, l: Loop, p: nat, e: Env)
    requires Quiet(cfg, l) && CanService(cfg, l, p, e)
    requires Step(cfg, l.live[p].conn, e.a).state != Done && Step(cfg, l.live[p].conn, e.a).epoch == l.live[p].epoch
    ensures Registered(AfterCall(cfg, l, p, e), p, l.live[p].(conn := Step(cfg, l.live[p].conn, e.a)))
  {
    hide Step, Settled, TagsOk, WorldInv, Mine, AfterCall, Alive, Inv, Fair, Successor, CanAcquire, BeforeOpen;
    var c := l.live[p].conn;
    var c' := Step(cfg, c, e.a);
    SettledParts(cfg, l.w, l.live, l.source, p);
    StepIsSuccessor(cfg, c, e.a);
    CallSettles(cfg, l, p, e);
    assert Owned(c') == Owned(c);
    assert c'.WantDesc() == c.WantDesc() && c'.WantWrite() == c.WantWrite();
    RegisteredDrifts(l.w, Mine(l.live - {p}, l.source) + Owned(c) * Owned(c'), AfterCall(cfg, l, p, e), p, l.live[p]);
  }

  // service() keeps the loop quiet and touches no connection but p.
  lemma ServiceQuiet(cfg: Config, l: Loop, p: nat, e: Env)
    requires Quiet(cfg, l) && CanService(cfg, l, p, e)
    ensures Quiet(cfg, Service(cfg, l, p, e))
    ensures var l' := Service(cfg, l, p, e);
            l'.source == l.source && l'.pending == l.pending && l'.live - {p} == l.live - {p}
  {
    hide Step, Settled, TagsOk, Drift, Holds, Registered, WorldInv, Mine, Owned, OtherSteps, GiveUp, AfterCall,
         Alive, Inv, Fair, CanAcquire, BeforeOpen, TagsOkBut, Rule, Successor;
    var s := l.live[p];
    var c' := Step(cfg, s.conn, e.a);
    var w, rest := AfterCall(cfg, l, p, e), l.live - {p};
    var mine, keep := Mine(rest, l.source), Mine(rest, l.source) + Owned(s.conn) * Owned(c');
    CallSettles(cfg, l, p, e);
    SettledParts(cfg, l.w, l.live, l.source, p);
    StepIsSuccessor(cfg, s.conn, e.a);
    StepWants(cfg, s.conn, e.a);
    OldRegistration(cfg, l, p, keep, w);
    DisarmOwn(cfg, w, rest, l.source, p, s.key);
    if c'.state == Done || c'.WantDesc().None? {
      EraseQuiet(cfg, Disarm(w, s.key), rest, l.source, c');
    } else if c'.epoch == s.epoch {
      KeepsRegistration(cfg, l, p, e);
      AliveAgain(cfg, c');
      WithOne(cfg, w, rest, l.source, p, s.(conn := c'));
      TagsBack(w, rest, l.source, p, s.(conn := c'));
      assert rest[p := s.(conn := c')] == l.live[p := s.(conn := c')];
    } else {
      RearmQuiet(cfg, l, p, e);
    }
  }

  lemma AliveAgain(cfg: Config, c: Conn)
    requires Inv(cfg, c) && c.state != Done
    ensures Alive(cfg, c)
  {
  }

  lemma StepWants(cfg: Config, c: Conn, a: Answer)
    requires Alive(cfg, c) && Fair(cfg, c, a)
    ensures Step(cfg, c, a).state != Done ==> Step(cfg, c, a).WantDesc().Some?
  {
    hide Step, Inv;
    StepInv(cfg, c, a);
    InvWants(cfg, Step(cfg, c, a));
  }

  lemma TagsBack(w: World, rest: map<nat, Slot>, source: Desc, p: nat, s: Slot)
    requires TagsOkBut(w, rest, source, p, s.key) && p !in rest
    ensures TagsOk(w, rest[p := s], source)
  {
  }

  // Destroying a connection closes its descriptors and nothing else of the loop's.
  lemma EraseQuiet(cfg: Config, w: World, rest: map<nat, Slot>, source: Desc, c: Conn)
    requires Settled(cfg, w, rest, source) && TagsOk(w, rest, source) && Owned(c) !! Mine(rest, source)
    ensures Settled(cfg, GiveUp(w, c, {}), rest, source) && TagsOk(GiveUp(w, c, {}), rest, source)
  {
    hide Drift, SlotsOk, Apart, Mine, GiveUp, TagsOk, Owned, WorldInv;
    var mine := Mine(rest, source);
    GiveUpDrifts(w, c, {}, mine);
    SettledDrifts(cfg, w, mine, GiveUp(w, c, {}), rest, source);
    TagsDrift(w, mine, GiveUp(w, c, {}), rest, source, 0, Key(0, false));
  }

  // Delete, then add.
  lemma RearmQuiet(cfg: Config, l: Loop, p: nat, e: Env)
    requires Quiet(cfg, l) && CanService(cfg, l, p, e)
    requires var c' := Step(cfg, l.live[p].conn, e.a); c'.state != Done && c'.WantDesc().Some? && c'.epoch != l.live[p].epoch
    ensures Quiet(cfg, Service(cfg, l, p, e))
    ensures var l' := Service(cfg, l, p, e);
            l'.source == l.source && l'.pending == l.pending && l'.live - {p} == l.live - {p}
  {
    hide Step, Settled, TagsOk, Drift, Holds, Registered, WorldInv, Mine, Owned, OtherSteps, GiveUp, AfterCall,
         Alive, Inv, Fair, CanAcquire, BeforeOpen, TagsOkBut, Rule, Successor, Arm;
    var s := l.live[p];
    var c' := Step(cfg, s.conn, e.a);
    var w, rest := AfterCall(cfg, l, p, e), l.live - {p};
    var mine := Mine(rest, l.source);
    CallSettles(cfg, l, p, e);
    SettledParts(cfg, l.w, l.live, l.source, p);
    StepIsSuccessor(cfg, s.conn, e.a);
    AliveAgain(cfg, c');
    OldRegistration(cfg, l, p, mine + Owned(s.conn) * Owned(c'), w);
    DisarmOwn(cfg, w, rest, l.source, p, s.key);
    var w5, keep := Disarm(w, s.key), mine + Owned(c');
    DisarmHolds(w, s.key, c');
    SettledWorld(cfg, w5, rest, l.source);
    var u := OtherSteps(w5, keep, e.afterDelete);
    OthersDrift(w5, keep, e.afterDelete);
    SettledDrifts(cfg, w5, keep, u, rest, l.source);
    HoldsDrifts(w5, keep, u, c');
    TagsDrift(w5, keep, u, rest, l.source, 0, Key(0, false));
    var s' := Slot(c', s.id, KeyOf(c'), c'.epoch);
    ArmOwn(cfg, u, rest, l.source, p, s');
    EraseQuiet(cfg, u, rest, l.source, c');
    assert rest[p := s'] == l.live[p := s'];
  }

  lemma DisarmHolds(w: World, key: Key, c: Conn)
    requires Holds(w, c)
    ensures Holds(Disarm(w, key), c)
  {
  }

  lemma SettledWorld(cfg: Config, w: World, live: map<nat, Slot>, source: Desc)
    requires Settled(cfg, w, live, source)
    ensures WorldInv(w)
  {
  }

  // ---- histories ------------------------------------------------------------------------------

  lemma PlaysOn(cfg: Config, s: Story, c: Conn, b: Beat)
    requires Plays(cfg, s, c) && c.state != Done && Fair(cfg, c, b.a)
    requires c.WantDesc() == Some(b.fd) && c.WantWrite() == b.write
    ensures Plays(cfg, s.(beats := s.beats + [b]), Step(cfg, c, b.a))
  {
    hide Step, Fair, Init;
    assert (s.beats + [b])[..|s.beats|] == s.beats;
  }

  // The event that is handled came from the connection's current registration, so what the kernel
  // reported is what the blocking loop would have polled for.
  lemma BeatMatches(cfg: Config, l: Loop, ev: Event, a: Answer)
    requires Quiet(cfg, l) && EventOk(l, ev) && ev.reg.tag.ConnTag?
    ensures var s := l.live[ev.reg.tag.ptr];
            s.conn.state != Done && s.conn.WantDesc() == Some(Desc(ev.key.num, ev.reg.gen)) && s.conn.WantWrite() == ev.key.write
  {
    hide WorldInv, Holds, Inv, Apart, TagsOk;
  }

  // What service() leaves at p: the stepped connection, or its ending.
  ghost predicate Served(l: Loop, p: nat, c': Conn, l': Loop)
    requires p in l.live
  {
    && l'.stories == l.stories && l'.nextId == l.nextId && l'.live - {p} == l.live - {p}
    && if p in l'.live then l'.live[p].conn == c' && l'.live[p].id == l.live[p].id && l'.ended == l.ended
       else exists failed :: (failed || c'.state == Done) && l'.ended == l.ended[l.live[p].id := Ending(c', failed)]
  }

  lemma ErasedShape(l: Loop, p: nat, w: World, c': Conn, failed: bool)
    requires p in l.live && (failed || c'.state == Done)
    ensures Served(l, p, c', Erase(l, p, w, c', failed))
  {
    hide GiveUp;
    assert l.live - {p} - {p} == l.live - {p};
  }

  lemma KeptShape(l: Loop, p: nat, w: World, s: Slot)
    requires p in l.live && s.id == l.live[p].id
    ensures Served(l, p, s.conn, l.(w := w, live := l.live[p := s]))
  {
    assert l.live[p := s] - {p} == l.live - {p};
  }

  lemma ServiceShape(cfg: Config, l: Loop, p: nat, e: Env)
    requires Quiet(cfg, l) && CanService(cfg, l, p, e)
    ensures Served(l, p, Step(cfg, l.live[p].conn, e.a), Service(cfg, l, p, e))
  {
    hide Step, Settled, TagsOk, Mine, Owned, OtherSteps, Erase, AfterCall, Fair, CanAcquire, BeforeOpen, Arm, Disarm, Served;
    SettledParts(cfg, l.w, l.live, l.source, p);
    StepWants(cfg, l.live[p].conn, e.a);
    var slot := l.live[p];
    var c' := Step(cfg, slot.conn, e.a);
    var w := AfterCall(cfg, l, p, e);
    if c'.state == Done || c'.WantDesc().None? {
      ErasedShape(l, p, Disarm(w, slot.key), c', false);
    } else if c'.epoch == slot.epoch {
      KeptShape(l, p, w, slot.(conn := c'));
    } else {
      var u := OtherSteps(Disarm(w, slot.key), Mine(l.live - {p}, l.source) + Owned(c'), e.afterDelete);
      ErasedShape(l, p, u, c', true);
      if KeyOf(c').num in u.open {
        KeptShape(l, p, Arm(u, KeyOf(c'), ConnTag(p)), Slot(c', slot.id, KeyOf(c'), c'.epoch));
      }
    }
  }

  lemma StoriesAfter(cfg: Config, l: Loop, p: nat, b: Beat, c': Conn, l': Loop)
    requires StoriesOk(cfg, l) && p in l.live
    requires Served(l.(stories := Told(l, l.live[p].id, b)), p, c', l')
    requires var s := l.stories[l.live[p].id]; Plays(cfg, s.(beats := s.beats + [b]), c')
    ensures StoriesOk(cfg, l')
  {
    hide Plays;
    var id := l.live[p].id;
    forall q | q in l'.live
      ensures l'.live[q].id in l'.stories && Plays(cfg, l'.stories[l'.live[q].id], l'.live[q].conn) && l'.live[q].id !in l'.ended
      ensures q != p ==> q in l.live && l'.live[q] == l.live[q] && l'.live[q].id != id
    {
      if q != p { Survives(l'.live, l.live, p, q); }
    }
    forall i | i in l'.ended
      ensures i in l'.stories && Plays(cfg, l'.stories[i], l'.ended[i].conn) && (l'.ended[i].armFailed || l'.ended[i].conn.state == Done)
    {
      assert i == id || i in l.ended;
    }
  }

  // The history of the served connection grows by the beat, whatever service() does with it.
  lemma ServiceStories(cfg: Config, l: Loop, p: nat, b: Beat, e: Env)
    requires StoriesOk(cfg, l) && Quiet(cfg, l) && CanService(cfg, l, p, e) && b.a == e.a
    requires var c := l.live[p].conn; c.state != Done && c.WantDesc() == Some(b.fd) && c.WantWrite() == b.write
    ensures CanService(cfg, l.(stories := Told(l, l.live[p].id, b)), p, e)
    ensures StoriesOk(cfg, Service(cfg, l.(stories := Told(l, l.live[p].id, b)), p, e))
  {
    hide Step, Settled, TagsOk, Plays, Service, CanAcquire, BeforeOpen, Served;
    var told := l.(stories := Told(l, l.live[p].id, b));
    SameCall(cfg, l, told, p, e);
    PlaysOn(cfg, l.stories[l.live[p].id], l.live[p].conn, b);
    ServiceShape(cfg, told, p, e);
    StoriesAfter(cfg, l, p, b, Step(cfg, l.live[p].conn, e.a), Service(cfg, told, p, e));
  }

  lemma SameCall(cfg: Config, l: Loop, l': Loop, p: nat, e: Env)
    requires l' == l.(stories := l'.stories) && CanService(cfg, l, p, e)
    ensures CanService(cfg, l', p, e)
  {
    hide Step, Mine, Owned, OtherSteps, GiveUp, Fair, CanAcquire;
  }

  // ---- one event ------------------------------------------------------------------------------

  lemma LaterEvents(cfg: Config, l: Loop)
    requires LoopOk(cfg, l) && l.pending != []
    ensures LoopOk(cfg, l.(pending := l.pending[1..]))
    ensures l.pending[0].reg.tag.ConnTag? ==>
              forall i :: 1 <= i < |l.pending| ==> l.pending[i].reg.tag != l.pending[0].reg.tag
  {
    hide Settled, TagsOk, Plays;
    var l1 := l.(pending := l.pending[1..]);
    StoriesSame(cfg, l, l1);
    forall i | 0 <= i < |l1.pending| ensures EventOk(l1, l1.pending[i]) {
      assert EventOk(l, l.pending[i + 1]);
    }
    assert EventOk(l, l.pending[0]);
  }

  lemma ServedInv(cfg: Config, l: Loop, e: Env)
    requires LoopOk(cfg, l) && l.pending != [] && l.pending[0].reg.tag.ConnTag?
    requires CanService(cfg, l.(pending := l.pending[1..]), l.pending[0].reg.tag.ptr, e)
    ensures LoopOk(cfg, HandleNext(cfg, l, e, []))
  {
    hide Settled, TagsOk, StoriesOk, CanService, Service, EventOk;
    var ev, p := l.pending[0], l.pending[0].reg.tag.ptr;
    var l1 := l.(pending := l.pending[1..]);
    LaterEvents(cfg, l);
    assert EventOk(l, ev);
    EventNames(l, ev);
    EventSame(l, l1, ev);
    var b := Beat(Desc(ev.key.num, ev.reg.gen), ev.key.write, e.a);
    BeatMatches(cfg, l1, ev, e.a);
    ServiceStories(cfg, l1, p, b, e);
    var told := l1.(stories := Told(l1, l1.live[p].id, b));
    ServiceQuiet(cfg, told, p, e);
    var l' := Service(cfg, told, p, e);
    forall i | 0 <= i < |l1.pending| && l1.pending[i].reg.tag.ConnTag?
      ensures var q := l1.pending[i].reg.tag.ptr; q in l1.live && q in l'.live && l'.live[q] == l1.live[q]
    {
      assert l1.pending[i] == l.pending[i + 1];
      assert EventOk(l1, l1.pending[i]);
      EventNames(l1, l1.pending[i]);
      Survives(l1.live, l'.live, p, l1.pending[i].reg.tag.ptr);
    }
    BatchDrifts(cfg, l1, l');
  }

  lemma Survives(live: map<nat, Slot>, live': map<nat, Slot>, p: nat, q: nat)
    requires live' - {p} == live - {p} && q != p && q in live
    ensures q in live' && live'[q] == live[q]
  {
    assert q in live - {p};
    assert (live - {p})[q] == live[q];
  }

  lemma EventNames(l: Loop, e: Event)
    requires EventOk(l, e)
    ensures e.reg.tag.ConnTag? ==> e.reg.tag.ptr in l.live && l.live[e.reg.tag.ptr].key == e.key
  {
  }

  lemma EventSame(l: Loop, l1: Loop, e: Event)
    requires EventOk(l, e) && l1 == l.(pending := l1.pending)
    ensures EventOk(l1, e)
  {
  }

  // ---- new connections ------------------------------------------------------------------------

  lemma InitHolds(w: World, d: Desc)
    requires IsOpen(w, d) && d !in w.held
    ensures Holds(w, Init(d)) && Owned(Init(d)) == {d} && Init(d).WantDesc() == Some(d) && !Init(d).WantWrite()
  {
  }

  lemma AdoptQuiet(cfg: Config, l: Loop, n: Arrival)
    requires Quiet(cfg, l) && CanAdopt(l, n)
    ensures Quiet(cfg, Adopt(l, n))
  {
    hide Settled, TagsOk, Drift, Holds, Registered, Owned, WorldInv, Alive, Inv, Open, Close, Arm, Init, Mine;
    var mine := Mine(l.live, l.source);
    var w := if n.handed then l.w else Open(l.w, n.d);
    SettledWorld(cfg, l.w, l.live, l.source);
    DriftReflexive(l.w, mine);
    if !n.handed {
      OpenDrifts(l.w, mine, n.d);
      NewIsNobodys(cfg, l.w, l.live, l.source, n.d);
    }
    SettledDrifts(cfg, l.w, mine, w, l.live, l.source);
    TagsDrift(l.w, mine, w, l.live, l.source, 0, Key(0, false));
    InitHolds(w, n.d);
    InitInv(cfg, n.d);
    InitAlive(cfg, n.d);
    SettledWorld(cfg, w, l.live, l.source);
    ArmOwn(cfg, w, l.live, l.source, n.ptr, Slot(Init(n.d), l.nextId, KeyOf(Init(n.d)), 0));
    CloseDrifts(w, mine, n.d);
    SettledDrifts(cfg, w, mine, Close(w, n.d), l.live, l.source);
    TagsDrift(w, mine, Close(w, n.d), l.live, l.source, 0, Key(0, false));
  }

  lemma InitAlive(cfg: Config, d: Desc)
    requires Inv(cfg, Init(d))
    ensures Alive(cfg, Init(d)) && Init(d).epoch == 0
  {
  }

  // A descriptor just opened belongs to nobody in the loop and to no resolver job.
  lemma NewIsNobodys(cfg: Config, w: World, live: map<nat, Slot>, source: Desc, d: Desc)
    requires Settled(cfg, w, live, source) && CanOpen(w, d)
    ensures d !in Mine(live, source) && d !in Open(w, d).held
  {
    hide Alive, Registered;
  }

  lemma AdoptStories(cfg: Config, l: Loop, n: Arrival)
    requires StoriesOk(cfg, l)
    ensures StoriesOk(cfg, Adopt(l, n))
  {
    hide CanAdopt, Open, Close, Arm, Init, Plays;
    if CanAdopt(l, n) {
      NotThere(l, n);
      FreshPlays(cfg, n.d);
    }
  }

  lemma AdoptInv(cfg: Config, l: Loop, n: Arrival)
    requires LoopOk(cfg, l)
    ensures LoopOk(cfg, Adopt(l, n))
  {
    hide Settled, TagsOk, CanAdopt, Open, Close, Arm, Init, StoriesOk, EventOk;
    AdoptStories(cfg, l, n);
    if CanAdopt(l, n) {
      AdoptQuiet(cfg, l, n);
      NotThere(l, n);
      var l' := Adopt(l, n);
      forall i | 0 <= i < |l.pending| && l.pending[i].reg.tag.ConnTag?
        ensures var q := l.pending[i].reg.tag.ptr; q in l.live && q in l'.live && l'.live[q] == l.live[q]
      {
        EventNames(l, l.pending[i]);
      }
      BatchDrifts(cfg, l, l');
    }
  }

  lemma NotThere(l: Loop, n: Arrival)
    requires CanAdopt(l, n)
    ensures n.ptr !in l.live
  {
  }

  lemma FreshPlays(cfg: Config, d: Desc)
    ensures Plays(cfg, Story(d, []), Init(d))
  {
  }

  lemma {:induction false} AdoptAllInv(cfg: Config, l: Loop, ns: seq<Arrival>)
    requires LoopOk(cfg, l)
    ensures LoopOk(cfg, AdoptAll(l, ns))
  {
    hide LoopOk, Adopt, Others;
    if ns != [] {
      var before := AdoptAll(l, ns[..|ns| - 1]);
      AdoptAllInv(cfg, l, ns[..|ns| - 1]);
      OthersInv(cfg, before, ns[|ns| - 1].os);
      AdoptInv(cfg, Others(before, ns[|ns| - 1].os), ns[|ns| - 1]);
    }
  }

  // ---- every run ------------------------------------------------------------------------------

  lemma PollInv(cfg: Config, l: Loop, keys: seq<Key>)
    requires LoopOk(cfg, l) && CanPoll(l, keys)
    ensures LoopOk(cfg, l.(pending := Reported(l, keys)))
  {
    hide Settled, Plays;
    var l' := l.(pending := Reported(l, keys));
    StoriesSame(cfg, l, l');
  }

  lemma NextInv(cfg: Config, l: Loop, x: Action)
    requires LoopOk(cfg, l)
    ensures LoopOk(cfg, Next(cfg, l, x))
  {
    hide LoopOk, CanService, Service, AdoptAll, Others, CanPoll, Reported;
    match x
    case Poll(keys) => if CanPoll(l, keys) { PollInv(cfg, l, keys); }
    case Elsewhere(os) => OthersInv(cfg, l, os);
    case Handle(e, arrivals) =>
      if l.pending != [] {
        var l1 := l.(pending := l.pending[1..]);
        LaterEventsInv(cfg, l);
        match l.pending[0].reg.tag
        case SourceTag => AdoptAllInv(cfg, l1, arrivals);
        case ConnTag(p) => if CanService(cfg, l1, p, e) { ServedInv(cfg, l, e); }
      }
  }

  lemma LaterEventsInv(cfg: Config, l: Loop)
    requires LoopOk(cfg, l) && l.pending != []
    ensures LoopOk(cfg, l.(pending := l.pending[1..]))
  {
    hide LoopOk;
    LaterEvents(cfg, l);
  }

  lemma BeginInv(cfg: Config, source: Desc)
    ensures LoopOk(cfg, Begin(source))
  {
  }

  // Every reachable state, for every schedule, every descriptor reuse and every answer of the kernel.
  lemma {:induction false} RunInv(cfg: Config, source: Desc, xs: seq<Action>)
    ensures LoopOk(cfg, LoopRun(cfg, source, xs))
  {
    hide LoopOk, Next, Begin;
    if xs == [] {
      BeginInv(cfg, source);
    } else {
      RunInv(cfg, source, xs[..|xs| - 1]);
      NextInv(cfg, LoopRun(cfg, source, xs[..|xs| - 1]), xs[|xs| - 1]);
    }
  }
}
