// The event loop of src/backend/event_loop.cpp over the kernel model: live connections, their one
// registration each, batches of events, and the service of one event.
module EventLoop {
  import opened Basics
  import opened ConnMachine
  import opened Kernel

  // A live_ entry: the connection and the registration made for it.  `id` is Connection::id_.
  datatype Slot = Slot(conn: Conn, id: nat, key: Key, epoch: nat)

  // One kevent of a batch, with the id the connection at that address had when it was reported.
  datatype Event = Event(key: Key, reg: Reg, id: nat)

  // One on_ready() call: the descriptor and direction reported ready, and the answers it got.
  datatype Beat = Beat(fd: Desc, write: bool, a: Answer)
  datatype Story = Story(client: Desc, beats: seq<Beat>)
  datatype Ending = Ending(conn: Conn, armFailed: bool)

  // `source` is the listener, or the hand-off pipe of a shard.  Connections are keyed by address, and
  // an address is reused once its connection is gone.
  datatype Loop = Loop(w: World, live: map<nat, Slot>, source: Desc, nextId: nat, pending: seq<Event>,
                       stories: map<nat, Story>, ended: map<nat, Ending>)

  function Owned(c: Conn): (s: set<Desc>) { DescSet(c.client) + DescSet(c.upstream) + DescSet(c.job) }

  ghost function Mine(live: map<nat, Slot>, source: Desc): (s: set<Desc>) {
    (set p, d | p in live && d in Owned(live[p].conn) :: d) + {source}
  }

  function KeyOf(c: Conn): (k: Key)
    requires c.WantDesc().Some?
  {
    Key(c.WantDesc().value.num, c.WantWrite())
  }

  // ---- what on_ready() does to descriptors ----------------------------------------------------

  // Fd::reset(), or dropping the last reference to a job: closes unless a resolver still holds it.
  function Drop(w: World, d: Option<Desc>, keep: set<Desc>): (v: World) {
    if d.None? || d.value in keep || d.value in w.held then w else Close(w, d.value)
  }

  // Everything c owns outside `keep` is given up.
  function GiveUp(w: World, c: Conn, keep: set<Desc>): (v: World) {
    Drop(Drop(Drop(w, c.upstream, keep), c.job, keep), c.client, keep)
  }

  // The descriptor c' has and c had not: a connected socket or a resolver pipe.
  function NewDesc(c: Conn, c': Conn): (d: Option<Desc>) {
    if c'.upstream.Some? && c'.upstream != c.upstream then c'.upstream
    else if c'.job.Some? && c'.job != c.job then c'.job
    else None
  }

  predicate CanAcquire(w: World, c: Conn, c': Conn) {
    NewDesc(c, c').Some? ==> CanOpen(w, NewDesc(c, c').value)
  }

  function Acquire(w: World, c: Conn, c': Conn): (v: World)
    requires CanAcquire(w, c, c')
  {
    match NewDesc(c, c')
    case None => w
    case Some(d) => if c'.job == Some(d) then Hold(Open(w, d), d) else Open(w, d)
  }

  // ---- service --------------------------------------------------------------------------------

  // What other threads do while one event is handled, and whether kevent(EV_ADD) succeeds.
  datatype Env = Env(a: Answer, inCall: seq<Other>, afterCall: seq<Other>, afterDelete: seq<Other>, armOk: bool)

  // The world when on_ready() is about to open its new descriptor, and when it has returned.
  ghost function BeforeOpen(cfg: Config, l: Loop, p: nat, e: Env): (v: World)
    requires p in l.live
  {
    var c := l.live[p].conn;
    var c' := Step(cfg, c, e.a);
    var keep := Mine(l.live - {p}, l.source) + Owned(c) * Owned(c');
    OtherSteps(GiveUp(l.w, c, Owned(c')), keep, e.inCall)
  }

  ghost predicate CanService(cfg: Config, l: Loop, p: nat, e: Env) {
    && p in l.live
    && Fair(cfg, l.live[p].conn, e.a)
    && CanAcquire(BeforeOpen(cfg, l, p, e), l.live[p].conn, Step(cfg, l.live[p].conn, e.a))
  }

  ghost function AfterCall(cfg: Config, l: Loop, p: nat, e: Env): (v: World)
    requires CanService(cfg, l, p, e)
  {
    var c := l.live[p].conn;
    var c' := Step(cfg, c, e.a);
    OtherSteps(Acquire(BeforeOpen(cfg, l, p, e), c, c'), Mine(l.live - {p}, l.source) + Owned(c'), e.afterCall)
  }

  function Told(l: Loop, id: nat, b: Beat): (m: map<nat, Story>) {
    if id in l.stories then l.stories[id := l.stories[id].(beats := l.stories[id].beats + [b])] else l.stories
  }

  // The connection at p is destroyed, after its registration has been deleted.
  ghost function Erase(l: Loop, p: nat, w: World, c: Conn, armFailed: bool): (l': Loop)
    requires p in l.live
  {
    l.(w := GiveUp(w, c, {}), live := l.live - {p}, ended := l.ended[l.live[p].id := Ending(c, armFailed)])
  }

  // service(): on_ready(), then delete and re-add the registration if the epoch moved.
  ghost function Service(cfg: Config, l: Loop, p: nat, e: Env): (l': Loop)
    requires CanService(cfg, l, p, e)
  {
    var slot := l.live[p];
    var c' := Step(cfg, slot.conn, e.a);
    var w := AfterCall(cfg, l, p, e);
    if c'.state == Done || c'.WantDesc().None? then Erase(l, p, Disarm(w, slot.key), c', false)
    else if c'.epoch == slot.epoch then l.(w := w, live := l.live[p := slot.(conn := c')])
    else
      var u := OtherSteps(Disarm(w, slot.key), Mine(l.live - {p}, l.source) + Owned(c'), e.afterDelete);
      if e.armOk && KeyOf(c').num in u.open
      then l.(w := Arm(u, KeyOf(c'), ConnTag(p)), live := l.live[p := Slot(c', slot.id, KeyOf(c'), c'.epoch)])
      else Erase(l, p, u, c', true)
  }

  // ---- new connections ------------------------------------------------------------------------

  // What other threads did since the last call; a descriptor from accept(), or one the acceptor
  // thread handed over; where the new Connection is allocated; and whether kevent(EV_ADD) succeeds.
  datatype Arrival = Arrival(os: seq<Other>, d: Desc, handed: bool, ptr: nat, armOk: bool)

  ghost function Others(l: Loop, os: seq<Other>): (l': Loop) {
    l.(w := OtherSteps(l.w, Mine(l.live, l.source), os))
  }

  ghost predicate CanAdopt(l: Loop, n: Arrival) {
    && n.ptr !in l.live
    && if n.handed then IsOpen(l.w, n.d) && n.d !in Mine(l.live, l.source) && n.d !in l.w.held
       else CanOpen(l.w, n.d)
  }

  ghost function Adopt(l: Loop, n: Arrival): (l': Loop) {
    if !CanAdopt(l, n) then l
    else
      var w := if n.handed then l.w else Open(l.w, n.d);
      var c := Init(n.d);
      var told := l.(nextId := l.nextId + 1, stories := l.stories[l.nextId := Story(n.d, [])]);
      if n.armOk
      then told.(w := Arm(w, KeyOf(c), ConnTag(n.ptr)), live := l.live[n.ptr := Slot(c, l.nextId, KeyOf(c), 0)])
      else told.(w := Close(w, n.d), ended := l.ended[l.nextId := Ending(c, true)])
  }

  ghost function AdoptAll(l: Loop, ns: seq<Arrival>): (l': Loop) {
    if ns == [] then l
    else
      var n := ns[|ns| - 1];
      Adopt(Others(AdoptAll(l, ns[..|ns| - 1]), n.os), n)
  }

  // ---- runs -----------------------------------------------------------------------------------

  datatype Action =
    | Poll(keys: seq<Key>)                      // kevent() returns these registrations as ready
    | Handle(e: Env, arrivals: seq<Arrival>)    // the next event of the batch is handled
    | Elsewhere(os: seq<Other>)                 // other threads run

  ghost predicate CanPoll(l: Loop, keys: seq<Key>) {
    && l.pending == []
    && (forall i :: 0 <= i < |keys| ==> keys[i] in l.w.kq)
    && (forall i, j :: 0 <= i < j < |keys| ==> keys[i] != keys[j])
  }

  function IdAt(l: Loop, r: Reg): (id: nat) {
    if r.tag.ConnTag? && r.tag.ptr in l.live then l.live[r.tag.ptr].id else 0
  }

  ghost function Reported(l: Loop, keys: seq<Key>): (es: seq<Event>)
    requires CanPoll(l, keys)
    ensures |es| == |keys|
    ensures forall i :: 0 <= i < |keys| ==> es[i] == Event(keys[i], l.w.kq[keys[i]], IdAt(l, l.w.kq[keys[i]]))
  {
    seq(|keys|, i requires 0 <= i < |keys| => Event(keys[i], l.w.kq[keys[i]], IdAt(l, l.w.kq[keys[i]])))
  }

  // The event at the head of the batch; one for a connection that is gone is ignored, as in service().
  ghost function HandleNext(cfg: Config, l: Loop, e: Env, arrivals: seq<Arrival>): (l': Loop)
    requires l.pending != []
  {
    var ev := l.pending[0];
    var l1 := l.(pending := l.pending[1..]);
    match ev.reg.tag
    case SourceTag => AdoptAll(l1, arrivals)
    case ConnTag(p) =>
      if p !in l1.live then l1
      else if CanService(cfg, l1, p, e) then
        Service(cfg, l1.(stories := Told(l1, l1.live[p].id, Beat(Desc(ev.key.num, ev.reg.gen), ev.key.write, e.a))), p, e)
      else l
  }

  // An action that cannot happen is skipped, so every list of actions is a run.
  ghost function Next(cfg: Config, l: Loop, x: Action): (l': Loop) {
    match x
    case Poll(keys) => if CanPoll(l, keys) then l.(pending := Reported(l, keys)) else l
    case Handle(e, arrivals) => if l.pending == [] then l else HandleNext(cfg, l, e, arrivals)
    case Elsewhere(os) => Others(l, os)
  }

  // run(): the listener or pipe is open and armed, nothing else is.
  function Begin(source: Desc): (l: Loop) {
    Loop(World(map[source.num := source.gen], source.gen + 1,
               map[Key(source.num, false) := Reg(source.gen, SourceTag)], {}),
         map[], source, 0, [], map[], map[])
  }

  ghost function LoopRun(cfg: Config, source: Desc, xs: seq<Action>): (l: Loop) {
    if xs == [] then Begin(source) else Next(cfg, LoopRun(cfg, source, xs[..|xs| - 1]), xs[|xs| - 1])
  }

  // ---- the blocking backends ------------------------------------------------------------------

  // The serve loop of the two blocking backends, alone with one connection: poll the wanted
  // descriptor in the wanted direction, call on_ready(), until done.
  function Serve(cfg: Config, c: Conn, beats: seq<Beat>): (r: Conn) {
    if beats == [] then c else Step(cfg, Serve(cfg, c, beats[..|beats| - 1]), beats[|beats| - 1].a)
  }

  ghost predicate Servable(cfg: Config, c: Conn, beats: seq<Beat>) {
    beats == [] ||
    var before, b := beats[..|beats| - 1], beats[|beats| - 1];
    var d := Serve(cfg, c, before);
    && Servable(cfg, c, before)
    && d.state != Done && d.WantDesc() == Some(b.fd) && d.WantWrite() == b.write && Fair(cfg, d, b.a)
  }

  // c is where the blocking loop gets with this story.
  ghost predicate Plays(cfg: Config, s: Story, c: Conn) {
    Servable(cfg, Init(s.client), s.beats) && Serve(cfg, Init(s.client), s.beats) == c
  }
}
