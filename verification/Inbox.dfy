// The hand-off from the acceptor to the event-loop shards (src/backend/event_loop.cpp): one acceptor
// deals descriptors round-robin into per-shard inboxes, each a locked queue and a wakeup pipe.
module Inbox {
  // Where a shard is in its loop.
  datatype ShardPc =
    | Waiting     // in kevent()
    | Reading     // emptying the pipe
    | Swapping    // about to take the queue
    | Adopting    // going through what it took

  // `batch` has been swapped out of the queue and not been adopted yet.
  datatype Shard = Shard(queue: seq<nat>, bytes: nat, pc: ShardPc, batch: seq<nat>, adopted: seq<nat>)

  // `dealt` descriptors have been accepted so far, numbered in that order.  `half` says that the
  // last one is in its queue and its wakeup byte has not been written yet.
  datatype Hub = Hub(shards: seq<Shard>, next: nat, dealt: nat, half: bool, last: nat)

  const EMPTY_SHARD := Shard([], 0, Waiting, [], [])

  function Open(shards: nat): (h: Hub) {
    var n := if shards != 0 then shards else 1;
    Hub(seq(n, i => EMPTY_SHARD), 0, 0, false, 0)
  }

  datatype Move =
    | Push               // accept() and the locked half of Inbox::push
    | Write              // its wakeup byte
    | Wake(i: nat)       // kevent() reports the pipe readable
    | Read(i: nat)       // one read() of up to 256 bytes, or the one that finds the pipe empty
    | Swap(i: nat)       // Inbox::drain
    | Adopt(i: nat)      // one descriptor, or back to kevent()

  function ShardStep(s: Shard, a: Move): (r: Shard) {
    match a
    case Wake(_) => if s.pc.Waiting? && s.bytes > 0 then s.(pc := Reading) else s
    case Read(_) =>
      if !s.pc.Reading? then s
      else if s.bytes == 0 then s.(pc := Swapping)
      else s.(bytes := if s.bytes < 256 then 0 else s.bytes - 256)
    case Swap(_) => if s.pc.Swapping? then s.(pc := Adopting, batch := s.queue, queue := []) else s
    case Adopt(_) =>
      if !s.pc.Adopting? then s
      else if s.batch == [] then s.(pc := Waiting)
      else s.(batch := s.batch[1..], adopted := s.adopted + [s.batch[0]])
    case _ => s
  }

  // A move that is not possible leaves everything alone, so every list of moves is a run.
  function Next(h: Hub, a: Move): (r: Hub) {
    match a
    case Push =>
      if h.half || h.next >= |h.shards| then h
      else
        var s := h.shards[h.next];
        Hub(h.shards[h.next := s.(queue := s.queue + [h.dealt])], (h.next + 1) % |h.shards|,
            h.dealt + 1, true, h.next)
    case Write =>
      if !h.half || h.last >= |h.shards| then h
      else
        var s := h.shards[h.last];
        h.(shards := h.shards[h.last := s.(bytes := s.bytes + 1)], half := false)
    case _ => if a.i < |h.shards| then h.(shards := h.shards[a.i := ShardStep(h.shards[a.i], a)]) else h
  }

  function Run(h: Hub, moves: seq<Move>): (r: Hub)
    decreases |moves|
  {
    if moves == [] then h else Next(Run(h, moves[..|moves| - 1]), moves[|moves| - 1])
  }

  // ---- dealing --------------------------------------------------------------------------------

  // The first `k` of the descriptors dealt to shard `i` of `n`: i, i + n, i + 2n, ...
  function Share(i: nat, n: nat, k: nat): (s: seq<nat>) {
    seq(k, j requires 0 <= j < k => i + j * n)
  }

  // How many of `dealt` descriptors shard `i` of `n` gets.
  function Portion(i: nat, n: nat, dealt: nat): (k: nat)
    requires n > 0
  {
    dealt / n + if i < dealt % n then 1 else 0
  }

  lemma NextDivMod(d: nat, n: nat)
    requires n > 0
    ensures (d + 1) % n == (d % n + 1) % n
    ensures (d + 1) / n == if d % n + 1 == n then d / n + 1 else d / n
    ensures (d + 1) % n == if d % n + 1 == n then 0 else d % n + 1
  {
    var q, r := d / n, d % n;
    assert d + 1 == q * n + (r + 1);
    if r + 1 == n {
      assert d + 1 == (q + 1) * n;
      Quotient(d + 1, n, q + 1, 0);
      Quotient(n, n, 1, 0);
    } else {
      Quotient(d + 1, n, q, r + 1);
      Quotient(r + 1, n, 0, r + 1);
    }
  }

  lemma Quotient(x: nat, n: nat, q: nat, r: nat)
    requires n > 0 && x == q * n + r && r < n
    ensures x / n == q && x % n == r
  {
    var a, b := x / n, x % n;
    assert x == a * n + b && 0 <= b < n;
    Times(a + 1, q, n);
    Times(q + 1, a, n);
  }

  // Multiplication keeps the order; stated as an implication so that it also rules an order out.
  lemma Times(a: nat, b: nat, n: nat)
    ensures a <= b ==> a * n <= b * n
    ensures (a + 1) * n == a * n + n
    ensures a > 0 ==> a * n == (a - 1) * n + n
  {
  }

  // ---- the invariant --------------------------------------------------------------------------

  // Everything a shard was dealt, in order.
  function Got(s: Shard): (q: seq<nat>) { s.adopted + s.batch + s.queue }

  // Something in the queue means that the shard is about to look, or will be woken to look.
  ghost predicate Heard(h: Hub, i: nat)
    requires i < |h.shards|
  {
    var s := h.shards[i];
    s.queue != [] ==> s.bytes > 0 || (h.half && h.last == i) || s.pc.Reading? || s.pc.Swapping?
  }

  ghost predicate HubInv(h: Hub) {
    var n := |h.shards|;
    && n > 0 && h.next == h.dealt % n && (h.half ==> h.last < n)
    && (forall i :: 0 <= i < n ==>
          && Got(h.shards[i]) == Share(i, n, Portion(i, n, h.dealt))
          && Heard(h, i)
          && (h.shards[i].batch != [] ==> h.shards[i].pc.Adopting?))
  }

  // The shard whose turn it is gets the next descriptor, the others' portions stay.
  lemma NextPortion(d: nat, n: nat, j: nat)
    requires n > 0 && j < n
    ensures Portion(j, n, d + 1) == Portion(j, n, d) + if j == d % n then 1 else 0
    ensures d == d % n + Portion(d % n, n, d) * n
  {
    NextDivMod(d, n);
    assert d == (d / n) * n + d % n;
  }

  lemma ShareMore(i: nat, n: nat, k: nat)
    ensures Share(i, n, k + 1) == Share(i, n, k) + [i + k * n]
  {
  }

  lemma DealtOne(h: Hub, j: nat)
    requires HubInv(h) && !h.half && j < |h.shards|
    ensures var r := Next(h, Push); Got(r.shards[j]) == Share(j, |h.shards|, Portion(j, |h.shards|, h.dealt + 1))
  {
    var n, s := |h.shards|, h.shards[j];
    NextPortion(h.dealt, n, j);
    ShareMore(j, n, Portion(j, n, h.dealt));
    hide Portion, Share;
    if j == h.next { Assoc(s.adopted + s.batch, s.queue, h.dealt); }
  }

  lemma Assoc(x: seq<nat>, y: seq<nat>, z: nat)
    ensures x + (y + [z]) == x + y + [z]
  {
  }

  lemma PushInv(h: Hub)
    requires HubInv(h)
    ensures HubInv(Next(h, Push))
  {
    var r, n := Next(h, Push), |h.shards|;
    if !h.half {
      NextDivMod(h.dealt, n);
      assert r.next == r.dealt % n;
      forall j | 0 <= j < n ensures Got(r.shards[j]) == Share(j, n, Portion(j, n, r.dealt)) { DealtOne(h, j); }
      hide Portion, Share, Got;
    }
  }

  lemma GotKept(s: Shard, a: Move)
    ensures s.batch == [] || s.pc.Adopting? ==> Got(ShardStep(s, a)) == Got(s)
  {
  }

  lemma ShardMoveInv(h: Hub, a: Move)
    requires HubInv(h) && !a.Push? && !a.Write? && a.i < |h.shards|
    ensures HubInv(Next(h, a))
  {
    hide Share, Portion;
    GotKept(h.shards[a.i], a);
    hide Got;
  }

  lemma OtherInv(h: Hub, a: Move)
    requires HubInv(h) && !a.Push?
    ensures HubInv(Next(h, a))
  {
    hide Share, Portion;
    if !a.Write? && a.i < |h.shards| {
      ShardMoveInv(h, a);
      hide Next, HubInv;
    } else if a.Write? && h.half {
      assert Got(Next(h, a).shards[h.last]) == Got(h.shards[h.last]);
    }
  }

  lemma {:induction false} RunInv(shards: nat, moves: seq<Move>)
    ensures HubInv(Run(Open(shards), moves))
    decreases |moves|
  {
    if moves != [] {
      var k := Run(Open(shards), moves[..|moves| - 1]);
      RunInv(shards, moves[..|moves| - 1]);
      hide HubInv;
      if moves[|moves| - 1].Push? { PushInv(k); } else { OtherInv(k, moves[|moves| - 1]); }
    }
  }

  // ---- what every run keeps -------------------------------------------------------------------

  // While the shard sleeps and no push is half done, a queued descriptor means a readable pipe.
  lemma NothingStranded(shards: nat, moves: seq<Move>, i: nat)
    requires i < |Run(Open(shards), moves).shards|
    ensures var h := Run(Open(shards), moves);
            h.shards[i].pc.Waiting? && !h.half && h.shards[i].queue != [] ==> h.shards[i].bytes > 0
  {
    RunInv(shards, moves);
  }

  // Descriptor x is the (x / n)-th of those that shard x mod n was dealt ...
  ghost predicate Placed(h: Hub) {
    var n := |h.shards|;
    n > 0 && forall x :: 0 <= x < h.dealt ==> x / n < |Got(h.shards[x % n])| && Got(h.shards[x % n])[x / n] == x
  }

  // ... and is nowhere else.
  ghost predicate Belongs(h: Hub) {
    var n := |h.shards|;
    forall i, k :: 0 <= i < n && 0 <= k < |Got(h.shards[i])| ==>
      var x := Got(h.shards[i])[k]; x < h.dealt && x % n == i && x / n == k
  }

  ghost predicate Even(h: Hub) {
    forall i, j :: 0 <= i < |h.shards| && 0 <= j < |h.shards| ==> |Got(h.shards[i])| <= |Got(h.shards[j])| + 1
  }

  lemma ShareHolds(n: nat, d: nat, i: nat, k: nat)
    requires i < n && k < Portion(i, n, d)
    ensures i + k * n < d && (i + k * n) % n == i && (i + k * n) / n == k
  {
    Quotient(i + k * n, n, k, i);
    var q, r := d / n, d % n;
    assert d == q * n + r;
    Times(k + 1, q, n);
  }

  lemma PortionIs(i: nat, n: nat, d: nat)
    requires n > 0
    ensures Portion(i, n, d) == d / n + if i < d % n then 1 else 0
  {
  }

  lemma ShareCovers(n: nat, d: nat, x: nat)
    requires n > 0 && x < d
    ensures x / n < Portion(x % n, n, d) && x % n + (x / n) * n == x
  {
    var q, r, a, b := d / n, d % n, x / n, x % n;
    assert d == q * n + r && x == a * n + b && 0 <= b < n && 0 <= r < n;
    hide Portion;
    Times(q + 1, a, n);
    PortionIs(b, n, d);
  }

  // Every accepted descriptor is in exactly one place, whether adopted, taken or queued, and no
  // shard was dealt two more than another.
  lemma DealtRoundRobin(shards: nat, moves: seq<Move>)
    ensures var h := Run(Open(shards), moves); Placed(h) && Belongs(h) && Even(h)
  {
    var h := Run(Open(shards), moves);
    RunInv(shards, moves);
    hide Run, Heard, Got;
    assert Even(h);
    hide Portion;
    InvPlaced(h);
    InvBelongs(h);
  }

  lemma InvPlaced(h: Hub)
    requires HubInv(h)
    ensures Placed(h)
  {
    hide Heard, Got, Portion;
    var n := |h.shards|;
    forall x | 0 <= x < h.dealt
      ensures x / n < |Got(h.shards[x % n])| && Got(h.shards[x % n])[x / n] == x
    {
      ShareCovers(n, h.dealt, x);
    }
  }

  lemma InvBelongs(h: Hub)
    requires HubInv(h)
    ensures Belongs(h)
  {
    hide Heard, Got, Portion;
    var n := |h.shards|;
    forall i, k | 0 <= i < n && 0 <= k < |Got(h.shards[i])|
      ensures var x := Got(h.shards[i])[k]; x < h.dealt && x % n == i && x / n == k
    {
      ShareHolds(n, h.dealt, i, k);
    }
  }

  // ---- a shard catches up ---------------------------------------------------------------------

  // The steps a shard has left if nothing new arrives.
  function Behind(s: Shard): (k: nat) {
    var again := if s.bytes > 0 then s.bytes + 4 else 0;
    |s.queue| + |s.batch| +
    match s.pc
    case Waiting => again
    case Reading => s.bytes + 3
    case Swapping => again + 2
    case Adopting => again + 1
  }

  function Turn(s: Shard, i: nat): (a: Move) {
    match s.pc
    case Waiting => Wake(i)
    case Reading => Read(i)
    case Swapping => Swap(i)
    case Adopting => Adopt(i)
  }

  lemma StepCatchesUp(s: Shard, a: Move)
    requires s.batch != [] ==> s.pc.Adopting?
    ensures var r := ShardStep(s, a);
            (r == s || Behind(r) < Behind(s)) && (r.batch != [] ==> r.pc.Adopting?)
  {
  }

  function ShardRun(s: Shard, moves: seq<Move>): (r: Shard)
    decreases |moves|
  {
    if moves == [] then s else ShardStep(ShardRun(s, moves[..|moves| - 1]), moves[|moves| - 1])
  }

  function Steps(s: Shard, moves: seq<Move>): (k: nat)
    decreases |moves|
  {
    if moves == [] then 0
    else
      var rest := moves[..|moves| - 1];
      Steps(s, rest) + if ShardRun(s, moves) == ShardRun(s, rest) then 0 else 1
  }

  lemma {:induction false} CatchingUp(s: Shard, moves: seq<Move>)
    requires s.batch != [] ==> s.pc.Adopting?
    ensures var r := ShardRun(s, moves);
            (r.batch != [] ==> r.pc.Adopting?) && Steps(s, moves) + Behind(r) <= Behind(s)
    decreases |moves|
  {
    if moves != [] {
      hide ShardStep, Behind;
      CatchingUp(s, moves[..|moves| - 1]);
      StepCatchesUp(ShardRun(s, moves[..|moves| - 1]), moves[|moves| - 1]);
    }
  }

  // After the acceptor has finished its push, the shard takes at most Behind steps of its own, and
  // it can always take one until everything it was dealt is adopted.
  lemma ShardCatchesUp(shards: nat, moves: seq<Move>, i: nat, own: seq<Move>)
    requires var h := Run(Open(shards), moves); i < |h.shards| && !h.half
    ensures var s := Run(Open(shards), moves).shards[i];
            var r := ShardRun(s, own);
            && Steps(s, own) <= Behind(s)
            && (ShardStep(r, Turn(r, i)) == r ==> r.adopted == Got(s))
  {
    var h := Run(Open(shards), moves);
    RunInv(shards, moves);
    hide Run;
    CatchingUp(h.shards[i], own);
    StaysHeard(h.shards[i], own);
  }

  lemma {:induction false} StaysHeard(s: Shard, own: seq<Move>)
    requires s.queue != [] ==> s.bytes > 0 || s.pc.Reading? || s.pc.Swapping?
    requires s.batch != [] ==> s.pc.Adopting?
    ensures var r := ShardRun(s, own);
            && (r.queue != [] ==> r.bytes > 0 || r.pc.Reading? || r.pc.Swapping?)
            && (r.batch != [] ==> r.pc.Adopting?)
            && Got(r) == Got(s)
    decreases |own|
  {
    if own != [] {
      var k, a := ShardRun(s, own[..|own| - 1]), own[|own| - 1];
      StaysHeard(s, own[..|own| - 1]);
      GotKept(k, a);
      hide Got;
    }
  }

  // The inbox object: Store and Write are the two halves of push().
  class Box {
    var queue: seq<nat>
    var bytes: nat

    ghost predicate Shows(s: Shard)
      reads this
    {
      queue == s.queue && bytes == s.bytes
    }

    constructor ()
      ensures Shows(EMPTY_SHARD)
    {
      queue, bytes := [], 0;
    }

    method Store(fd: nat, ghost s: Shard)
      requires Shows(s)
      modifies this
      ensures Shows(s.(queue := s.queue + [fd]))
    {
      queue := queue + [fd];
    }

    method Write(ghost s: Shard)
      requires Shows(s)
      modifies this
      ensures Shows(s.(bytes := s.bytes + 1))
    {
      bytes := bytes + 1;
    }

    // The read loop of take_from_inbox, with nobody writing meanwhile: it ends with the pipe empty.
    method ReadAll(ghost s: Shard)
      requires Shows(s)
      modifies this
      ensures Shows(s.(bytes := 0))
    {
      while bytes > 0
        invariant queue == s.queue
      {
        bytes := if bytes < 256 then 0 else bytes - 256;
      }
    }

    method Drain(ghost s: Shard) returns (out: seq<nat>)
      requires Shows(s) && s.pc.Swapping?
      modifies this
      ensures Shows(ShardStep(s, Swap(0))) && out == ShardStep(s, Swap(0)).batch
    {
      out, queue := queue, [];
    }
  }
}
