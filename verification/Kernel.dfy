// A small model of the operating system under the event loop: descriptor numbers that are reused,
// one kqueue table, and other threads that open and close descriptors of their own at any time.
module Kernel {
  import opened Basics
  import opened ConnMachine

  datatype Key = Key(num: nat, write: bool)

  // The udata of a registration: the listener or hand-off pipe, or a connection's address.
  datatype Tag = SourceTag | ConnTag(ptr: nat)

  // A registration remembers which opening of the number it was made for.
  datatype Reg = Reg(gen: nat, tag: Tag)

  // `held` are the resolver pipes that a resolver job still refers to.
  datatype World = World(open: map<nat, nat>, nextGen: nat, kq: map<Key, Reg>, held: set<Desc>)

  predicate IsOpen(w: World, d: Desc) { d.num in w.open && w.open[d.num] == d.gen }

  // close(): the number becomes free and its registrations are gone.
  function Close(w: World, d: Desc): (v: World) {
    if IsOpen(w, d)
    then w.(open := w.open - {d.num}, kq := map k | k in w.kq && k.num != d.num :: w.kq[k])
    else w
  }

  // The lowest free number, or any other: the kernel hands out a number that is not in use.
  predicate CanOpen(w: World, d: Desc) { d.num !in w.open && d.gen == w.nextGen }

  function Open(w: World, d: Desc): (v: World)
    requires CanOpen(w, d)
  {
    w.(open := w.open[d.num := d.gen], nextGen := w.nextGen + 1)
  }

  // kevent(EV_ADD): replaces what was registered under the key.
  function Arm(w: World, k: Key, tag: Tag): (v: World)
    requires k.num in w.open
  {
    w.(kq := w.kq[k := Reg(w.open[k.num], tag)])
  }

  // kevent(EV_DELETE): deletes by number and filter, whoever registered it; ENOENT is ignored.
  function Disarm(w: World, k: Key): (v: World) { w.(kq := w.kq - {k}) }

  ghost predicate WorldInv(w: World) {
    && (forall k :: k in w.kq ==> k.num in w.open && w.open[k.num] == w.kq[k].gen)
    && (forall n :: n in w.open ==> w.open[n] < w.nextGen)
    && (forall d :: d in w.held ==> IsOpen(w, d))
  }

  // ---- other threads --------------------------------------------------------------------------

  datatype Other =
    | OtherOpens(num: nat)
    | OtherCloses(d: Desc)
    | ResolverReleases(d: Desc)  // a resolver thread drops its reference to a job

  // `mine` are the descriptors the loop's thread owns; other threads do not close those.
  function OtherStep(w: World, mine: set<Desc>, o: Other): (v: World) {
    match o
    case OtherOpens(num) => if num in w.open then w else Open(w, Desc(num, w.nextGen))
    case OtherCloses(d) => if d in mine || d in w.held then w else Close(w, d)
    case ResolverReleases(d) =>
      if d !in w.held then w
      else if d in mine then w.(held := w.held - {d})
      else Close(w.(held := w.held - {d}), d)
  }

  function OtherSteps(w: World, mine: set<Desc>, os: seq<Other>): (v: World) {
    if os == [] then w else OtherStep(OtherSteps(w, mine, os[..|os| - 1]), mine, os[|os| - 1])
  }

  // What may have happened to the world while descriptors outside `keep` came and went: `keep` is
  // untouched, what is newly open is new, and exactly the registrations of closed descriptors are
  // gone.
  ghost predicate Drift(w: World, keep: set<Desc>, v: World) {
    && WorldInv(v) && w.nextGen <= v.nextGen
    && (forall d :: d in v.held ==> d in w.held || w.nextGen <= d.gen)
    && (forall d :: d in keep && IsOpen(w, d) ==> IsOpen(v, d))
    && (forall d :: IsOpen(v, d) && d.gen < w.nextGen ==> IsOpen(w, d))
    && (forall k :: k in v.kq ==> k in w.kq && v.kq[k] == w.kq[k])
    && (forall k :: k in w.kq && IsOpen(v, Desc(k.num, w.kq[k].gen)) ==> k in v.kq)
  }

  lemma DriftTransitive(u: World, keep: set<Desc>, v: World, w: World)
    requires WorldInv(u) && Drift(u, keep, v) && Drift(v, keep, w)
    ensures Drift(u, keep, w)
  {
    forall k | k in u.kq && IsOpen(w, Desc(k.num, u.kq[k].gen)) ensures k in w.kq {
      assert u.kq[k].gen < v.nextGen;
    }
  }

  lemma CloseDrifts(w: World, keep: set<Desc>, d: Desc)
    requires WorldInv(w) && d !in keep && d !in w.held
    ensures Drift(w, keep, Close(w, d))
  {
    var v := Close(w, d);
    if IsOpen(w, d) {
      forall e | e != d && IsOpen(w, e) ensures IsOpen(v, e) {
        assert e.num != d.num;
      }
    }
  }

  // A new resolver pipe: the job keeps a reference to it from the start.
  function Hold(w: World, d: Desc): (v: World) { w.(held := w.held + {d}) }

  lemma HoldDrifts(w: World, keep: set<Desc>, d: Desc)
    requires WorldInv(w) && CanOpen(w, d)
    ensures Drift(w, keep, Hold(Open(w, d), d))
  {
  }

  lemma DriftNarrows(w: World, keep: set<Desc>, less: set<Desc>, v: World)
    requires Drift(w, keep, v) && less <= keep
    ensures Drift(w, less, v)
  {
  }

  lemma OpenDrifts(w: World, keep: set<Desc>, d: Desc)
    requires WorldInv(w) && CanOpen(w, d)
    ensures Drift(w, keep, Open(w, d)) && IsOpen(Open(w, d), d)
  {
  }

  lemma OtherDrifts(w: World, keep: set<Desc>, o: Other)
    requires WorldInv(w)
    ensures Drift(w, keep, OtherStep(w, keep, o))
  {
    hide Close;
    match o
    case OtherOpens(num) => if num !in w.open { OpenDrifts(w, keep, Desc(num, w.nextGen)); }
    case OtherCloses(d) => if d !in keep && d !in w.held { CloseDrifts(w, keep, d); }
    case ResolverReleases(d) =>
      if d in w.held {
        var u := w.(held := w.held - {d});
        assert Drift(w, keep, u);
        if d !in keep {
          CloseDrifts(u, keep, d);
          DriftTransitive(w, keep, u, Close(u, d));
        }
      }
  }

  lemma {:induction false} OthersDrift(w: World, keep: set<Desc>, os: seq<Other>)
    requires WorldInv(w)
    ensures Drift(w, keep, OtherSteps(w, keep, os))
  {
    hide Drift, OtherStep;
    if os == [] {
      DriftReflexive(w, keep);
    } else {
      var before := os[..|os| - 1];
      OthersDrift(w, keep, before);
      DriftGivesInv(w, keep, OtherSteps(w, keep, before));
      OtherDrifts(OtherSteps(w, keep, before), keep, os[|os| - 1]);
      DriftTransitive(w, keep, OtherSteps(w, keep, before), OtherSteps(w, keep, os));
    }
  }

  lemma DriftReflexive(w: World, keep: set<Desc>)
    requires WorldInv(w)
    ensures Drift(w, keep, w)
  {
  }

  lemma DriftGivesInv(w: World, keep: set<Desc>, v: World)
    requires Drift(w, keep, v)
    ensures WorldInv(v)
  {
  }
}
