// The response cache of src/cache.hpp: what a recency list with two limits does, stated on one
// sequence of entries, most recent first.
module LruSpec {
  import opened Basics


  datatype Entry = Entry(key: string, response: string)

  // Zero switches a limit off.
  datatype Limits = Limits(maxEntries: nat, maxBytes: nat)

  function Bytes(es: seq<Entry>): (n: nat) {
    if es == [] then 0 else |es[0].response| + Bytes(es[1..])
  }

  ghost predicate Has(es: seq<Entry>, key: string) {
    exists i :: 0 <= i < |es| && es[i].key == key
  }

  ghost predicate DistinctKeys(es: seq<Entry>) {
    forall i, j :: 0 <= i < j < |es| ==> es[i].key != es[j].key
  }

  function Lookup(es: seq<Entry>, key: string): (r: Option<string>)
    ensures r.Some? <==> Has(es, key)
    ensures r.Some? ==> Entry(key, r.value) in es
  {
    if es == [] then None
    else if es[0].key == key then Some(es[0].response)
    else
      var r := Lookup(es[1..], key);
      assert r.Some? ==> Entry(key, r.value) in es[1..];
      r
  }

  function Without(es: seq<Entry>, key: string): (r: seq<Entry>) {
    if es == [] then []
    else if es[0].key == key then es[1..]
    else [es[0]] + Without(es[1..], key)
  }

  predicate Fits(es: seq<Entry>, lim: Limits) {
    && (lim.maxEntries != 0 ==> |es| <= lim.maxEntries)
    && (lim.maxBytes != 0 ==> Bytes(es) <= lim.maxBytes)
  }

  // The eviction loop: drop the least recent entry until both limits hold.
  function Evict(es: seq<Entry>, lim: Limits): (r: seq<Entry>)
    ensures Fits(r, lim)
  {
    if es == [] || Fits(es, lim) then es else Evict(es[..|es| - 1], lim)
  }

  // A hit moves its entry to the front.
  function Touch(es: seq<Entry>, key: string): (r: seq<Entry>) {
    match Lookup(es, key)
    case None => es
    case Some(v) => [Entry(key, v)] + Without(es, key)
  }

  // A put of a known key replaces and moves to the front and does not evict; a new key evicts.
  function Put(es: seq<Entry>, key: string, response: string, lim: Limits): (r: seq<Entry>) {
    if Lookup(es, key).Some? then [Entry(key, response)] + Without(es, key)
    else Evict([Entry(key, response)] + es, lim)
  }

  // ---- runs -----------------------------------------------------------------------------------

  datatype Op = GetOp(key: string) | PutOp(key: string, response: string)

  datatype State = State(es: seq<Entry>, hits: nat, misses: nat)

  const EMPTY := State([], 0, 0)

  function Apply(s: State, op: Op, lim: Limits): (s': State) {
    match op
    case GetOp(k) =>
      if Lookup(s.es, k).Some? then State(Touch(s.es, k), s.hits + 1, s.misses)
      else s.(misses := s.misses + 1)
    case PutOp(k, v) => s.(es := Put(s.es, k, v, lim))
  }

  function Run(ops: seq<Op>, lim: Limits): (s: State) {
    if ops == [] then EMPTY else Apply(Run(ops[..|ops| - 1], lim), ops[|ops| - 1], lim)
  }
}

module LruProofs {
  import opened Basics
  import opened LruSpec

  // ---- facts about one sequence ---------------------------------------------------------------

  lemma {:induction false} WithoutMembers(es: seq<Entry>, key: string)
    requires DistinctKeys(es)
    ensures forall e :: e in Without(es, key) <==> e in es && e.key != key
  {
    if es != [] {
      assert es == [es[0]] + es[1..];
      if es[0].key != key {
        WithoutMembers(es[1..], key);
      } else {
        assert forall e :: e in es[1..] ==> e.key != key;
      }
    }
  }

  lemma {:induction false} WithoutFacts(es: seq<Entry>, key: string)
    requires DistinctKeys(es)
    ensures DistinctKeys(Without(es, key)) && !Has(Without(es, key), key)
    ensures |Without(es, key)| == if Has(es, key) then |es| - 1 else |es|
  {
    WithoutMembers(es, key);
    if es != [] && es[0].key != key {
      WithoutFacts(es[1..], key);
      WithoutMembers(es[1..], key);
      var rest := Without(es[1..], key);
      forall i | 0 <= i < |rest| ensures rest[i].key != es[0].key {
        assert rest[i] in es[1..];
      }
      HasTail(es, key);
    }
  }

  lemma HasTail(es: seq<Entry>, key: string)
    requires es != [] && es[0].key != key
    ensures Has(es, key) <==> Has(es[1..], key)
  {
    if Has(es, key) {
      var i :| 0 <= i < |es| && es[i].key == key;
      assert es[1..][i - 1].key == key;
    }
  }

  lemma {:induction false} BytesWithout(es: seq<Entry>, key: string)
    ensures Lookup(es, key).Some? ==> Bytes(es) == Bytes(Without(es, key)) + |Lookup(es, key).value|
    ensures Lookup(es, key).None? ==> Without(es, key) == es
  {
    hide Has;
    if es != [] && es[0].key != key {
      BytesWithout(es[1..], key);
      var rest := Without(es[1..], key);
      assert ([es[0]] + rest)[1..] == rest;
    }
  }

  lemma {:induction false} BytesPrefix(es: seq<Entry>, n: nat)
    requires n <= |es|
    ensures Bytes(es[..n]) <= Bytes(es)
  {
    if n > 0 {
      BytesPrefix(es[1..], n - 1);
      assert es[..n][1..] == es[1..][..n - 1];
    }
  }

  lemma BytesLast(es: seq<Entry>)
    requires es != []
    ensures Bytes(es) == Bytes(es[..|es| - 1]) + |es[|es| - 1].response|
  {
    if |es| > 1 {
      BytesLast(es[1..]);
      assert es[1..][..|es| - 2] == es[..|es| - 1][1..];
    }
  }

  lemma FrontFacts(e: Entry, es: seq<Entry>)
    requires DistinctKeys(es) && !Has(es, e.key)
    ensures DistinctKeys([e] + es)
  {
  }

  // ---- eviction -------------------------------------------------------------------------------

  // What the eviction loop leaves is the longest prefix, in recency order, that meets both limits.
  lemma {:induction false} EvictIsLongestFittingPrefix(es: seq<Entry>, lim: Limits)
    ensures Evict(es, lim) <= es && Fits(Evict(es, lim), lim)
    ensures forall n :: |Evict(es, lim)| < n <= |es| ==> !Fits(es[..n], lim)
  {
    if es != [] && !Fits(es, lim) {
      var shorter := es[..|es| - 1];
      EvictIsLongestFittingPrefix(shorter, lim);
      forall n | |Evict(es, lim)| < n <= |es| ensures !Fits(es[..n], lim) {
        if n == |es| { assert es[..n] == es; } else { assert shorter[..n] == es[..n]; }
      }
    } else {
      assert es[..|es|] == es;
    }
  }

  // With the byte limit off, one insertion drops at most the last entry.
  lemma EvictOne(es: seq<Entry>, cap: nat)
    requires cap != 0 ==> |es| <= cap + 1
    ensures Evict(es, Limits(cap, 0)) == if cap != 0 && |es| == cap + 1 then es[..cap] else es
  {
    if cap != 0 && |es| == cap + 1 { assert Evict(es[..cap], Limits(cap, 0)) == es[..cap]; }
  }

  // ---- every reachable state ------------------------------------------------------------------

  ghost predicate Good(s: State, lim: Limits) {
    && DistinctKeys(s.es)
    && (lim.maxEntries != 0 ==> |s.es| <= lim.maxEntries)
  }

  lemma PutIsGood(es: seq<Entry>, key: string, response: string, lim: Limits)
    requires Good(State(es, 0, 0), lim)
    ensures Good(State(Put(es, key, response, lim), 0, 0), lim)
    ensures !Has(es, key) ==> Fits(Put(es, key, response, lim), lim)
  {
    WithoutFacts(es, key);
    var e := Entry(key, response);
    if Has(es, key) {
      FrontFacts(e, Without(es, key));
    } else {
      FrontFacts(e, es);
      EvictIsLongestFittingPrefix([e] + es, lim);
    }
  }

  // After any sequence of gets and puts: keys are distinct, the entry limit holds and the counters
  // add up to the number of gets.
  lemma {:induction false} ReachableIsGood(ops: seq<Op>, lim: Limits)
    ensures Good(Run(ops, lim), lim)
    ensures Run(ops, lim).hits + Run(ops, lim).misses == |Gets(ops)|
  {
    if ops != [] {
      var before := ops[..|ops| - 1];
      ReachableIsGood(before, lim);
      var es := Run(before, lim).es;
      match ops[|ops| - 1]
      case GetOp(k) =>
        if Lookup(es, k).Some? {
          WithoutFacts(es, k);
          FrontFacts(Entry(k, Lookup(es, k).value), Without(es, k));
        }
      case PutOp(k, v) => PutIsGood(es, k, v, lim);
    }
  }

  // The gets of a run.
  function Gets(ops: seq<Op>): (gs: seq<Op>) {
    if ops == [] then []
    else Gets(ops[..|ops| - 1]) + if ops[|ops| - 1].GetOp? then [ops[|ops| - 1]] else []
  }

  // A put brings the byte total under its limit exactly when the key is new, the limit is off, or
  // the new total happens to fit: a replacing put returns before the eviction loop.
  lemma PutMeetsByteLimitIff(es: seq<Entry>, key: string, response: string, lim: Limits)
    requires DistinctKeys(es)
    ensures var prev := Lookup(es, key);
            (lim.maxBytes == 0 || Bytes(Put(es, key, response, lim)) <= lim.maxBytes) <==>
            (prev.None? || lim.maxBytes == 0 || Bytes(es) - |prev.value| + |response| <= lim.maxBytes)
  {
    BytesWithout(es, key);
    if Lookup(es, key).Some? {
      assert ([Entry(key, response)] + Without(es, key))[1..] == Without(es, key);
    }
  }

  // A concrete overshoot: one entry, replaced by a longer response.
  lemma ReplacingPutOvershoots()
    ensures var lim := Limits(0, 2);
            var s := Run([PutOp("k", "a"), PutOp("k", "abc")], lim);
            Bytes(s.es) == 3 > lim.maxBytes
  {
    var lim := Limits(0, 2);
    var ops := [PutOp("k", "a"), PutOp("k", "abc")];
    assert ops[..1] == [PutOp("k", "a")] && ops[..1][..0] == [];
    var one := [Entry("k", "a")];
    assert [Entry("k", "a")] + [] == one;
    assert Bytes(one) == 1;
    assert Run(ops[..1], lim).es == one;
    assert Without(one, "k") == [];
    assert Run(ops, lim).es == [Entry("k", "abc")] + [];
    assert Bytes([Entry("k", "abc")]) == 3;
  }

  // ---- a larger cache hits at least as often --------------------------------------------------

  // a is a subsequence of b.
  predicate Sub(a: seq<Entry>, b: seq<Entry>) {
    if a == [] then true
    else if b == [] then false
    else if a[0] == b[0] then Sub(a[1..], b[1..])
    else Sub(a, b[1..])
  }

  lemma {:induction false} SubMembers(a: seq<Entry>, b: seq<Entry>)
    requires Sub(a, b)
    ensures forall e :: e in a ==> e in b
    ensures |a| <= |b|
  {
    if a != [] {
      if a[0] == b[0] { SubMembers(a[1..], b[1..]); } else { SubMembers(a, b[1..]); }
      assert b == [b[0]] + b[1..] && a == [a[0]] + a[1..];
    }
  }

  lemma {:induction false} SubDropHead(a: seq<Entry>, b: seq<Entry>)
    requires a != [] && Sub(a, b)
    ensures Sub(a[1..], b)
    decreases |b|
  {
    if a[0] == b[0] {
      if a[1..] != [] {
        if a[1] == b[0] { SubDropHead(a[1..], b[1..]); }
      }
    } else {
      SubDropHead(a, b[1..]);
      if a[1..] != [] && a[1] == b[0] { SubDropHead(a[1..], b[1..]); }
    }
  }

  lemma {:induction false} SubTake(a: seq<Entry>, b: seq<Entry>, n: nat)
    requires n <= |a| && Sub(a, b)
    ensures Sub(a[..n], b)
    decreases |b|
  {
    if n > 0 {
      if a[0] == b[0] {
        SubTake(a[1..], b[1..], n - 1);
        assert a[..n][1..] == a[1..][..n - 1];
      } else {
        SubTake(a, b[1..], n);
      }
    }
  }

  // Dropping the last of b keeps a, unless a ends with it.
  lemma {:induction false} SubDropLast(a: seq<Entry>, b: seq<Entry>)
    requires b != [] && Sub(a, b)
    requires a == [] || a[|a| - 1] != b[|b| - 1]
    ensures Sub(a, b[..|b| - 1])
    decreases |b|
  {
    if a != [] {
      var short := b[..|b| - 1];
      if |b| > 1 { assert short[1..] == b[1..][..|b| - 2]; }
      if a[0] == b[0] {
        SubMembers(a[1..], b[1..]);
        SubDropLast(a[1..], b[1..]);
      } else {
        SubDropLast(a, b[1..]);
      }
    }
  }

  // Two different sequences with the same keys removed stay in step.
  lemma {:induction false} SubWithout(a: seq<Entry>, b: seq<Entry>, key: string)
    requires Sub(a, b) && DistinctKeys(a) && DistinctKeys(b)
    ensures Sub(Without(a, key), Without(b, key))
    decreases |b|
  {
    if a != [] {
      SubMembers(a, b);
      var b' := b[1..];
      if a[0] == b[0] {
        if b[0].key != key {
          SubWithout(a[1..], b', key);
          assert ([a[0]] + Without(a[1..], key))[1..] == Without(a[1..], key);
          assert ([b[0]] + Without(b', key))[1..] == Without(b', key);
        }
      } else if b[0].key == key {
        KeyAbsent(a, b, key);
      } else {
        SubWithout(a, b', key);
        var w, v := Without(a, key), Without(b', key);
        assert ([b[0]] + v)[1..] == v;
        if w != [] && w[0] == b[0] { SubDropHead(w, v); }
      }
    }
  }

  // If b starts with the key but a starts elsewhere, a holds no entry of that key.
  lemma KeyAbsent(a: seq<Entry>, b: seq<Entry>, key: string)
    requires a != [] && b != [] && Sub(a, b) && a[0] != b[0] && b[0].key == key && DistinctKeys(b)
    requires DistinctKeys(a)
    ensures Without(a, key) == a
  {
    SubMembers(a, b[1..]);
    forall e | e in a ensures e.key != key {
      assert e in b[1..];
    }
    BytesWithout(a, key);
  }

  // small and large hold the same keys as long as small has never been full.
  ghost predicate Included(small: seq<Entry>, large: seq<Entry>, cap: nat) {
    Sub(small, large) && (|small| == |large| || (cap != 0 && |small| == cap))
  }

  predicate NoSmaller(large: nat, small: nat) {
    large == 0 || (small != 0 && small <= large)
  }

  lemma SubSameValue(a: seq<Entry>, b: seq<Entry>, key: string)
    requires Sub(a, b) && DistinctKeys(b)
    ensures Lookup(a, key).Some? ==> Lookup(b, key) == Lookup(a, key)
  {
    if Lookup(a, key).Some? {
      SubMembers(a, b);
      var v := Lookup(a, key).value;
      assert Entry(key, v) in b;
      assert Lookup(b, key).Some? by {
        var i :| 0 <= i < |b| && b[i] == Entry(key, v);
        assert b[i].key == key;
      }
    }
  }

  lemma {:induction false} SubFull(a: seq<Entry>, b: seq<Entry>)
    requires Sub(a, b) && |a| == |b|
    ensures a == b
    decreases |b|
  {
    if a != [] {
      if a[0] == b[0] {
        SubFull(a[1..], b[1..]);
        assert a == [a[0]] + a[1..] && b == [b[0]] + b[1..];
      } else {
        SubMembers(a, b[1..]);
        assert false;
      }
    }
  }

  lemma InclusionKeptByTouch(small: seq<Entry>, large: seq<Entry>, cap: nat, key: string, v: string)
    requires Included(small, large, cap) && DistinctKeys(small) && DistinctKeys(large)
    requires Has(small, key) && Has(large, key)
    ensures Included([Entry(key, v)] + Without(small, key), [Entry(key, v)] + Without(large, key), cap)
  {
    SubWithout(small, large, key);
    WithoutFacts(small, key);
    WithoutFacts(large, key);
    Prepend(Entry(key, v), Without(small, key), Without(large, key));
  }

  lemma Prepend(e: Entry, a: seq<Entry>, b: seq<Entry>)
    requires Sub(a, b)
    ensures Sub([e] + a, [e] + b)
  {
    assert ([e] + a)[1..] == a && ([e] + b)[1..] == b;
  }

  // A hit in the large cache only: the small one does not move.
  lemma InclusionKeptByLargeTouch(small: seq<Entry>, large: seq<Entry>, cap: nat, key: string)
    requires Included(small, large, cap) && DistinctKeys(small) && DistinctKeys(large)
    requires !Has(small, key) && Has(large, key)
    ensures Included(small, Touch(large, key), cap)
  {
    SubWithout(small, large, key);
    WithoutFacts(large, key);
    BytesWithout(small, key);
    var e, rest := Entry(key, Lookup(large, key).value), Without(large, key);
    assert ([e] + rest)[1..] == rest;
    if |small| == |large| { SubFull(small, large); }
  }

  lemma InclusionKeptByNewPut(small: seq<Entry>, large: seq<Entry>, cap: nat, bigCap: nat, e: Entry)
    requires Included(small, large, cap) && NoSmaller(bigCap, cap)
    requires DistinctKeys(small) && DistinctKeys(large) && !Has(small, e.key)
    requires (cap != 0 ==> |small| <= cap) && (bigCap != 0 ==> |large| <= bigCap)
    ensures Included(Put(small, e.key, e.response, Limits(cap, 0)),
                     Put(large, e.key, e.response, Limits(bigCap, 0)), cap)
  {
    var s := [e] + small;
    EvictOne(s, cap);
    var s' := Evict(s, Limits(cap, 0));
    WithoutFacts(large, e.key);
    BytesWithout(small, e.key);
    if Has(large, e.key) {
      // The large cache only moves an entry; the small one inserts.
      SubWithout(small, large, e.key);
      var l := [e] + Without(large, e.key);
      Prepend(e, small, Without(large, e.key));
      SubTake(s, l, |s'|);
      assert s' == s[..|s'|];
      if |small| == |large| { SubFull(small, large); }
    } else {
      var l := [e] + large;
      EvictOne(l, bigCap);
      Prepend(e, small, large);
      SubTake(s, l, |s'|);
      assert s' == s[..|s'|];
      if bigCap != 0 && |l| == bigCap + 1 {
        NewPutEvictsBoth(small, large, cap, bigCap, e);
      }
    }
  }

  // When the large cache evicts, the small one is full and loses the same entry if it holds it.
  lemma NewPutEvictsBoth(small: seq<Entry>, large: seq<Entry>, cap: nat, bigCap: nat, e: Entry)
    requires Included(small, large, cap) && bigCap != 0 && cap != 0 && cap <= bigCap
    requires DistinctKeys(small) && DistinctKeys(large) && !Has(large, e.key)
    requires |small| <= cap && |large| == bigCap
    ensures |small| == cap && Sub(([e] + small)[..cap], ([e] + large)[..bigCap])
  {
    var s, l := [e] + small, [e] + large;
    Prepend(e, small, large);
    SubTake(s, l, cap);
    var s' := s[..cap];
    assert s' == [e] + small[..cap - 1];
    assert s'[cap - 1] != l[bigCap] by {
      if cap > 1 {
        LastComesLast(small, large, cap - 2);
      } else {
        assert l[bigCap] == large[bigCap - 1];
      }
    }
    SubDropLast(s', l);
  }

  // Nothing follows large's last entry in small.
  lemma {:induction false} LastComesLast(small: seq<Entry>, large: seq<Entry>, i: nat)
    requires large != [] && Sub(small, large) && DistinctKeys(large) && i < |small| - 1
    ensures small[i] != large[|large| - 1]
  {
    if i == 0 {
      HeadComesLast(small, large);
    } else {
      SubDropHead(small, large);
      LastComesLast(small[1..], large, i - 1);
    }
  }

  lemma {:induction false} HeadComesLast(small: seq<Entry>, large: seq<Entry>)
    requires large != [] && |small| > 1 && Sub(small, large) && DistinctKeys(large)
    ensures small[0] != large[|large| - 1]
    decreases |large|
  {
    if |large| > 1 && small[0] != large[0] {
      HeadComesLast(small, large[1..]);
    }
  }

  // Run against a smaller and a larger entry limit (byte limit off), the same gets and puts keep the
  // smaller cache a subsequence of the larger one, entry for entry.
  lemma {:induction false} SmallerIsIncluded(ops: seq<Op>, cap: nat, bigCap: nat)
    requires NoSmaller(bigCap, cap)
    ensures Included(Run(ops, Limits(cap, 0)).es, Run(ops, Limits(bigCap, 0)).es, cap)
  {
    if ops != [] {
      var before := ops[..|ops| - 1];
      SmallerIsIncluded(before, cap, bigCap);
      ReachableIsGood(before, Limits(cap, 0));
      ReachableIsGood(before, Limits(bigCap, 0));
      InclusionStep(Run(before, Limits(cap, 0)), Run(before, Limits(bigCap, 0)), ops[|ops| - 1], cap, bigCap);
    }
  }

  lemma InclusionStep(a: State, b: State, op: Op, cap: nat, bigCap: nat)
    requires NoSmaller(bigCap, cap) && Included(a.es, b.es, cap)
    requires Good(a, Limits(cap, 0)) && Good(b, Limits(bigCap, 0))
    ensures Included(Apply(a, op, Limits(cap, 0)).es, Apply(b, op, Limits(bigCap, 0)).es, cap)
  {
    hide Included, Sub, Without, DistinctKeys, Evict, Has;
    SubOf(a.es, b.es, cap);
    SubSameValue(a.es, b.es, op.key);
    match op
    case GetOp(k) =>
      if Lookup(a.es, k).Some? {
        InclusionKeptByTouch(a.es, b.es, cap, k, Lookup(a.es, k).value);
      } else if Lookup(b.es, k).Some? {
        InclusionKeptByLargeTouch(a.es, b.es, cap, k);
      }
    case PutOp(k, v) =>
      if Lookup(a.es, k).Some? {
        InclusionKeptByTouch(a.es, b.es, cap, k, v);
      } else {
        InclusionKeptByNewPut(a.es, b.es, cap, bigCap, Entry(k, v));
      }
  }

  lemma SubOf(a: seq<Entry>, b: seq<Entry>, cap: nat)
    requires Included(a, b, cap)
    ensures Sub(a, b)
  {
  }

  // So a hit in the smaller cache is a hit, with the same bytes, in the larger one, at every point
  // of every run.
  lemma LargerCacheHitsToo(ops: seq<Op>, cap: nat, bigCap: nat, key: string)
    requires NoSmaller(bigCap, cap)
    ensures var small, large := Lookup(Run(ops, Limits(cap, 0)).es, key), Lookup(Run(ops, Limits(bigCap, 0)).es, key);
            small.Some? ==> large == small
    ensures Run(ops, Limits(cap, 0)).hits <= Run(ops, Limits(bigCap, 0)).hits
  {
    SmallerIsIncluded(ops, cap, bigCap);
    ReachableIsGood(ops, Limits(bigCap, 0));
    SubSameValue(Run(ops, Limits(cap, 0)).es, Run(ops, Limits(bigCap, 0)).es, key);
    if ops != [] {
      var before := ops[..|ops| - 1];
      LargerCacheHitsToo(before, cap, bigCap, ops[|ops| - 1].key);
    }
  }
}
