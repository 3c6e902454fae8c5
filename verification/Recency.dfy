// What the cache holds after any run, told from the operations alone: the entries stand in the order of
// their last use, each with the response of its last put, and a put keeps exactly what still fits.
module Recency {
  import opened Basics
  import opened LruSpec
  import opened LruProofs

  // Operation `op` on a cache with entries `es` uses `key`: a put of it, or a get that finds it.
  ghost predicate Uses(op: Op, es: seq<Entry>, key: string) {
    op.key == key && (op.PutOp? || Has(es, key))
  }

  // The time of the last use of `key`, counting operations from 1; 0 if there is none.
  ghost function LastUse(ops: seq<Op>, lim: Limits, key: string): (t: nat)
    ensures t <= |ops|
  {
    if ops == [] then 0
    else if Uses(ops[|ops| - 1], Run(ops[..|ops| - 1], lim).es, key) then |ops|
    else LastUse(ops[..|ops| - 1], lim, key)
  }

  // The response of the last put of `key`.
  function LastPut(ops: seq<Op>, key: string): (r: Option<string>) {
    if ops == [] then None
    else if ops[|ops| - 1].PutOp? && ops[|ops| - 1].key == key then Some(ops[|ops| - 1].response)
    else LastPut(ops[..|ops| - 1], key)
  }

  // ---- one operation --------------------------------------------------------------------------

  // What Without leaves, in order.
  lemma {:induction false} WithoutOrder(es: seq<Entry>, key: string, i: nat, j: nat)
    requires i < j < |Without(es, key)|
    ensures exists a, b :: 0 <= a < b < |es| && es[a] == Without(es, key)[i] && es[b] == Without(es, key)[j]
  {
    var r := Without(es, key);
    if es[0].key == key {
      assert es[i + 1] == r[i] && es[j + 1] == r[j];
    } else if i == 0 {
      WithoutHas(es[1..], key, j - 1);
      var b :| 0 <= b < |es[1..]| && es[1..][b] == Without(es[1..], key)[j - 1];
      assert es[0] == r[0] && es[b + 1] == r[j];
    } else {
      WithoutOrder(es[1..], key, i - 1, j - 1);
      var a, b :| 0 <= a < b < |es[1..]| && es[1..][a] == Without(es[1..], key)[i - 1] && es[1..][b] == Without(es[1..], key)[j - 1];
      assert es[a + 1] == r[i] && es[b + 1] == r[j];
    }
  }

  lemma {:induction false} WithoutHas(es: seq<Entry>, key: string, j: nat)
    requires j < |Without(es, key)|
    ensures exists b :: 0 <= b < |es| && es[b] == Without(es, key)[j]
  {
    var r := Without(es, key);
    if es[0].key == key {
      assert es[j + 1] == r[j];
    } else if j == 0 {
      assert es[0] == r[0];
    } else {
      WithoutHas(es[1..], key, j - 1);
      var b :| 0 <= b < |es[1..]| && es[1..][b] == Without(es[1..], key)[j - 1];
      assert es[b + 1] == r[j];
    }
  }

  // The entries stand by decreasing last use.
  ghost predicate Ordered(es: seq<Entry>, ops: seq<Op>, lim: Limits) {
    && (forall i :: 0 <= i < |es| ==> LastUse(ops, lim, es[i].key) > 0)
    && (forall i, j :: 0 <= i < j < |es| ==> LastUse(ops, lim, es[i].key) > LastUse(ops, lim, es[j].key))
  }

  // Each entry holds what was put last.
  ghost predicate Current(es: seq<Entry>, ops: seq<Op>) {
    forall i :: 0 <= i < |es| ==> LastPut(ops, es[i].key) == Some(es[i].response)
  }

  // Using a key and putting its entry in front keeps the order.
  lemma FrontOrdered(rest: seq<Entry>, ops: seq<Op>, op: Op, lim: Limits, e: Entry)
    requires Ordered(rest, ops, lim) && op.key == e.key && Uses(op, Run(ops, lim).es, e.key)
    requires forall i :: 0 <= i < |rest| ==> rest[i].key != e.key
    ensures Ordered([e] + rest, ops + [op], lim)
  {
    var all := ops + [op];
    assert all[..|all| - 1] == ops;
    assert LastUse(all, lim, e.key) == |all|;
    forall i | 0 <= i < |rest| ensures LastUse(all, lim, rest[i].key) == LastUse(ops, lim, rest[i].key) { }
  }

  lemma WithoutOrdered(es: seq<Entry>, ops: seq<Op>, lim: Limits, key: string)
    requires Ordered(es, ops, lim)
    ensures Ordered(Without(es, key), ops, lim)
  {
    var r := Without(es, key);
    hide LastUse, Without;
    forall i | 0 <= i < |r| ensures LastUse(ops, lim, r[i].key) > 0 {
      WithoutHas(es, key, i);
    }
    forall i, j | 0 <= i < j < |r| ensures LastUse(ops, lim, r[i].key) > LastUse(ops, lim, r[j].key) {
      WithoutOrder(es, key, i, j);
    }
  }

  lemma PrefixOrdered(es: seq<Entry>, n: nat, ops: seq<Op>, lim: Limits)
    requires Ordered(es, ops, lim) && n <= |es|
    ensures Ordered(es[..n], ops, lim)
  {
    hide LastUse;
  }

  // A put of a new key keeps exactly the most recent entries that fit together with the new one.
  lemma NewPutKeeps(es: seq<Entry>, key: string, response: string, lim: Limits)
    requires !Has(es, key)
    ensures var all, r := [Entry(key, response)] + es, Put(es, key, response, lim);
            && |r| <= |all| && r == all[..|r|] && forall n :: 0 <= n <= |all| ==> (n <= |r| <==> Fits(all[..n], lim))
  {
    var all, r := [Entry(key, response)] + es, Put(es, key, response, lim);
    EvictIsLongestFittingPrefix(all, lim);
    forall n | 0 <= n <= |r| ensures Fits(all[..n], lim) {
      BytesPrefix(r, n);
      assert r[..n] == all[..n];
    }
  }

  // ---- every run ------------------------------------------------------------------------------

  lemma OneMore(ops: seq<Op>, op: Op, lim: Limits)
    ensures Run(ops + [op], lim) == Apply(Run(ops, lim), op, lim)
  {
    hide Apply;
    assert (ops + [op])[..|ops|] == ops;
  }

  lemma KeyGone(es: seq<Entry>, key: string)
    requires DistinctKeys(es)
    ensures forall i :: 0 <= i < |Without(es, key)| ==> Without(es, key)[i].key != key
  {
    WithoutFacts(es, key);
    hide Without;
  }

  // Nothing is used: the order and the values stay.
  lemma MissKeeps(ops: seq<Op>, key: string, lim: Limits)
    requires var es := Run(ops, lim).es; !Has(es, key) && Ordered(es, ops, lim) && Current(es, ops)
    ensures var es, all := Run(ops, lim).es, ops + [GetOp(key)]; Ordered(es, all, lim) && Current(es, all)
  {
    var es, all := Run(ops, lim).es, ops + [GetOp(key)];
    assert all[..|all| - 1] == ops;
    forall i | 0 <= i < |es|
      ensures LastUse(all, lim, es[i].key) == LastUse(ops, lim, es[i].key) && LastPut(all, es[i].key) == LastPut(ops, es[i].key)
    {
    }
    hide LastUse, LastPut;
  }

  lemma FrontCurrent(rest: seq<Entry>, ops: seq<Op>, op: Op, e: Entry)
    requires Current(rest, ops) && op.key == e.key
    requires if op.PutOp? then op.response == e.response else LastPut(ops, e.key) == Some(e.response)
    requires forall i :: 0 <= i < |rest| ==> rest[i].key != e.key
    ensures Current([e] + rest, ops + [op])
  {
    var all := ops + [op];
    assert all[..|all| - 1] == ops;
    forall i | 0 <= i < |rest| ensures LastPut(all, rest[i].key) == LastPut(ops, rest[i].key) { }
  }

  lemma WithoutCurrent(es: seq<Entry>, ops: seq<Op>, key: string)
    requires Current(es, ops)
    ensures Current(Without(es, key), ops)
  {
    var r := Without(es, key);
    hide LastPut, Without;
    forall i | 0 <= i < |r| ensures LastPut(ops, r[i].key) == Some(r[i].response) { WithoutHas(es, key, i); }
  }

  // Moving a used key to the front, with the response it now has.
  lemma FrontKeeps(ops: seq<Op>, op: Op, lim: Limits, e: Entry)
    requires var es := Run(ops, lim).es; Ordered(es, ops, lim) && Current(es, ops) && DistinctKeys(es)
    requires op.key == e.key && Uses(op, Run(ops, lim).es, e.key)
    requires if op.PutOp? then op.response == e.response else LastPut(ops, e.key) == Some(e.response)
    ensures var r := [e] + Without(Run(ops, lim).es, e.key); Ordered(r, ops + [op], lim) && Current(r, ops + [op])
  {
    hide LastUse, LastPut, Without, Run;
    var es := Run(ops, lim).es;
    WithoutOrdered(es, ops, lim, e.key);
    WithoutCurrent(es, ops, e.key);
    KeyGone(es, e.key);
    FrontOrdered(Without(es, e.key), ops, op, lim, e);
    FrontCurrent(Without(es, e.key), ops, op, e);
  }

  lemma NewKeyKeeps(ops: seq<Op>, op: Op, lim: Limits)
    requires var es := Run(ops, lim).es; Ordered(es, ops, lim) && Current(es, ops) && op.PutOp? && !Has(es, op.key)
    ensures var r := Put(Run(ops, lim).es, op.key, op.response, lim); Ordered(r, ops + [op], lim) && Current(r, ops + [op])
  {
    hide LastUse, LastPut, Run;
    var es, e := Run(ops, lim).es, Entry(op.key, op.response);
    NewPutKeeps(es, op.key, op.response, lim);
    hide Put;
    FrontOrdered(es, ops, op, lim, e);
    FrontCurrent(es, ops, op, e);
    PrefixOrdered([e] + es, |Put(es, op.key, op.response, lim)|, ops + [op], lim);
  }

  lemma ValueOf(es: seq<Entry>, ops: seq<Op>, key: string)
    requires Current(es, ops) && Lookup(es, key).Some?
    ensures LastPut(ops, key) == Some(Lookup(es, key).value)
  {
    hide LastPut, Lookup;
  }

  // After any operations the entries stand in the order of their last use, and each holds the response
  // that was put last under its key.
  lemma {:induction false} EntriesAreByRecency(ops: seq<Op>, lim: Limits)
    ensures var es := Run(ops, lim).es; Ordered(es, ops, lim) && Current(es, ops)
  {
    hide LastUse, LastPut, Without, Evict;
    if ops != [] {
      var before, op := ops[..|ops| - 1], ops[|ops| - 1];
      assert ops == before + [op];
      EntriesAreByRecency(before, lim);
      ReachableIsGood(before, lim);
      OneMore(before, op, lim);
      hide Run, Put;
      var es := Run(before, lim).es;
      match op
      case GetOp(k) =>
        if Lookup(es, k).Some? {
          ValueOf(es, before, k);
          FrontKeeps(before, op, lim, Entry(k, Lookup(es, k).value));
        } else {
          MissKeeps(before, k, lim);
        }
      case PutOp(k, v) =>
        PutCases(es, k, v, lim);
        if Has(es, k) { FrontKeeps(before, op, lim, Entry(k, v)); } else { NewKeyKeeps(before, op, lim); }
    }
  }

  lemma PutCases(es: seq<Entry>, key: string, response: string, lim: Limits)
    ensures Has(es, key) ==> Put(es, key, response, lim) == [Entry(key, response)] + Without(es, key)
  {
  }

  // A put is found at once with its response, if and only if the key was there or the response alone
  // meets the limits.
  lemma PutIsFoundIff(ops: seq<Op>, key: string, response: string, lim: Limits)
    ensures Lookup(Run(ops + [PutOp(key, response)], lim).es, key)
         == if Has(Run(ops, lim).es, key) || Fits([Entry(key, response)], lim) then Some(response) else None
  {
    OneMore(ops, PutOp(key, response), lim);
    hide Run;
    var es, e := Run(ops, lim).es, Entry(key, response);
    var r := Put(es, key, response, lim);
    if Has(es, key) {
      assert r[0] == e;
    } else {
      NewPutKeeps(es, key, response, lim);
      assert ([e] + es)[..1] == [e];
      assert |r| >= 1 ==> r[0] == e;
    }
  }

  // Which of the other entries a put keeps: of the i-th most recent, if the key was there, all; if it
  // is new, exactly those that fit together with the new entry and everything more recent.
  lemma PutKeepsExactly(ops: seq<Op>, key: string, response: string, lim: Limits, i: nat)
    requires i < |Run(ops, lim).es| && Run(ops, lim).es[i].key != key
    ensures var es, r := Run(ops, lim).es, Run(ops + [PutOp(key, response)], lim).es;
            es[i] in r <==> Has(es, key) || Fits([Entry(key, response)] + es[..i + 1], lim)
  {
    OneMore(ops, PutOp(key, response), lim);
    ReachableIsGood(ops, lim);
    hide Run;
    var es, e := Run(ops, lim).es, Entry(key, response);
    if Has(es, key) {
      WithoutMembers(es, key);
      PutCases(es, key, response, lim);
      hide Put, Without;
    } else {
      NewPutKeeps(es, key, response, lim);
      hide Put, Fits;
      KeptIff(es, e, Put(es, key, response, lim), i);
      assert ([e] + es)[..i + 2] == [e] + es[..i + 1];
    }
  }

  lemma KeptIff(es: seq<Entry>, e: Entry, r: seq<Entry>, i: nat)
    requires DistinctKeys(es) && i < |es| && es[i].key != e.key && |r| <= |es| + 1 && r == ([e] + es)[..|r|]
    ensures es[i] in r <==> i + 2 <= |r|
  {
    if es[i] in r {
      var j :| 0 <= j < |r| && r[j] == es[i];
      assert j > 0 && es[j - 1] == es[i];
    }
    if i + 2 <= |r| { assert r[i + 1] == es[i]; }
  }

  // A get changes the order only.
  lemma GetKeepsAll(ops: seq<Op>, key: string, lim: Limits, e: Entry)
    ensures e in Run(ops + [GetOp(key)], lim).es <==> e in Run(ops, lim).es
  {
    OneMore(ops, GetOp(key), lim);
    ReachableIsGood(ops, lim);
    hide Run;
    var es := Run(ops, lim).es;
    if Lookup(es, key).Some? {
      WithoutMembers(es, key);
      hide Without;
      var v := Lookup(es, key).value;
      assert e in [Entry(key, v)] + Without(es, key) <==> e == Entry(key, v) || e in Without(es, key);
      if e.key == key && e in es { SameKeySame(es, e, Entry(key, v)); }
    }
  }

  lemma SameKeySame(es: seq<Entry>, a: Entry, b: Entry)
    requires DistinctKeys(es) && a in es && b in es && a.key == b.key
    ensures a == b
  {
  }

  // ---- the statistics -------------------------------------------------------------------------

  // How many gets found their key.
  ghost function FoundGets(ops: seq<Op>, lim: Limits): (n: nat) {
    if ops == [] then 0
    else
      var before, op := ops[..|ops| - 1], ops[|ops| - 1];
      FoundGets(before, lim) + if op.GetOp? && Has(Run(before, lim).es, op.key) then 1 else 0
  }

  // hits() counts exactly those, and misses() the other gets.
  lemma {:induction false} HitsAreFoundGets(ops: seq<Op>, lim: Limits)
    ensures Run(ops, lim).hits == FoundGets(ops, lim) && Run(ops, lim).misses == |Gets(ops)| - FoundGets(ops, lim)
  {
    hide Touch, Put, Has;
    if ops != [] {
      HitsAreFoundGets(ops[..|ops| - 1], lim);
    }
  }
}
