// LruCacheImpl of src/cache.hpp: a list of nodes in recency order and an index from key to node,
// updated in place, proved to act as one recency sequence.
module LruCache {
  import opened Basics
  import opened LruSpec
  import opened LruProofs

  // A list node is a number; `order` lists the nodes front to back, `node` holds their contents.
  // Splicing moves a node without renaming it, which is what keeps the index valid.
  ghost predicate Linked(order: seq<nat>, node: map<nat, Entry>) {
    && (forall i :: 0 <= i < |order| ==> order[i] in node)
    && (forall i, j :: 0 <= i < j < |order| ==> order[i] != order[j])
    && (forall id :: id in node ==> id in order)
  }

  // The index names every node under its key, and nothing else.
  ghost predicate Indexed(node: map<nat, Entry>, index: map<string, nat>) {
    && (forall id :: id in node ==> node[id].key in index && index[node[id].key] == id)
    && (forall k :: k in index ==> index[k] in node && node[index[k]].key == k)
  }

  ghost predicate InStep(order: seq<nat>, node: map<nat, Entry>, index: map<string, nat>) {
    Linked(order, node) && Indexed(node, index) && |index| == |order|
  }

  ghost function Items(order: seq<nat>, node: map<nat, Entry>): (es: seq<Entry>)
    requires Linked(order, node)
    ensures |es| == |order|
    ensures forall i :: 0 <= i < |order| ==> es[i] == node[order[i]]
  {
    seq(|order|, i requires 0 <= i < |order| => node[order[i]])
  }

  function Position(order: seq<nat>, id: nat): (p: nat)
    requires id in order
    ensures p < |order| && order[p] == id
  {
    if order[0] == id then 0 else 1 + Position(order[1..], id)
  }

  // std::list::splice to the front.
  function Spliced(order: seq<nat>, p: nat): (r: seq<nat>)
    requires p < |order|
  {
    [order[p]] + order[..p] + order[p + 1..]
  }

  lemma ItemsDistinct(order: seq<nat>, node: map<nat, Entry>, index: map<string, nat>)
    requires Linked(order, node) && Indexed(node, index)
    ensures DistinctKeys(Items(order, node))
  {
  }

  lemma {:induction false} WithoutAt(es: seq<Entry>, p: nat)
    requires p < |es| && DistinctKeys(es)
    ensures Without(es, es[p].key) == es[..p] + es[p + 1..]
    ensures Lookup(es, es[p].key) == Some(es[p].response)
  {
    if p > 0 {
      WithoutAt(es[1..], p - 1);
      assert [es[0]] + (es[1..][..p - 1] + es[1..][p..]) == es[..p] + es[p + 1..];
    }
  }

  lemma SplicedAt(order: seq<nat>, p: nat)
    requires p < |order|
    ensures |Spliced(order, p)| == |order|
    ensures forall i {:trigger Spliced(order, p)[i]} :: 0 <= i < |order| ==>
              Spliced(order, p)[i] == if i == 0 then order[p] else if i <= p then order[i - 1] else order[i]
  {
  }

  lemma SplicedIsLinked(order: seq<nat>, node: map<nat, Entry>, p: nat)
    requires Linked(order, node) && p < |order|
    ensures Linked(Spliced(order, p), node)
  {
    hide Spliced;
    var r := Spliced(order, p);
    SplicedAt(order, p);
    forall id | id in node ensures id in r {
      var i :| 0 <= i < |order| && order[i] == id;
      assert r[if i == p then 0 else if i < p then i + 1 else i] == id;
    }
  }

  lemma SplicedItems(order: seq<nat>, node: map<nat, Entry>, p: nat)
    requires Linked(order, node) && p < |order| && Linked(Spliced(order, p), node)
    ensures Items(Spliced(order, p), node) == [node[order[p]]] + (Items(order, node)[..p] + Items(order, node)[p + 1..])
  {
    hide Spliced;
    SplicedAt(order, p);
  }

  lemma PushedInStep(order: seq<nat>, node: map<nat, Entry>, index: map<string, nat>, id: nat, e: Entry)
    requires InStep(order, node, index) && id !in node && e.key !in index
    ensures InStep([id] + order, node[id := e], index[e.key := id])
    ensures Items([id] + order, node[id := e]) == [e] + Items(order, node)
  {
    PushedIsLinked(order, node, id, e);
    hide Linked;
  }

  lemma PushedIsLinked(order: seq<nat>, node: map<nat, Entry>, id: nat, e: Entry)
    requires Linked(order, node) && id !in node
    ensures Linked([id] + order, node[id := e])
    ensures Items([id] + order, node[id := e]) == [e] + Items(order, node)
  {
    forall x | x in node[id := e] ensures x in [id] + order {
      if x != id { var i :| 0 <= i < |order| && order[i] == x; assert ([id] + order)[i + 1] == x; }
      else { assert ([id] + order)[0] == x; }
    }
  }

  lemma PoppedIsLinked(order: seq<nat>, node: map<nat, Entry>)
    requires Linked(order, node) && order != []
    ensures var last := order[|order| - 1];
            && Linked(order[..|order| - 1], node - {last})
            && Items(order[..|order| - 1], node - {last}) == Items(order, node)[..|order| - 1]
  {
    var n := |order| - 1;
    forall id | id in node - {order[n]} ensures id in order[..n] {
      var i :| 0 <= i < |order| && order[i] == id;
      assert order[..n][i] == id;
    }
  }

  lemma PoppedInStep(order: seq<nat>, node: map<nat, Entry>, index: map<string, nat>)
    requires InStep(order, node, index) && order != []
    ensures var last := order[|order| - 1];
            && last in node
            && InStep(order[..|order| - 1], node - {last}, index - {node[last].key})
            && Items(order[..|order| - 1], node - {last}) == Items(order, node)[..|order| - 1]
  {
    hide Linked, Items;
    InOrder(order, node, |order| - 1);
    PoppedIsLinked(order, node);
    var key := node[order[|order| - 1]].key;
    assert (index - {key}).Keys == index.Keys - {key};
  }

  // What the index says about a key is what a search of the list says.
  lemma IndexIsLookup(order: seq<nat>, node: map<nat, Entry>, index: map<string, nat>, key: string)
    requires InStep(order, node, index)
    ensures key in index <==> Lookup(Items(order, node), key).Some?
    ensures key in index ==> Lookup(Items(order, node), key) == Some(node[index[key]].response)
  {
    ItemsDistinct(order, node, index);
    if key in index {
      WithoutAt(Items(order, node), Position(order, index[key]));
    }
  }

  // Overwriting the response in a node leaves keys and links alone.
  lemma RewrittenInStep(order: seq<nat>, node: map<nat, Entry>, index: map<string, nat>, p: nat, response: string)
    requires InStep(order, node, index) && p < |order|
    ensures var node' := node[order[p] := Entry(node[order[p]].key, response)];
            && InStep(order, node', index)
            && Items(order, node')[..p] == Items(order, node)[..p]
            && Items(order, node')[p + 1..] == Items(order, node)[p + 1..]
  {
  }

  // Moving a node to the front, with its response overwritten or not.
  lemma MovedToFront(order: seq<nat>, node: map<nat, Entry>, index: map<string, nat>, p: nat, response: string)
    requires InStep(order, node, index) && p < |order|
    ensures var key := node[order[p]].key;
            var node' := node[order[p] := Entry(key, response)];
            && InStep(Spliced(order, p), node', index)
            && Items(Spliced(order, p), node') == [Entry(key, response)] + Without(Items(order, node), key)
  {
    hide Linked, Indexed, Spliced, Items, Without, Lookup;
    InOrder(order, node, p);
    var node' := node[order[p] := Entry(node[order[p]].key, response)];
    RewrittenInStep(order, node, index, p, response);
    SplicedIsLinked(order, node', p);
    SplicedItems(order, node', p);
    SplicedAt(order, p);
    ItemsDistinct(order, node, index);
    WithoutAt(Items(order, node), p);
  }

  lemma InOrder(order: seq<nat>, node: map<nat, Entry>, p: nat)
    requires Linked(order, node) && p < |order|
    ensures order[p] in node
  {
  }

  // The index leads to a node that is in the list and carries the key.
  lemma IndexedNode(order: seq<nat>, node: map<nat, Entry>, index: map<string, nat>, key: string)
    requires InStep(order, node, index) && key in index
    ensures index[key] in node && index[key] in order && node[index[key]].key == key
  {
  }

  lemma FrontBytes(e: Entry, es: seq<Entry>)
    ensures Bytes([e] + es) == |e.response| + Bytes(es)
  {
    assert ([e] + es)[1..] == es;
  }

  // One turn of the eviction loop; an empty list meets every limit.
  lemma EvictStep(es: seq<Entry>, lim: Limits)
    ensures Fits(es, lim) ==> Evict(es, lim) == es
    ensures !Fits(es, lim) ==> es != [] && Evict(es, lim) == Evict(es[..|es| - 1], lim)
  {
  }

  class LruCacheImpl {
    const limits: Limits
    var order: seq<nat>
    var node: map<nat, Entry>
    var index: map<string, nat>
    var bytes: nat
    var hits: nat
    var misses: nat
    var nextNode: nat

    ghost predicate Valid()
      reads this
    {
      && InStep(order, node, index)
      && (forall id :: id in node ==> id < nextNode)
      && bytes == Bytes(Items(order, node))
    }

    ghost function Contents(): (es: seq<Entry>)
      requires Valid()
      reads this
    {
      Items(order, node)
    }

    ghost function Value(): (s: State)
      requires Valid()
      reads this
    {
      State(Contents(), hits, misses)
    }

    constructor (limits: Limits)
      ensures Valid() && Value() == EMPTY && this.limits == limits
    {
      this.limits := limits;
      order, node, index := [], map[], map[];
      bytes, hits, misses, nextNode := 0, 0, 0, 0;
    }

    // entries() and bytes(): the two structures agree on the count, and the byte total is that of
    // the entries.
    method Sizes() returns (entries: nat, total: nat)
      requires Valid()
      ensures entries == |Contents()| && total == Bytes(Contents())
    {
      entries, total := |index|, bytes;
    }

    method Get(key: string) returns (r: Option<string>)
      requires Valid()
      modifies this
      ensures Valid()
      ensures Value() == Apply(old(Value()), GetOp(key), limits)
      ensures r == Lookup(old(Contents()), key)
    {
      hide Lookup, Without, Bytes, Spliced, Linked, Indexed, Items;
      IndexIsLookup(order, node, index, key);
      if key !in index {
        misses := misses + 1;
        return None;
      }
      IndexedNode(order, node, index, key);
      var id := index[key];
      var p := Position(order, id);
      MovedToFront(order, node, index, p, node[id].response);
      assert node[id := Entry(node[id].key, node[id].response)] == node;
      BytesWithout(Items(order, node), key);
      FrontBytes(node[id], Without(Items(order, node), key));
      order := Spliced(order, p);
      hits := hits + 1;
      return Some(node[id].response);
    }

    method Put(key: string, response: string)
      requires Valid()
      modifies this
      ensures Valid()
      ensures Value() == Apply(old(Value()), PutOp(key, response), limits)
    {
      hide Lookup, Without, Bytes, Evict, Linked, Indexed, Items;
      IndexIsLookup(order, node, index, key);
      if key in index {
        Replace(key, response);
        return;
      }
      var id := nextNode;
      PushedInStep(order, node, index, id, Entry(key, response));
      FrontBytes(Entry(key, response), Items(order, node));
      order := [id] + order;
      node := node[id := Entry(key, response)];
      index := index[key := id];
      nextNode := id + 1;
      bytes := bytes + |response|;
      Shrink();
    }

    // The branch of put for a key that is there; it returns without evicting.
    method Replace(key: string, response: string)
      requires Valid() && key in index
      modifies this`node, this`bytes, this`order
      ensures Valid()
      ensures Contents() == [Entry(key, response)] + Without(old(Contents()), key)
    {
      hide Lookup, Without, Bytes, Spliced, Linked, Indexed, Items;
      IndexedNode(order, node, index, key);
      var id := index[key];
      var p := Position(order, id);
      IndexIsLookup(order, node, index, key);
      BytesWithout(Items(order, node), key);
      FrontBytes(Entry(key, response), Without(Items(order, node), key));
      MovedToFront(order, node, index, p, response);
      bytes := bytes - |node[id].response|;
      node := node[id := Entry(key, response)];
      bytes := bytes + |response|;
      order := Spliced(order, p);
    }

    // The eviction loop.  Its `order_.empty()` exit is never taken: an empty list meets the limits.
    method Shrink()
      requires Valid()
      modifies this`order, this`node, this`index, this`bytes
      ensures Valid()
      ensures Contents() == Evict(old(Contents()), limits)
    {
      hide Linked, Indexed, Items, Evict, Bytes;
      EvictStep(Items(order, node), limits);
      while (limits.maxEntries != 0 && |index| > limits.maxEntries) || (limits.maxBytes != 0 && bytes > limits.maxBytes)
        invariant Valid()
        invariant Evict(Contents(), limits) == Evict(old(Contents()), limits)
        invariant Fits(Contents(), limits) ==> Evict(Contents(), limits) == Contents()
        decreases |order|
      {
        EvictStep(Items(order, node), limits);
        var last := order[|order| - 1];
        PoppedInStep(order, node, index);
        BytesLast(Items(order, node));
        bytes := bytes - |node[last].response|;
        index := index - {node[last].key};
        order := order[..|order| - 1];
        node := node - {last};
        EvictStep(Items(order, node), limits);
      }
    }
  }
}
