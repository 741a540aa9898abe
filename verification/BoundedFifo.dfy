/**
 * The retention idiom every bounded store repeats: a map beside a queue of its keys in insertion
 * order, with eviction from the front of the queue while the map is over its bound.
 */
module BoundedFifo {

  ghost predicate NoDuplicates<K(!new)>(order: seq<K>) {
    forall i, j :: 0 <= i < j < |order| ==> order[i] != order[j]
  }

  /** The queue is duplicate-free and lists exactly the keys of the map. */
  ghost predicate Mirrors<K(!new), V>(order: seq<K>, m: map<K, V>) {
    NoDuplicates(order) && forall k :: k in order <==> k in m
  }

  /** A mirrored store within its bound. */
  ghost predicate Retained<K(!new), V>(order: seq<K>, m: map<K, V>, bound: nat) {
    Mirrors(order, m) && |m| <= bound
  }

  /** The queue without one key, everything else in order. */
  function Without<K(==,!new)>(order: seq<K>, key: K): (rest: seq<K>)
    ensures forall k :: k in rest <==> k in order && k != key
  {
    if |order| == 0 then []
    else if order[0] == key then Without(order[1..], key)
    else [order[0]] + Without(order[1..], key)
  }

  lemma {:induction false} WithoutNoDuplicates<K(!new)>(order: seq<K>, key: K)
    requires NoDuplicates(order)
    ensures NoDuplicates(Without(order, key))
  {
    if |order| == 0 {
    } else {
      assert NoDuplicates(order[1..]);
      WithoutNoDuplicates(order[1..], key);
      assert order[0] !in order[1..];
    }
  }

  lemma RemoveMirrors<K(!new), V>(order: seq<K>, m: map<K, V>, key: K)
    requires Mirrors(order, m)
    ensures Mirrors(Without(order, key), m - {key})
  {
    WithoutNoDuplicates(order, key);
  }

  /** What is left once keys have been dropped from the front until the map fits its bound. */
  function Evicted<K(==,!new), V>(order: seq<K>, m: map<K, V>, bound: nat): (seq<K>, map<K, V>) {
    if |m| <= bound || |order| == 0 then (order, m)
    else Evicted(order[1..], m - {order[0]}, bound)
  }

  lemma AppendMirrors<K(!new), V>(order: seq<K>, m: map<K, V>, key: K, value: V)
    requires Mirrors(order, m) && key !in m
    ensures Mirrors(order + [key], m[key := value])
  {
    var grown := order + [key];
    forall k ensures k in grown <==> k in m[key := value] {
      if k in order {
        assert k in grown;
      }
      assert grown[|order|] == key;
    }
  }

  lemma DropOldestMirrors<K(!new), V>(order: seq<K>, m: map<K, V>)
    requires Mirrors(order, m) && |order| > 0
    ensures Mirrors(order[1..], m - {order[0]})
  {
    var rest := m - {order[0]};
    forall k ensures k in order[1..] <==> k in rest {
      if k in rest {
        var i :| 0 <= i < |order| && order[i] == k;
        assert order[1..][i - 1] == k;
      }
    }
  }

  lemma RemoveOne<K, V>(m: map<K, V>, key: K)
    requires key in m
    ensures |m| == |m - {key}| + 1
  {
    assert m.Keys == (m - {key}).Keys + {key};
  }

  lemma {:induction false} MirrorsLength<K(!new), V>(order: seq<K>, m: map<K, V>)
    requires Mirrors(order, m)
    ensures |order| == |m|
  {
    if |order| == 0 {
      assert m.Keys == {};
    } else {
      assert order[0] in order;
      DropOldestMirrors(order, m);
      MirrorsLength(order[1..], m - {order[0]});
      RemoveOne(m, order[0]);
    }
  }

  lemma AddOne<K, V>(m: map<K, V>, key: K, value: V)
    requires key !in m
    ensures |m[key := value]| == |m| + 1
  {
    assert m[key := value].Keys == m.Keys + {key};
  }

  /** Queueing a new key keeps the mirror and the bound, and evicts at most the oldest key. */
  lemma InsertMirrors<K(!new), V>(order: seq<K>, m: map<K, V>, key: K, value: V, bound: nat)
    requires Retained(order, m, bound) && key !in m && bound > 0
    ensures Evicted(order + [key], m[key := value], bound) ==
            if |m| < bound then (order + [key], m[key := value])
            else (order[1..] + [key], m[key := value] - {order[0]})
    ensures var (o, n) := Evicted(order + [key], m[key := value], bound);
            Retained(o, n, bound) && key in n && n[key] == value
            && forall k :: k in n ==> k == key || (k in m && n[k] == m[k])
  {
    AppendMirrors(order, m, key, value);
    AddOne(m, key, value);
    if |m| == bound {
      EvictsFront(order, m, key, value, bound);
    }
  }

  lemma EvictsFront<K(!new), V>(order: seq<K>, m: map<K, V>, key: K, value: V, bound: nat)
    requires Mirrors(order, m) && |m| == bound > 0 && key !in m
    requires Mirrors(order + [key], m[key := value]) && |m[key := value]| == bound + 1
    ensures |order| > 0 && Mirrors(order[1..] + [key], m[key := value] - {order[0]})
    ensures |m[key := value] - {order[0]}| == bound
    ensures Evicted(order + [key], m[key := value], bound) == (order[1..] + [key], m[key := value] - {order[0]})
  {
    MirrorsLength(order, m);
    var o, n := order + [key], m[key := value];
    assert o[0] == order[0] && o[1..] == order[1..] + [key];
    assert o[0] in o;
    DropOldestMirrors(o, n);
    RemoveOne(n, o[0]);
    EvictedOnce(o, n, bound);
  }

  lemma EvictedOnce<K(!new), V>(order: seq<K>, m: map<K, V>, bound: nat)
    requires |order| > 0 && |m| > bound && |m - {order[0]}| <= bound
    ensures Evicted(order, m, bound) == (order[1..], m - {order[0]})
  {
  }

  /** The eviction loop; it ends on any queue that still lists every retained key. */
  method EvictOldest<K(==,!new), V>(order: seq<K>, m: map<K, V>, bound: nat)
    returns (order': seq<K>, m': map<K, V>)
    requires forall k :: k in m ==> k in order
    ensures (order', m') == Evicted(order, m, bound)
    ensures |m'| <= bound
    ensures forall k :: k in m' ==> k in order'
  {
    order', m' := order, m;
    while |m'| > bound
      invariant forall k :: k in m' ==> k in order'
      invariant Evicted(order', m', bound) == Evicted(order, m, bound)
      decreases |order'|
    {
      KeysQueued(order', m');
      order', m' := order'[1..], m' - {order'[0]};
    }
  }

  lemma QueuedAppend<K(!new), V>(order: seq<K>, m: map<K, V>, key: K, value: V)
    requires forall k :: k in m ==> k in order
    ensures forall k :: k in m[key := value] ==> k in order + [key]
  {
    assert (order + [key])[|order|] == key;
  }

  lemma KeysQueued<K(!new), V>(order: seq<K>, m: map<K, V>)
    requires |m| > 0 && forall k :: k in m ==> k in order
    ensures |order| > 0
    ensures forall k :: k in m - {order[0]} ==> k in order[1..]
  {
    var some :| some in m;
    assert some in order;
    forall k | k in m - {order[0]} ensures k in order[1..] {
      var i :| 0 <= i < |order| && order[i] == k;
      assert order[1..][i - 1] == k;
    }
  }

  /** What a full store gives up for a new key is the front of its queue. */
  lemma InsertEvictsFront<K(!new), V>(order: seq<K>, m: map<K, V>, key: K, value: V, bound: nat, other: K)
    requires Retained(order, m, bound) && key !in m && bound > 0 && other in m
    ensures |order| > 0
    ensures other !in Evicted(order + [key], m[key := value], bound).1 <==> |m| == bound && other == order[0]
  {
    InsertMirrors(order, m, key, value, bound);
    MirrorsLength(order, m);
  }

  // --- queues of counters -------------------------------------------------------------------

  ghost predicate Ascending(order: seq<nat>) {
    forall i, j :: 0 <= i < j < |order| ==> order[i] < order[j]
  }

  lemma {:induction false} WithoutAscending(order: seq<nat>, id: nat)
    requires Ascending(order)
    ensures Ascending(Without(order, id))
  {
    if |order| == 0 {
    } else {
      WithoutAscending(order[1..], id);
      var rest := Without(order[1..], id);
      forall j | 0 <= j < |rest| ensures order[0] < rest[j] {
        assert rest[j] in order[1..];
      }
      assert order[0] != id ==> Without(order, id) == [order[0]] + rest;
    }
  }

  /** A new largest id at the back keeps the queue ascending, with or without its front. */
  lemma NewestLast(order: seq<nat>, id: nat)
    requires Ascending(order) && forall i :: 0 <= i < |order| ==> order[i] < id
    ensures Ascending(order + [id]) && (|order| > 0 ==> Ascending(order[1..] + [id]))
  {
  }

  /** Inserting the next id of a counter keeps the queue ascending. */
  lemma InsertAscends<V>(order: seq<nat>, m: map<nat, V>, id: nat, value: V, bound: nat)
    requires Retained(order, m, bound) && Ascending(order) && bound > 0 && forall k :: k in m ==> k < id
    ensures Ascending(Evicted(order + [id], m[id := value], bound).0)
  {
    InsertMirrors(order, m, id, value, bound);
    MirrorsLength(order, m);
    forall i | 0 <= i < |order| ensures order[i] < id {
      assert order[i] in m;
    }
    NewestLast(order, id);
  }

  /** The front of an ascending queue is the oldest key. */
  lemma FrontIsOldest<V>(order: seq<nat>, m: map<nat, V>, id: nat)
    requires Mirrors(order, m) && Ascending(order) && id in m && |order| > 0
    ensures id == order[0] <==> forall other :: other in m ==> id <= other
  {
    assert order[0] in m;
    forall other | other in m ensures order[0] <= other {
      assert other in order;
    }
  }
}
