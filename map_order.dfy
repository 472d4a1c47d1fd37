/** Reading a map in the arbitrary order in which iterating a `HashMap`
    yields its entries: an order lists every key exactly once. */
module MapOrder {
  /** `order` lists every key of `m` exactly once. */
  ghost predicate IsKeyOrder<K(!new), V>(order: seq<K>, m: map<K, V>) {
    && (forall i, j :: 0 <= i < j < |order| ==> order[i] != order[j])
    && (forall k :: k in m <==> k in order)
  }

  /** The values of `m` listed in the given key order. */
  function ValuesAt<K(!new), V>(m: map<K, V>, order: seq<K>): (vals: seq<V>)
    requires forall k :: k in order ==> k in m
    ensures |vals| == |order|
    ensures forall i :: 0 <= i < |order| ==> vals[i] == m[order[i]]
  {
    if order == [] then [] else [m[order[0]]] + ValuesAt(m, order[1..])
  }

  lemma {:induction false} ValuesAtAppend<K(!new), V>(m: map<K, V>, order: seq<K>, k: K)
    requires forall x :: x in order ==> x in m
    requires k in m
    ensures ValuesAt(m, order + [k]) == ValuesAt(m, order) + [m[k]]
  {
    if order != [] {
      assert (order + [k])[1..] == order[1..] + [k];
      ValuesAtAppend(m, order[1..], k);
    }
  }

  /** A key order is as long as the map. */
  lemma KeyOrderLength<K(!new), V>(order: seq<K>, m: map<K, V>)
    requires IsKeyOrder(order, m)
    ensures |order| == |m|
  {
    DistinctCard(order, m.Keys);
    assert |m| == |m.Keys|;
  }

  lemma {:induction false} DistinctCard<K(!new)>(order: seq<K>, keys: set<K>)
    requires forall i, j :: 0 <= i < j < |order| ==> order[i] != order[j]
    requires forall k :: k in keys <==> k in order
    ensures |keys| == |order|
  {
    if order == [] {
      assert keys == {};
    } else {
      var tail := order[1..];
      assert forall k :: k in keys - {order[0]} <==> k in tail by {
        assert forall k :: k in order <==> k == order[0] || k in tail by {
          assert order == [order[0]] + tail;
        }
      }
      DistinctCard(tail, keys - {order[0]});
    }
  }

  /** Iterates the keys of a map in some order (`keys().collect()`). */
  method CollectKeys<K(!new), V>(m: map<K, V>) returns (keys: seq<K>)
    ensures IsKeyOrder(keys, m)
    ensures |keys| == |m|
  {
    var remaining := m.Keys;
    keys := [];
    while remaining != {}
      invariant forall k :: k in m <==> k in remaining || k in keys
      invariant forall k :: k in remaining ==> k !in keys
      invariant forall i, j :: 0 <= i < j < |keys| ==> keys[i] != keys[j]
      decreases |remaining|
    {
      var k :| k in remaining;
      keys := keys + [k];
      remaining := remaining - {k};
    }
    KeyOrderLength(keys, m);
  }

  /** Iterates the values of a map in some order of its keys
      (`values().collect()`). */
  method CollectValues<K(!new), V>(m: map<K, V>) returns (vals: seq<V>, ghost order: seq<K>)
    ensures IsKeyOrder(order, m)
    ensures vals == ValuesAt(m, order)
    ensures |vals| == |m|
  {
    var remaining := m.Keys;
    vals := [];
    order := [];
    while remaining != {}
      invariant forall k :: k in m <==> k in remaining || k in order
      invariant forall k :: k in remaining ==> k !in order
      invariant forall i, j :: 0 <= i < j < |order| ==> order[i] != order[j]
      invariant vals == ValuesAt(m, order)
      decreases |remaining|
    {
      var k :| k in remaining;
      ValuesAtAppend(m, order, k);
      order := order + [k];
      vals := vals + [m[k]];
      remaining := remaining - {k};
    }
    KeyOrderLength(order, m);
  }
}
