/**
 * Python's "dict of lists" accumulation (`if k not in d: d[k] = []; d[k].append(v)`),
 * which the conflict passes use to group requests by department or by resource.
 * A dict iterates in the order its keys were first inserted.
 */
module Grouping {
  import opened Common

  /** The keys of `items` in order of first appearance. */
  function KeysOf<K(==,!new), V>(items: seq<(K, V)>): (ks: seq<K>)
    ensures Distinct(ks)
    ensures forall k :: k in ks <==> exists i :: 0 <= i < |items| && items[i].0 == k
  {
    if items == [] then []
    else
      var ks := KeysOf(items[..|items| - 1]);
      var k := items[|items| - 1].0;
      assert forall i :: 0 <= i < |items| - 1 ==> items[..|items| - 1][i] == items[i];
      if k in ks then ks else DistinctSnoc(ks, k); ks + [k]
  }

  /** The values filed under key `k`, in the order they were appended. */
  function GroupOf<K(==), V>(items: seq<(K, V)>, k: K): seq<V> {
    if items == [] then []
    else
      var g := GroupOf(items[..|items| - 1], k);
      if items[|items| - 1].0 == k then g + [items[|items| - 1].1] else g
  }

  /** A key has a non-empty group exactly when it occurs among the items. */
  lemma {:induction false} GroupNonEmpty<K(!new), V>(items: seq<(K, V)>, k: K)
    ensures GroupOf(items, k) != [] <==> k in KeysOf(items)
  {
    if items != [] {
      GroupNonEmpty(items[..|items| - 1], k);
    }
  }

  /** Builds the insertion-ordered dict of lists in one pass over `items`. */
  method GroupBy<K(==,!new), V>(items: seq<(K, V)>) returns (order: seq<K>, groups: map<K, seq<V>>)
    ensures order == KeysOf(items)
    ensures forall k :: k in groups <==> k in order
    ensures forall k :: k in groups ==> groups[k] == GroupOf(items, k)
  {
    order, groups := [], map[];
    var i := 0;
    while i < |items|
      invariant 0 <= i <= |items|
      invariant order == KeysOf(items[..i])
      invariant forall k :: k in groups <==> k in order
      invariant forall k :: k in groups ==> groups[k] == GroupOf(items[..i], k)
    {
      var (k, v) := items[i];
      assert items[..i + 1][..i] == items[..i];
      if k !in groups {
        order := order + [k];
        groups := groups[k := []];
        GroupNonEmpty(items[..i], k);
      }
      groups := groups[k := groups[k] + [v]];
      i := i + 1;
    }
    assert items[..i] == items;
  }
}
