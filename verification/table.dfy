/**
 * Python's `dict` with string keys as the stores use it: a list of
 * `(key, value)` pairs in first-insertion order. Assigning to a key that is
 * already present replaces its value where it stands; a new key goes last.
 */
module Table {
  import opened Common

  /** No key occurs twice. */
  predicate UniqueKeys<V>(t: seq<(string, V)>) {
    forall i, j {:trigger KeyAt(t, i), KeyAt(t, j)} :: 0 <= i < j < |t| ==> KeyAt(t, i) != KeyAt(t, j)
  }

  /** The key at position `i` (empty outside the table). */
  function KeyAt<V>(t: seq<(string, V)>, i: int): string {
    if 0 <= i < |t| then t[i].0 else ""
  }

  /** The keys in iteration order. */
  function Keys<V>(t: seq<(string, V)>): (ks: seq<string>)
    ensures |ks| == |t| && forall i :: 0 <= i < |t| ==> ks[i] == t[i].0
  {
    seq(|t|, i requires 0 <= i < |t| => t[i].0)
  }

  /** The values in iteration order (Python's `d.values()`). */
  function Values<V>(t: seq<(string, V)>): (vs: seq<V>)
    ensures |vs| == |t| && forall i :: 0 <= i < |t| ==> vs[i] == t[i].1
  {
    seq(|t|, i requires 0 <= i < |t| => t[i].1)
  }

  /** The position of key `k`, or `|t|` when it is absent. */
  function IndexOf<V>(t: seq<(string, V)>, k: string): (i: nat)
    ensures i <= |t|
    ensures i < |t| ==> t[i].0 == k
    ensures forall j :: 0 <= j < i ==> t[j].0 != k
  {
    if t == [] then 0 else if t[0].0 == k then 0 else 1 + IndexOf(t[1..], k)
  }

  /** Python's `d.get(k)`. */
  function Lookup<V>(t: seq<(string, V)>, k: string): (r: Option<V>)
    ensures r.Some? <==> k in Keys(t)
    ensures r.Some? ==> (k, r.value) in t
  {
    var i := IndexOf(t, k);
    if i < |t| then Some(t[i].1) else None
  }

  /** With unique keys, every stored pair is what a lookup of its key finds. */
  lemma LookupStored<V>(t: seq<(string, V)>, i: nat)
    requires UniqueKeys(t) && i < |t|
    ensures Lookup(t, t[i].0) == Some(t[i].1)
  {
    var m := IndexOf(t, t[i].0);
    assert KeyAt(t, i) == t[i].0 && (m < |t| ==> KeyAt(t, m) == t[m].0);
  }

  /**
   * Python's `d[k] = v`: the key then maps to `v`, every other key keeps its
   * value, and the key order changes only by appending a new key.
   */
  function Upsert<V>(t: seq<(string, V)>, k: string, v: V): (r: seq<(string, V)>)
    requires UniqueKeys(t)
    ensures UniqueKeys(r)
    ensures Lookup(r, k) == Some(v)
    ensures forall k' :: k' != k ==> Lookup(r, k') == Lookup(t, k')
    ensures Keys(r) == if k in Keys(t) then Keys(t) else Keys(t) + [k]
  {
    var i := IndexOf(t, k);
    if i < |t| then UpsertReplaces(t, i, k, v); t[i := (k, v)]
    else UpsertAppends(t, k, v); t + [(k, v)]
  }

  /** Over a present key, the new pair takes the old one's place and nothing else moves. */
  lemma UpsertReplaces<V>(t: seq<(string, V)>, i: nat, k: string, v: V)
    requires UniqueKeys(t) && i == IndexOf(t, k) < |t|
    ensures var r := t[i := (k, v)];
            UniqueKeys(r) && Lookup(r, k) == Some(v) && k in Keys(t) && Keys(r) == Keys(t)
            && forall k' :: k' != k ==> Lookup(r, k') == Lookup(t, k')
  {
    var r := t[i := (k, v)];
    assert Keys(r) == Keys(t);
    assert Keys(t)[i] == k;
    assert forall a {:trigger KeyAt(r, a)} :: KeyAt(r, a) == KeyAt(t, a);
  }

  /** A new key goes last and every other key is found where it was. */
  lemma UpsertAppends<V>(t: seq<(string, V)>, k: string, v: V)
    requires UniqueKeys(t) && IndexOf(t, k) == |t|
    ensures var r := t + [(k, v)];
            UniqueKeys(r) && Lookup(r, k) == Some(v) && k !in Keys(t) && Keys(r) == Keys(t) + [k]
            && forall k' :: k' != k ==> Lookup(r, k') == Lookup(t, k')
  {
    var r := t + [(k, v)];
    assert Keys(r) == Keys(t) + [k];
    AppendUnique(t, k, v);
    forall k' | k' != k ensures Lookup(r, k') == Lookup(t, k') {
      IndexOfExtend(t, (k, v), k');
    }
  }

  lemma AppendUnique<V>(t: seq<(string, V)>, k: string, v: V)
    requires UniqueKeys(t) && IndexOf(t, k) == |t|
    ensures UniqueKeys(t + [(k, v)])
  {
    var r := t + [(k, v)];
    forall a | 0 <= a < |t| ensures KeyAt(r, a) == KeyAt(t, a) != k {
      assert t[a].0 != k;
    }
    assert KeyAt(r, |t|) == k;
  }

  /** Appending a pair with another key does not move where a key is found. */
  lemma {:induction false} IndexOfExtend<V>(t: seq<(string, V)>, p: (string, V), k: string)
    requires p.0 != k
    ensures IndexOf(t + [p], k) == if IndexOf(t, k) < |t| then IndexOf(t, k) else |t| + 1
  {
    if t != [] && t[0].0 != k {
      assert (t + [p])[1..] == t[1..] + [p];
      IndexOfExtend(t[1..], p, k);
    }
  }

  /** Where `Upsert` puts the pair: over the old pair of that key, or appended when the key is new. */
  lemma UpsertShape<V>(t: seq<(string, V)>, k: string, v: V)
    requires UniqueKeys(t)
    ensures k in Keys(t) ==> IndexOf(t, k) < |t| && Upsert(t, k, v) == t[IndexOf(t, k) := (k, v)]
    ensures k !in Keys(t) ==> Upsert(t, k, v) == t + [(k, v)]
  {
    var i := IndexOf(t, k);
    if i < |t| {
      assert k in Keys(t) by { assert Keys(t)[i] == k; }
    } else {
      assert k !in Keys(t);
    }
  }

  /** `for k, v in kvs: d[k] = v`: the pairs assigned in turn. */
  function UpsertAll<V>(t: seq<(string, V)>, kvs: seq<(string, V)>): (r: seq<(string, V)>)
    requires UniqueKeys(t)
    ensures UniqueKeys(r)
  {
    if kvs == [] then t
    else Upsert(UpsertAll(t, kvs[..|kvs| - 1]), kvs[|kvs| - 1].0, kvs[|kvs| - 1].1)
  }

  /** The value of the last pair in `kvs` with key `k`, if any. */
  function LastValue<V>(kvs: seq<(string, V)>, k: string): Option<V> {
    if kvs == [] then None
    else if kvs[|kvs| - 1].0 == k then Some(kvs[|kvs| - 1].1)
    else LastValue(kvs[..|kvs| - 1], k)
  }

  /** Appending a pair: its key now finds its value; every other key finds what it found before. */
  lemma LastValueSnoc<V>(kvs: seq<(string, V)>, p: (string, V), k: string)
    ensures LastValue(kvs + [p], k) == if p.0 == k then Some(p.1) else LastValue(kvs, k)
  {
    SnocPrefix(kvs, p);
  }

  /** After assigning the pairs, a key maps to the last value assigned to it, or to its old value when none was. */
  lemma {:induction false} UpsertAllLookup<V>(t: seq<(string, V)>, kvs: seq<(string, V)>, k: string)
    requires UniqueKeys(t)
    ensures Lookup(UpsertAll(t, kvs), k) == if LastValue(kvs, k).Some? then LastValue(kvs, k) else Lookup(t, k)
  {
    if kvs != [] {
      UpsertAllLookup(t, kvs[..|kvs| - 1], k);
    }
  }

  /** Assigning the first `i + 1` pairs is assigning the first `i`, then pair `i`. */
  lemma UpsertAllStep<V>(t: seq<(string, V)>, kvs: seq<(string, V)>, i: nat)
    requires UniqueKeys(t) && i < |kvs|
    ensures UpsertAll(t, kvs[..i + 1]) == Upsert(UpsertAll(t, kvs[..i]), kvs[i].0, kvs[i].1)
  {
    PrefixStep(kvs, i);
  }

  /** Assigning pairs with distinct keys to an empty dict keeps them as they are, in order. */
  lemma {:induction false} UpsertAllFresh<V>(kvs: seq<(string, V)>)
    requires Distinct(Keys(kvs))
    ensures UpsertAll([], kvs) == kvs
  {
    if kvs != [] {
      var m := |kvs| - 1;
      DistinctKeysTake(kvs, m);
      UpsertAllFresh(kvs[..m]);
      LastKeyFresh(kvs, m);
      UpsertFreshTake(kvs, m);
    }
  }

  /** A prefix of pairs with distinct keys has distinct keys. */
  lemma DistinctKeysTake<V>(kvs: seq<(string, V)>, m: nat)
    requires Distinct(Keys(kvs)) && m <= |kvs|
    ensures Distinct(Keys(kvs[..m]))
  {
    var ks := Keys(kvs[..m]);
    forall a, b | 0 <= a < b < |ks| ensures Differ(ks, a, b) {
      assert Differ(Keys(kvs), a, b);
    }
  }

  /** Assigning pair `i` to the first `i` pairs, when its key is new among them, gives the first `i + 1`. */
  lemma UpsertFreshTake<V>(kvs: seq<(string, V)>, i: nat)
    requires i < |kvs| && UniqueKeys(kvs[..i]) && kvs[i].0 !in Keys(kvs[..i])
    ensures Upsert(kvs[..i], kvs[i].0, kvs[i].1) == kvs[..i + 1]
  {
    UpsertShape(kvs[..i], kvs[i].0, kvs[i].1);
    TakeSnoc(kvs, i);
  }

  /** With distinct keys, the key at `i` is not among the keys before it. */
  lemma LastKeyFresh<V>(kvs: seq<(string, V)>, i: nat)
    requires Distinct(Keys(kvs)) && i < |kvs|
    ensures kvs[i].0 !in Keys(kvs[..i])
  {
    forall j | 0 <= j < i ensures Keys(kvs[..i])[j] != kvs[i].0 {
      assert Differ(Keys(kvs), j, i);
    }
  }

  /** Python's `d[k] = d.get(k, 0) + 1`: one more occurrence of `k`; the counts grow by one in total. */
  function Bump(t: seq<(string, int)>, k: string): (r: seq<(string, int)>)
    requires UniqueKeys(t)
    ensures UniqueKeys(r)
    ensures Lookup(r, k).GetOr(0) == Lookup(t, k).GetOr(0) + 1
    ensures forall k' :: k' != k ==> Lookup(r, k') == Lookup(t, k')
    ensures SumInts(Values(r)) == SumInts(Values(t)) + 1
  {
    var r := Upsert(t, k, Lookup(t, k).GetOr(0) + 1);
    BumpSum(t, k);
    r
  }

  lemma BumpSum(t: seq<(string, int)>, k: string)
    requires UniqueKeys(t)
    ensures SumInts(Values(Upsert(t, k, Lookup(t, k).GetOr(0) + 1))) == SumInts(Values(t)) + 1
  {
    var v := Lookup(t, k).GetOr(0) + 1;
    UpsertShape(t, k, v);
    if k in Keys(t) {
      var i := IndexOf(t, k);
      ValuesUpdate(t, i, (k, v));
      SumIntsUpdate(Values(t), i, 1);
    } else {
      ValuesAppend(t, (k, v));
    }
  }

  lemma ValuesUpdate<V>(t: seq<(string, V)>, i: nat, p: (string, V))
    requires i < |t|
    ensures Values(t[i := p]) == Values(t)[i := p.1]
  {
  }

  lemma ValuesAppend(t: seq<(string, int)>, p: (string, int))
    ensures SumInts(Values(t + [p])) == SumInts(Values(t)) + p.1
  {
    assert Values(t + [p])[..|t|] == Values(t);
  }

  /** Raising one term of a sum raises the sum by as much. */
  lemma {:induction false} SumIntsUpdate(xs: seq<int>, i: nat, d: int)
    requires i < |xs|
    ensures SumInts(xs[i := xs[i] + d]) == SumInts(xs) + d
  {
    var ys := xs[i := xs[i] + d];
    var n := |xs|;
    if i == n - 1 {
      assert ys[..n - 1] == xs[..n - 1];
    } else {
      assert ys[..n - 1] == xs[..n - 1][i := xs[i] + d];
      SumIntsUpdate(xs[..n - 1], i, d);
    }
  }

  /**
   * The counting dictionary a loop of `Bump`s builds over `keys`: each key
   * maps to its number of occurrences, keys in first-occurrence order, and
   * the counts add up to the number of keys.
   */
  function Tally(keys: seq<string>): (t: seq<(string, int)>)
    ensures UniqueKeys(t)
    ensures forall k :: Lookup(t, k).GetOr(0) == multiset(keys)[k]
    ensures SumInts(Values(t)) == |keys|
  {
    if keys == [] then []
    else
      var prev := keys[..|keys| - 1];
      assert keys == prev + [keys[|keys| - 1]];
      Bump(Tally(prev), keys[|keys| - 1])
  }

  /** One more key counts one more occurrence. */
  lemma TallySnoc(keys: seq<string>, k: string)
    ensures Tally(keys + [k]) == Bump(Tally(keys), k)
  {
    assert (keys + [k])[..|keys|] == keys;
  }
}
