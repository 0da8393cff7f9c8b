/** Small value types and sequence helpers shared by every component. */
module Common {

  /** A value that may be absent (Python's `None`). */
  datatype Option<T> = None | Some(value: T) {
    /** The value, or `default` when absent (Python's `x if x is not None else default`). */
    function GetOr(default: T): T {
      if Some? then value else default
    }
  }

  /** No element occurs twice. */
  predicate Distinct<T(==)>(xs: seq<T>) {
    forall i, j {:trigger Differ(xs, i, j)} :: 0 <= i < j < |xs| ==> Differ(xs, i, j)
  }

  /** Positions `i` and `j` of `xs` hold different elements. */
  predicate Differ<T(==)>(xs: seq<T>, i: int, j: int)
    requires 0 <= i < |xs| && 0 <= j < |xs|
  {
    xs[i] != xs[j]
  }

  /** The first `i` elements of the first `i + 1` are the first `i`. */
  lemma PrefixStep<T>(s: seq<T>, i: nat)
    requires i < |s|
    ensures s[..i + 1][..i] == s[..i]
  {
  }

  /** Dropping the element just appended gives back the sequence. */
  lemma SnocPrefix<T>(s: seq<T>, x: T)
    ensures (s + [x])[..|s|] == s
  {
  }

  /** The first `i + 1` elements are the first `i`, then element `i`. */
  lemma TakeSnoc<T>(s: seq<T>, i: nat)
    requires i < |s|
    ensures s[..i + 1] == s[..i] + [s[i]]
  {
  }

  /** The same prefix before two sequences keeps them apart. */
  lemma PrefixInjective<T>(p: seq<T>, a: seq<T>, b: seq<T>)
    requires p + a == p + b
    ensures a == b
  {
    assert (p + a)[|p|..] == a;
    assert (p + b)[|p|..] == b;
  }

  /** The prefix of full length is the whole sequence. */
  lemma TakeAll<T>(s: seq<T>)
    ensures s[..|s|] == s
  {
  }

  /** Concatenation is associative. */
  lemma AppendAssoc<T>(a: seq<T>, b: seq<T>, c: seq<T>)
    ensures a + b + c == a + (b + c)
  {
  }

  /** Appending nothing changes nothing. */
  lemma AppendEmpty<T>(s: seq<T>)
    ensures s + [] == s
  {
  }

  /** Prepending nothing changes nothing. */
  lemma EmptyAppend<T>(s: seq<T>)
    ensures [] + s == s
  {
  }

  /** Appending an element not yet present keeps the elements distinct. */
  lemma DistinctSnoc<T>(xs: seq<T>, x: T)
    requires Distinct(xs) && x !in xs
    ensures Distinct(xs + [x])
  {
    var ys := xs + [x];
    forall i, j | 0 <= i < j < |ys| ensures Differ(ys, i, j) {
      if j < |xs| {
        assert Differ(xs, i, j);
      } else {
        assert ys[i] == xs[i];
      }
    }
  }

  /** `[f(xs[0], base + 1), f(xs[1], base + 2), ...]`: each element with its running number. */
  function Numbered<T, U>(xs: seq<T>, f: (T, nat) -> U, base: nat): (ys: seq<U>)
    ensures |ys| == |xs|
  {
    if xs == [] then [] else Numbered(xs[..|xs| - 1], f, base) + [f(xs[|xs| - 1], base + |xs|)]
  }

  /** Element `k` is built from `xs[k]` and number `base + k + 1`. */
  lemma {:induction false} NumberedAt<T, U>(xs: seq<T>, f: (T, nat) -> U, base: nat, k: nat)
    requires k < |xs|
    ensures Numbered(xs, f, base)[k] == f(xs[k], base + k + 1)
  {
    var n := |xs| - 1;
    if k < n {
      NumberedAt(xs[..n], f, base, k);
    }
  }

  /** One more element adds its image, numbered after the others. */
  lemma NumberedSnoc<T, U>(xs: seq<T>, x: T, f: (T, nat) -> U, base: nat)
    ensures Numbered(xs + [x], f, base) == Numbered(xs, f, base) + [f(x, base + |xs| + 1)]
  {
    SnocPrefix(xs, x);
  }

  /** The images of the first `i + 1` elements are those of the first `i`, then the image of element `i`. */
  lemma NumberedStep<T, U>(xs: seq<T>, f: (T, nat) -> U, base: nat, i: nat)
    requires i < |xs|
    ensures Numbered(xs[..i + 1], f, base) == Numbered(xs[..i], f, base) + [f(xs[i], base + i + 1)]
  {
    PrefixStep(xs, i);
  }

  /** Python's `sum` over a list of numbers, folded left to right. */
  function SumReals(xs: seq<real>): real {
    if xs == [] then 0.0 else SumReals(xs[..|xs| - 1]) + xs[|xs| - 1]
  }

  function SumInts(xs: seq<int>): int {
    if xs == [] then 0 else SumInts(xs[..|xs| - 1]) + xs[|xs| - 1]
  }

  /**
   * The elements of `xs` without repetitions, each kept at its first
   * occurrence. It holds exactly the elements of `xs`.
   */
  function Dedup<T(==,!new)>(xs: seq<T>): (r: seq<T>)
    ensures Distinct(r)
    ensures forall x :: x in r <==> x in xs
  {
    if xs == [] then []
    else
      var d := Dedup(xs[..|xs| - 1]);
      var last := xs[|xs| - 1];
      assert forall x :: x in xs <==> x in xs[..|xs| - 1] || x == last by {
        assert xs == xs[..|xs| - 1] + [last];
      }
      if last in d then d else DistinctSnoc(d, last); d + [last]
  }
}
