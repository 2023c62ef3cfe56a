/** List comprehensions of the source, as sequence functions. */
module Seqs {
  /** `[y for x in xs for y in f(x)]`. */
  function FlatMap<T, U>(xs: seq<T>, f: T -> seq<U>): seq<U>
    decreases |xs|
  {
    if xs == [] then [] else f(xs[0]) + FlatMap(xs[1..], f)
  }

  lemma {:induction false} FlatMapAppend<T, U>(a: seq<T>, b: seq<T>, f: T -> seq<U>)
    ensures FlatMap(a + b, f) == FlatMap(a, f) + FlatMap(b, f)
    decreases |a|
  {
    if a == [] {
      assert a + b == b;
    } else {
      assert (a + b)[0] == a[0] && (a + b)[1..] == a[1..] + b;
      FlatMapAppend(a[1..], b, f);
    }
  }

  lemma FlatMapSingleton<T, U>(x: T, f: T -> seq<U>)
    ensures FlatMap([x], f) == f(x)
  {
    assert [x][1..] == [];
  }

  lemma FlatMapSnoc<T, U>(xs: seq<T>, x: T, f: T -> seq<U>)
    ensures FlatMap(xs + [x], f) == FlatMap(xs, f) + f(x)
  {
    FlatMapAppend(xs, [x], f);
    assert [x][1..] == [];
  }

  /** Every element of the flattening comes from the image of some element. */
  lemma {:induction false} FlatMapOrigin<T, U>(xs: seq<T>, f: T -> seq<U>, y: U)
    requires y in FlatMap(xs, f)
    ensures exists x :: x in xs && y in f(x)
    decreases |xs|
  {
    if y !in f(xs[0]) {
      FlatMapOrigin(xs[1..], f, y);
      var x :| x in xs[1..] && y in f(x);
      assert x in xs;
    }
  }

  /** Every element of every image is in the flattening. */
  lemma {:induction false} FlatMapContains<T, U>(xs: seq<T>, f: T -> seq<U>, x: T, y: U)
    requires x in xs && y in f(x)
    ensures y in FlatMap(xs, f)
    decreases |xs|
  {
    if xs[0] != x {
      assert x in xs[1..];
      FlatMapContains(xs[1..], f, x, y);
    }
  }

  /** `[x for x in xs if p(x)]`. */
  function Filter<T>(xs: seq<T>, p: T -> bool): (r: seq<T>)
    ensures |r| <= |xs|
    ensures forall y :: y in r ==> y in xs && p(y)
    decreases |xs|
  {
    if xs == [] then []
    else
      var rest := Filter(xs[..|xs| - 1], p);
      var x := xs[|xs| - 1];
      if p(x) then rest + [x] else rest
  }

  /** Every element of `xs` that satisfies `p` is kept. */
  lemma {:induction false} FilterComplete<T>(xs: seq<T>, p: T -> bool, y: T)
    requires y in xs && p(y)
    ensures y in Filter(xs, p)
    decreases |xs|
  {
    if xs[|xs| - 1] != y {
      assert xs == xs[..|xs| - 1] + [xs[|xs| - 1]];
      FilterComplete(xs[..|xs| - 1], p, y);
    }
  }

  /**
   * The m-th element kept by a filter is the element at some position j of
   * the input such that exactly m earlier elements were kept.
   */
  lemma {:induction false} FilterAt<T>(xs: seq<T>, p: T -> bool, m: nat)
    requires m < |Filter(xs, p)|
    ensures exists j :: 0 <= j < |xs| && xs[j] == Filter(xs, p)[m] && p(xs[j])
                        && |Filter(xs[..j], p)| == m
    decreases |xs|
  {
    var n := |xs| - 1;
    var rest := Filter(xs[..n], p);
    assert xs[..n][..n] == xs[..n];
    if m < |rest| {
      FilterAt(xs[..n], p, m);
      var j :| 0 <= j < n && xs[..n][j] == rest[m] && p(xs[..n][j]) && |Filter(xs[..n][..j], p)| == m;
      assert xs[..n][..j] == xs[..j];
    } else {
      assert p(xs[n]) && m == |rest|;
      assert xs[n] == Filter(xs, p)[m];
    }
  }

  /** Filtering a prefix keeps a prefix of what filtering the whole keeps. */
  lemma {:induction false} FilterPrefix<T>(xs: seq<T>, p: T -> bool, j: nat)
    requires j <= |xs|
    ensures var f := Filter(xs[..j], p);
            |f| <= |Filter(xs, p)| && f == Filter(xs, p)[..|f|]
    decreases |xs|
  {
    if j < |xs| {
      var n := |xs| - 1;
      assert xs[..n][..j] == xs[..j];
      FilterPrefix(xs[..n], p, j);
    } else {
      assert xs[..j] == xs;
    }
  }

  /** `xs[:k]` for a natural `k`. */
  function Take<T>(xs: seq<T>, k: nat): (r: seq<T>)
    ensures |r| == (if k < |xs| then k else |xs|) && r == xs[..|r|]
  {
    if k < |xs| then xs[..k] else xs
  }
}
