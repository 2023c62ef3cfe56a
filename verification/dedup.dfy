/**
 * First-occurrence deduplication with a `seen` set, as both
 * `extract_references` (on `(kind, flno, item, kuan, mu)`) and
 * `keyword_search` (on `(pcode, law_name)`) perform it.
 */
module Dedup {
  function KeySet<T, K(==)>(xs: seq<T>, key: T -> K): set<K> {
    set i | 0 <= i < |xs| :: key(xs[i])
  }

  lemma KeySetSnoc<T, K>(xs: seq<T>, key: T -> K, x: T)
    ensures KeySet(xs + [x], key) == KeySet(xs, key) + {key(x)}
  {
    var l, r := KeySet(xs + [x], key), KeySet(xs, key) + {key(x)};
    forall k | k in l ensures k in r {
      var i :| 0 <= i < |xs| + 1 && key((xs + [x])[i]) == k;
      if i < |xs| { assert (xs + [x])[i] == xs[i]; }
    }
    forall k | k in r ensures k in l {
      if k == key(x) {
        assert (xs + [x])[|xs|] == x;
      } else {
        var i :| 0 <= i < |xs| && key(xs[i]) == k;
        assert (xs + [x])[i] == xs[i];
      }
    }
  }

  /** One `add` step: append `x` unless its key was already seen. */
  function AddFirst<T, K(==)>(acc: seq<T>, x: T, key: T -> K): seq<T> {
    if key(x) in KeySet(acc, key) then acc else acc + [x]
  }

  /** The result of feeding `xs` in order through the seen-set filter. */
  function KeepFirst<T, K(==)>(xs: seq<T>, key: T -> K): seq<T>
    decreases |xs|
  {
    if xs == [] then [] else AddFirst(KeepFirst(xs[..|xs| - 1], key), xs[|xs| - 1], key)
  }

  lemma KeepFirstSnoc<T, K>(xs: seq<T>, key: T -> K, x: T)
    ensures KeepFirst(xs + [x], key) == AddFirst(KeepFirst(xs, key), x, key)
  {
    assert (xs + [x])[..|xs|] == xs;
  }

  /** Deduplication only drops elements. */
  lemma {:induction false} KeepFirstSubset<T, K>(xs: seq<T>, key: T -> K)
    ensures forall y :: y in KeepFirst(xs, key) ==> y in xs
    decreases |xs|
  {
    if xs != [] {
      var init := xs[..|xs| - 1];
      KeepFirstSubset(init, key);
      assert xs == init + [xs[|xs| - 1]];
    }
  }

  predicate NoDupKeys<T, K(==)>(xs: seq<T>, key: T -> K) {
    forall i, j :: 0 <= i < j < |xs| ==> key(xs[i]) != key(xs[j])
  }

  /** Position `i` holds the first element of `xs` with its key. */
  predicate IsFirstAt<T, K(==)>(xs: seq<T>, key: T -> K, i: nat)
    requires i < |xs|
  {
    forall k :: 0 <= k < i ==> key(xs[k]) != key(xs[i])
  }

  /** Reference definition: the elements at first-occurrence positions, in input order. */
  function FirstOccurrences<T, K(==)>(xs: seq<T>, key: T -> K, n: nat): seq<T>
    requires n <= |xs|
  {
    if n == 0 then []
    else FirstOccurrences(xs, key, n - 1) + (if IsFirstAt(xs, key, n - 1) then [xs[n - 1]] else [])
  }

  lemma {:induction false} FirstOccurrencesPrefix<T, K>(xs: seq<T>, ys: seq<T>, key: T -> K, n: nat)
    requires n <= |xs| && n <= |ys| && xs[..n] == ys[..n]
    ensures FirstOccurrences(xs, key, n) == FirstOccurrences(ys, key, n)
  {
    if n > 0 {
      assert xs[..n - 1] == ys[..n - 1] && xs[n - 1] == ys[n - 1] by {
        assert xs[..n - 1] == xs[..n][..n - 1];
        assert ys[..n - 1] == ys[..n][..n - 1];
        assert xs[n - 1] == xs[..n][n - 1];
      }
      FirstOccurrencesPrefix(xs, ys, key, n - 1);
      assert forall k :: 0 <= k < n - 1 ==> xs[k] == ys[k] by {
        forall k | 0 <= k < n - 1 ensures xs[k] == ys[k] { assert xs[k] == xs[..n][k]; }
      }
      assert IsFirstAt(xs, key, n - 1) == IsFirstAt(ys, key, n - 1);
    }
  }

  /**
   * The seen-set filter keeps exactly the first occurrence of every key,
   * in input order, and covers every key of the input.
   */
  lemma {:induction false} KeepFirstSpec<T, K>(xs: seq<T>, key: T -> K)
    ensures KeepFirst(xs, key) == FirstOccurrences(xs, key, |xs|)
    ensures NoDupKeys(KeepFirst(xs, key), key)
    ensures KeySet(KeepFirst(xs, key), key) == KeySet(xs, key)
    decreases |xs|
  {
    if xs != [] {
      var n := |xs| - 1;
      var init, x := xs[..n], xs[n];
      assert xs == init + [x];
      KeepFirstSpec(init, key);
      var d := KeepFirst(init, key);
      FirstOccurrencesPrefix(xs, init, key, n);
      assert init[..n] == init;
      KeySetSnoc(init, key, x);
      assert IsFirstAt(xs, key, n) <==> key(x) !in KeySet(init, key) by {
        if !IsFirstAt(xs, key, n) {
          var k :| 0 <= k < n && key(xs[k]) == key(xs[n]);
          assert init[k] == xs[k];
        }
        if key(x) in KeySet(init, key) {
          var k :| 0 <= k < n && key(init[k]) == key(x);
          assert xs[k] == init[k];
        }
      }
      if key(x) !in KeySet(d, key) {
        KeySetSnoc(d, key, x);
        forall i, j | 0 <= i < j < |d| + 1 ensures key((d + [x])[i]) != key((d + [x])[j]) {
          if j == |d| { assert key(d[i]) in KeySet(d, key); }
        }
      }
    }
  }

  /** Deduplicating twice changes nothing. */
  lemma {:induction false} KeepFirstIdempotent<T, K>(xs: seq<T>, key: T -> K)
    ensures KeepFirst(KeepFirst(xs, key), key) == KeepFirst(xs, key)
  {
    KeepFirstSpec(xs, key);
    NoDupKeepsAll(KeepFirst(xs, key), key);
  }

  lemma {:induction false} NoDupKeepsAll<T, K>(xs: seq<T>, key: T -> K)
    requires NoDupKeys(xs, key)
    ensures KeepFirst(xs, key) == xs
    decreases |xs|
  {
    if xs != [] {
      var n := |xs| - 1;
      assert NoDupKeys(xs[..n], key);
      NoDupKeepsAll(xs[..n], key);
      assert key(xs[n]) !in KeySet(xs[..n], key) by {
        forall i | 0 <= i < n ensures key(xs[..n][i]) != key(xs[n]) { assert xs[..n][i] == xs[i]; }
      }
      assert xs[..n] + [xs[n]] == xs;
    }
  }
}
