/**
 * A stable sort by key, the behaviour of Python's `sorted(xs, key=...)` and of
 * an SQL `ORDER BY` on one column, together with the facts the handlers need:
 * the result is a permutation, it is ordered by key, and elements with equal
 * keys keep their original relative order.
 */
module Sorting {

  /** `less` is a strict total order on keys. */
  ghost predicate StrictTotalOrder<K(!new)>(less: (K, K) -> bool) {
    && Irreflexive(less)
    && (forall a, b, c :: less(a, b) && less(b, c) ==> less(a, c))
    && (forall a, b :: a != b ==> less(a, b) || less(b, a))
  }

  ghost predicate Irreflexive<K(!new)>(less: (K, K) -> bool) {
    forall a :: !less(a, a)
  }

  /** No element is followed by one with a smaller key. */
  ghost predicate SortedByKey<T, K>(s: seq<T>, key: T -> K, less: (K, K) -> bool) {
    forall i, j :: 0 <= i < j < |s| ==> !less(key(s[j]), key(s[i]))
  }

  /** The elements of `s` whose key is `k`, in their order in `s`. */
  function WithKey<T, K(==)>(s: seq<T>, key: T -> K, k: K): (r: seq<T>)
    ensures |r| <= |s|
  {
    if s == [] then []
    else (if key(s[0]) == k then [s[0]] else []) + WithKey(s[1..], key, k)
  }

  /** Puts `x` in front of the first element whose key is not smaller than its own. */
  function InsertByKey<T, K>(x: T, s: seq<T>, key: T -> K, less: (K, K) -> bool): (r: seq<T>)
    ensures multiset(r) == multiset(s) + multiset{x}
  {
    if s == [] || !less(key(s[0]), key(x)) then [x] + s
    else
      assert s == [s[0]] + s[1..];
      [s[0]] + InsertByKey(x, s[1..], key, less)
  }

  /** Insertion sort by key, stable. */
  function SortByKey<T, K>(s: seq<T>, key: T -> K, less: (K, K) -> bool): (r: seq<T>)
    ensures multiset(r) == multiset(s)
  {
    if s == [] then []
    else
      assert s == [s[0]] + s[1..];
      InsertByKey(s[0], SortByKey(s[1..], key, less), key, less)
  }

  lemma {:induction false} InsertByKeySorted<T, K(!new)>(x: T, s: seq<T>, key: T -> K, less: (K, K) -> bool)
    requires StrictTotalOrder(less)
    requires SortedByKey(s, key, less)
    ensures SortedByKey(InsertByKey(x, s, key, less), key, less)
  {
    var r := InsertByKey(x, s, key, less);
    if s == [] || !less(key(s[0]), key(x)) {
      forall j | 0 < j < |r|
        ensures !less(key(r[j]), key(r[0]))
      {
        assert r[j] == s[j - 1];
        if j > 1 {
          assert !less(key(s[j - 1]), key(s[0]));
        }
      }
    } else {
      var t := InsertByKey(x, s[1..], key, less);
      assert SortedByKey(s[1..], key, less) by {
        forall i, j | 0 <= i < j < |s[1..]|
          ensures !less(key(s[1..][j]), key(s[1..][i]))
        {
          assert s[1..][j] == s[j + 1] && s[1..][i] == s[i + 1];
        }
      }
      InsertByKeySorted(x, s[1..], key, less);
      assert r == [s[0]] + t;
      forall j | 0 < j < |r|
        ensures !less(key(r[j]), key(s[0]))
      {
        assert r[j] == t[j - 1];
        assert t[j - 1] in multiset(s[1..]) + multiset{x};
        if t[j - 1] in multiset(s[1..]) {
          var m :| 0 <= m < |s[1..]| && s[1..][m] == t[j - 1];
          assert s[m + 1] == t[j - 1];
        } else {
          assert t[j - 1] == x;
        }
      }
    }
  }

  lemma {:induction false} SortByKeySorted<T, K(!new)>(s: seq<T>, key: T -> K, less: (K, K) -> bool)
    requires StrictTotalOrder(less)
    ensures SortedByKey(SortByKey(s, key, less), key, less)
  {
    if s != [] {
      SortByKeySorted(s[1..], key, less);
      InsertByKeySorted(s[0], SortByKey(s[1..], key, less), key, less);
    }
  }

  lemma {:induction false} WithKeyAppend<T, K>(a: seq<T>, b: seq<T>, key: T -> K, k: K)
    ensures WithKey(a + b, key, k) == WithKey(a, key, k) + WithKey(b, key, k)
  {
    if a != [] {
      var head := if key(a[0]) == k then [a[0]] else [];
      assert (a + b)[0] == a[0];
      assert (a + b)[1..] == a[1..] + b;
      WithKeyAppend(a[1..], b, key, k);
      assert WithKey(a + b, key, k) == head + WithKey(a[1..] + b, key, k);
      assert WithKey(a, key, k) == head + WithKey(a[1..], key, k);
    } else {
      assert a + b == b;
    }
  }

  lemma WithKeySingle<T, K>(y: T, key: T -> K, k: K)
    ensures WithKey([y], key, k) == if key(y) == k then [y] else []
  {
    assert [y][1..] == [];
  }

  /** Inserting `x` puts it in front of every element that has the same key. */
  lemma {:induction false} InsertByKeyStable<T, K(!new)>(x: T, s: seq<T>, key: T -> K, less: (K, K) -> bool, k: K)
    requires Irreflexive(less)
    ensures WithKey(InsertByKey(x, s, key, less), key, k) ==
            WithKey([x], key, k) + WithKey(s, key, k)
  {
    if s == [] || !less(key(s[0]), key(x)) {
      WithKeyAppend([x], s, key, k);
    } else {
      var t := InsertByKey(x, s[1..], key, less);
      assert InsertByKey(x, s, key, less) == [s[0]] + t;
      InsertByKeyStable(x, s[1..], key, less, k);
      WithKeyAppend([s[0]], t, key, k);
      assert key(s[0]) != key(x) by {
        assert !less(key(x), key(x));
      }
      WithKeySingle(s[0], key, k);
      WithKeySingle(x, key, k);
      assert [s[0]] + s[1..] == s;
      WithKeyAppend([s[0]], s[1..], key, k);
    }
  }

  /** Stability: among elements with equal keys the original order is kept. */
  lemma {:induction false} SortByKeyStable<T, K(!new)>(s: seq<T>, key: T -> K, less: (K, K) -> bool, k: K)
    requires StrictTotalOrder(less)
    ensures WithKey(SortByKey(s, key, less), key, k) == WithKey(s, key, k)
  {
    if s != [] {
      SortByKeyStable(s[1..], key, less, k);
      InsertByKeyStable(s[0], SortByKey(s[1..], key, less), key, less, k);
      assert [s[0]] + s[1..] == s;
      WithKeyAppend([s[0]], s[1..], key, k);
    }
  }

  /** The elements of `s` in the opposite order, for `ORDER BY ... DESC`. */
  function Reverse<T>(s: seq<T>): (r: seq<T>)
    ensures |r| == |s|
    ensures forall i :: 0 <= i < |s| ==> r[i] == s[|s| - 1 - i]
  {
    if s == [] then [] else Reverse(s[1..]) + [s[0]]
  }

  lemma {:induction false} ReverseMultiset<T>(s: seq<T>)
    ensures multiset(Reverse(s)) == multiset(s)
  {
    if s != [] {
      ReverseMultiset(s[1..]);
      assert [s[0]] + s[1..] == s;
    }
  }
}
