/**
 * `[...xs].sort(compare)` for a three-way comparator that compares one key of each
 * element: negative when the first key is smaller, positive when larger, 0 otherwise.
 * Since ECMAScript 2019 `Array.prototype.sort` is stable, so the model is a stable
 * insertion sort on a fresh sequence; the input is a value and is never touched.
 */
module Sorting {
  import opened Lists

  /** The key order the comparator decides by: irreflexive, transitive and total, so
      "neither is smaller" means the two keys are equal. */
  ghost predicate StrictTotalOrder<K(!new)>(less: (K, K) -> bool) {
    && (forall a :: !less(a, a))
    && (forall a, b, c :: less(a, b) && less(b, c) ==> less(a, c))
    && (forall a, b :: a != b ==> less(a, b) || less(b, a))
  }

  /** No element is followed by one with a smaller key. */
  ghost predicate SortedBy<T, K>(s: seq<T>, key: T -> K, less: (K, K) -> bool) {
    forall i, j :: 0 <= i < j < |s| ==> !less(key(s[j]), key(s[i]))
  }

  /** The test "this element's key is k", used to state stability. */
  function HasKey<T, K(==)>(key: T -> K, k: K): T -> bool {
    x => key(x) == k
  }

  /** Places x in front of the first element whose key is not smaller than x's. */
  function Insert<T, K>(x: T, s: seq<T>, key: T -> K, less: (K, K) -> bool): (r: seq<T>)
    ensures multiset(r) == multiset(s) + multiset{x}
  {
    if s == [] then [x]
    else if less(key(s[0]), key(x)) then
      assert s == [s[0]] + s[1..];
      [s[0]] + Insert(x, s[1..], key, less)
    else [x] + s
  }

  /** The sorted copy: a permutation of the input. */
  function SortBy<T, K>(xs: seq<T>, key: T -> K, less: (K, K) -> bool): (r: seq<T>)
    ensures multiset(r) == multiset(xs)
    ensures |r| == |xs|
  {
    if xs == [] then []
    else
      assert xs == [xs[0]] + xs[1..];
      Insert(xs[0], SortBy(xs[1..], key, less), key, less)
  }

  lemma {:induction false} InsertSorted<T, K(!new)>(x: T, s: seq<T>, key: T -> K, less: (K, K) -> bool)
    requires StrictTotalOrder(less)
    requires SortedBy(s, key, less)
    ensures SortedBy(Insert(x, s, key, less), key, less)
  {
    if s != [] {
      if less(key(s[0]), key(x)) {
        var t := Insert(x, s[1..], key, less);
        InsertSorted(x, s[1..], key, less);
        forall j | 0 <= j < |t|
          ensures !less(key(t[j]), key(s[0]))
        {
          assert t[j] in multiset(t);
          if t[j] != x {
            assert t[j] in multiset(s[1..]);
            var m :| 0 <= m < |s[1..]| && s[1..][m] == t[j];
            assert s[m + 1] == t[j];
          }
        }
        assert Insert(x, s, key, less) == [s[0]] + t;
      } else {
        forall j | 0 <= j < |s|
          ensures !less(key(s[j]), key(x))
        {
          if j > 0 {
            assert !less(key(s[j]), key(s[0]));
          }
        }
      }
    }
  }

  /** The output is in non-decreasing key order. */
  lemma {:induction false} SortBySorted<T, K(!new)>(xs: seq<T>, key: T -> K, less: (K, K) -> bool)
    requires StrictTotalOrder(less)
    ensures SortedBy(SortBy(xs, key, less), key, less)
  {
    if xs != [] {
      SortBySorted(xs[1..], key, less);
      InsertSorted(xs[0], SortBy(xs[1..], key, less), key, less);
    }
  }

  lemma {:induction false} InsertStable<T(!new), K(!new)>(x: T, s: seq<T>, key: T -> K, less: (K, K) -> bool, k: K)
    requires forall a :: !less(a, a)
    ensures Filter(Insert(x, s, key, less), HasKey(key, k))
         == (if key(x) == k then [x] else []) + Filter(s, HasKey(key, k))
  {
    var p := HasKey(key, k);
    if s == [] {
      FilterCons(x, [], p);
    } else if less(key(s[0]), key(x)) {
      var t := Insert(x, s[1..], key, less);
      InsertStable(x, s[1..], key, less, k);
      FilterCons(s[0], t, p);
      FilterCons(s[0], s[1..], p);
      assert s == [s[0]] + s[1..];
      assert key(s[0]) != key(x);
    } else {
      FilterCons(x, s, p);
    }
  }

  /** Stability: the elements sharing any one key keep their input order. */
  lemma {:induction false} SortByStable<T(!new), K(!new)>(xs: seq<T>, key: T -> K, less: (K, K) -> bool, k: K)
    requires StrictTotalOrder(less)
    ensures Filter(SortBy(xs, key, less), HasKey(key, k)) == Filter(xs, HasKey(key, k))
  {
    if xs != [] {
      var p := HasKey(key, k);
      SortByStable(xs[1..], key, less, k);
      InsertStable(xs[0], SortBy(xs[1..], key, less), key, less, k);
      assert Filter(xs, p) == (if p(xs[0]) then [xs[0]] else []) + Filter(xs[1..], p);
    }
  }

  /** An already sorted input comes back unchanged. */
  lemma {:induction false} SortByKeepsSorted<T, K>(xs: seq<T>, key: T -> K, less: (K, K) -> bool)
    requires SortedBy(xs, key, less)
    ensures SortBy(xs, key, less) == xs
  {
    if xs != [] {
      assert SortedBy(xs[1..], key, less);
      SortByKeepsSorted(xs[1..], key, less);
      if |xs| > 1 {
        assert !less(key(xs[1]), key(xs[0]));
        assert xs[1..][0] == xs[1];
      }
    }
  }

  /** Sorting twice by the same key is sorting once. */
  lemma SortByIdempotent<T, K(!new)>(xs: seq<T>, key: T -> K, less: (K, K) -> bool)
    requires StrictTotalOrder(less)
    ensures SortBy(SortBy(xs, key, less), key, less) == SortBy(xs, key, less)
  {
    SortBySorted(xs, key, less);
    SortByKeepsSorted(SortBy(xs, key, less), key, less);
  }
}
