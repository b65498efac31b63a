/**
 * `Enumerable.OrderBy` on an integer key: a stable sort. It fixes the order in
 * which battle rewards are applied and the order of every serialised id list.
 */
module Sorting {

  /** Each element's key is at most its successor's. */
  predicate SortedBy<T>(s: seq<T>, key: T -> int)
  {
    forall i :: 0 < i < |s| ==> key(s[i - 1]) <= key(s[i])
  }

  /**
   * Inserts `x` in front of the first element whose key is not smaller. Since `x`
   * precedes every element of `s` in the input, ties keep the input order.
   */
  function Insert<T(==)>(x: T, s: seq<T>, key: T -> int): (r: seq<T>)
    ensures multiset(r) == multiset(s) + multiset{x}
    ensures |r| == |s| + 1
    ensures r[0] == x || (s != [] && r[0] == s[0])
    ensures SortedBy(s, key) ==> SortedBy(r, key)
  {
    if s == [] then [x]
    else if key(x) <= key(s[0]) then [x] + s
    else
      var tail := Insert(x, s[1..], key);
      assert s == [s[0]] + s[1..];
      [s[0]] + tail
  }

  /** The stable sort of `s` by `key`: a sorted permutation of `s`. */
  function SortBy<T(==)>(s: seq<T>, key: T -> int): (r: seq<T>)
    ensures SortedBy(r, key)
    ensures multiset(r) == multiset(s)
    ensures |r| == |s|
  {
    if s == [] then []
    else
      assert s == [s[0]] + s[1..];
      Insert(s[0], SortBy(s[1..], key), key)
  }

  /** Adjacent order gives the order of every pair. */
  lemma {:induction false} SortedByPairwise<T>(s: seq<T>, key: T -> int, i: int, j: int)
    requires SortedBy(s, key)
    requires 0 <= i <= j < |s|
    ensures key(s[i]) <= key(s[j])
    decreases j - i
  {
    if i < j {
      SortedByPairwise(s, key, i + 1, j);
    }
  }

  /** Sorting an already sorted sequence leaves it as it is. */
  lemma {:induction false} SortBySorted<T>(s: seq<T>, key: T -> int)
    requires SortedBy(s, key)
    ensures SortBy(s, key) == s
  {
    if s != [] {
      assert SortedBy(s[1..], key);
      SortBySorted(s[1..], key);
      if |s| > 1 {
        assert key(s[0]) <= key(s[1]);
      }
    }
  }

  /** Sorting twice is sorting once. */
  lemma SortByIdempotent<T>(s: seq<T>, key: T -> int)
    ensures SortBy(SortBy(s, key), key) == SortBy(s, key)
  {
    SortBySorted(SortBy(s, key), key);
  }

  /** Under an injective key, two sorted sequences with the same elements are equal. */
  lemma {:induction false} SortedPermutationsEqual<T>(x: seq<T>, y: seq<T>, key: T -> int)
    requires forall a, b :: key(a) == key(b) ==> a == b
    requires SortedBy(x, key) && SortedBy(y, key)
    requires multiset(x) == multiset(y)
    ensures x == y
  {
    if x != [] {
      assert x[0] in multiset(y);
      var j :| 0 <= j < |y| && y[j] == x[0];
      assert y[0] in multiset(x);
      var i :| 0 <= i < |x| && x[i] == y[0];
      SortedByPairwise(y, key, 0, j);
      SortedByPairwise(x, key, 0, i);
      var t := x[0];
      assert t == y[0];
      assert multiset(x[1..]) == multiset(x) - multiset{t} by { assert x == [t] + x[1..]; }
      assert multiset(y[1..]) == multiset(y) - multiset{t} by { assert y == [t] + y[1..]; }
      SortedPermutationsEqual(x[1..], y[1..], key);
      assert x == [t] + x[1..] && y == [t] + y[1..];
    } else {
      assert |y| == |multiset(y)|;
    }
  }

  /** Sorting by an injective key forgets the input order: permutations sort to the same sequence. */
  lemma SortByCanonical<T>(x: seq<T>, y: seq<T>, key: T -> int)
    requires forall a, b :: key(a) == key(b) ==> a == b
    requires multiset(x) == multiset(y)
    ensures SortBy(x, key) == SortBy(y, key)
  {
    SortedPermutationsEqual(SortBy(x, key), SortBy(y, key), key);
  }
}
