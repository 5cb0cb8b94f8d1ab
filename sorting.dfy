/**
 * `Array.prototype.sort` with a numeric comparator `(a, b) => key(a) - key(b)`, as the
 * dashboards use it on copies of their lists: a stable sort by a key, ascending.
 * A descending sort (`key(b) - key(a)`) is the ascending sort by the negated key.
 */
module Sorting {
  /** The keys never decrease along the list. */
  predicate SortedBy<T>(xs: seq<T>, key: T -> real) {
    forall i, j :: 0 <= i < j < |xs| ==> key(xs[i]) <= key(xs[j])
  }

  /** Puts `x` in front of the first entry whose key is not smaller than its own. */
  function Insert<T>(x: T, ys: seq<T>, key: T -> real): (r: seq<T>)
    ensures multiset(r) == multiset(ys) + multiset{x}
    ensures |r| == |ys| + 1
  {
    if ys == [] || key(x) <= key(ys[0]) then [x] + ys
    else
      assert ys == [ys[0]] + ys[1..];
      [ys[0]] + Insert(x, ys[1..], key)
  }

  /** A lower bound of `x` and of every entry is a lower bound of every entry after the insertion. */
  lemma {:induction false} InsertKeepsLowerBound<T>(x: T, ys: seq<T>, key: T -> real, bound: real)
    requires bound <= key(x)
    requires forall k :: 0 <= k < |ys| ==> bound <= key(ys[k])
    ensures forall k :: 0 <= k < |Insert(x, ys, key)| ==> bound <= key(Insert(x, ys, key)[k])
  {
    if ys != [] && key(x) > key(ys[0]) {
      InsertKeepsLowerBound(x, ys[1..], key, bound);
    }
  }

  lemma {:induction false} InsertSorted<T>(x: T, ys: seq<T>, key: T -> real)
    requires SortedBy(ys, key)
    ensures SortedBy(Insert(x, ys, key), key)
  {
    if ys != [] && key(x) > key(ys[0]) {
      var tail := Insert(x, ys[1..], key);
      InsertSorted(x, ys[1..], key);
      InsertKeepsLowerBound(x, ys[1..], key, key(ys[0]));
      assert Insert(x, ys, key) == [ys[0]] + tail;
    }
  }

  /** The stable insertion sort: each entry goes before the later entries with the same key. */
  function SortBy<T>(xs: seq<T>, key: T -> real): (r: seq<T>)
    ensures multiset(r) == multiset(xs)
    ensures |r| == |xs|
  {
    if xs == [] then []
    else
      assert xs == [xs[0]] + xs[1..];
      Insert(xs[0], SortBy(xs[1..], key), key)
  }

  /** The sorted copy is ordered by the key and holds the same entries as the list. */
  lemma {:induction false} SortBySorted<T>(xs: seq<T>, key: T -> real)
    ensures SortedBy(SortBy(xs, key), key)
    ensures multiset(SortBy(xs, key)) == multiset(xs)
  {
    if xs != [] {
      SortBySorted(xs[1..], key);
      InsertSorted(xs[0], SortBy(xs[1..], key), key);
    }
  }

  /** A list already ordered by the key is its own sorted copy. */
  lemma {:induction false} SortBySortedInput<T>(xs: seq<T>, key: T -> real)
    requires SortedBy(xs, key)
    ensures SortBy(xs, key) == xs
  {
    if xs != [] {
      assert SortedBy(xs[1..], key);
      SortBySortedInput(xs[1..], key);
    }
  }

  /** The first `n` entries, or the whole list when it is shorter (`slice(0, n)`). */
  function Take<T>(xs: seq<T>, n: nat): (r: seq<T>)
    ensures |r| == if |xs| < n then |xs| else n
    ensures forall k :: 0 <= k < |r| ==> r[k] == xs[k]
  {
    if |xs| <= n then xs else xs[..n]
  }
}
