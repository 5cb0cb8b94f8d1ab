/**
 * Array operations the components use on lists: `filter` and counting the entries
 * that satisfy a test (`filter(...).length`), with the facts the models rely on.
 */
module Seqs {
  /** `xs.filter(p)`: the entries that satisfy `p`, in order. */
  function Filter<T>(xs: seq<T>, p: T -> bool): (r: seq<T>)
    ensures |r| <= |xs|
    ensures forall k :: 0 <= k < |r| ==> p(r[k])
  {
    if xs == [] then []
    else (if p(xs[0]) then [xs[0]] else []) + Filter(xs[1..], p)
  }

  /** An entry is kept exactly when it is in the list and satisfies the test. */
  lemma {:induction false} FilterMembers<T>(xs: seq<T>, p: T -> bool)
    ensures forall x :: x in Filter(xs, p) <==> x in xs && p(x)
  {
    if xs != [] {
      FilterMembers(xs[1..], p);
      assert xs == [xs[0]] + xs[1..];
    }
  }

  /** A test every entry passes keeps the whole list. */
  lemma {:induction false} FilterKeepsAll<T>(xs: seq<T>, p: T -> bool)
    requires forall k :: 0 <= k < |xs| ==> p(xs[k])
    ensures Filter(xs, p) == xs
  {
    if xs != [] {
      FilterKeepsAll(xs[1..], p);
    }
  }

  /** Filtering a list extended by one entry extends the filtered list by that entry when it passes. */
  lemma {:induction false} FilterAppend<T>(xs: seq<T>, x: T, p: T -> bool)
    ensures Filter(xs + [x], p) == Filter(xs, p) + (if p(x) then [x] else [])
  {
    var ys := xs + [x];
    if xs == [] {
      assert ys == [x] && ys[1..] == [];
    } else {
      assert ys[0] == xs[0] && ys[1..] == xs[1..] + [x];
      FilterAppend(xs[1..], x, p);
      assert Filter(ys, p) == (if p(xs[0]) then [xs[0]] else []) + Filter(ys[1..], p);
    }
  }

  /** `xs.filter(p).length`. */
  function CountWhere<T>(xs: seq<T>, p: T -> bool): (n: nat)
    ensures n <= |xs|
  {
    if xs == [] then 0 else (if p(xs[0]) then 1 else 0) + CountWhere(xs[1..], p)
  }

  /** Counting over a list extended by one entry adds one when that entry passes. */
  lemma {:induction false} CountAppend<T>(xs: seq<T>, x: T, p: T -> bool)
    ensures CountWhere(xs + [x], p) == CountWhere(xs, p) + (if p(x) then 1 else 0)
  {
    if xs == [] {
      assert xs + [x] == [x];
    } else {
      assert (xs + [x])[1..] == xs[1..] + [x];
      CountAppend(xs[1..], x, p);
    }
  }

  /** The count is the length of the filtered list. */
  lemma {:induction false} CountIsFilterLength<T>(xs: seq<T>, p: T -> bool)
    ensures CountWhere(xs, p) == |Filter(xs, p)|
  {
    if xs != [] {
      CountIsFilterLength(xs[1..], p);
    }
  }

  /** The entries that pass a test and those that fail it together make up the list. */
  lemma {:induction false} CountSplits<T>(xs: seq<T>, p: T -> bool, q: T -> bool)
    requires forall k :: 0 <= k < |xs| ==> (q(xs[k]) <==> !p(xs[k]))
    ensures CountWhere(xs, p) + CountWhere(xs, q) == |xs|
  {
    if xs != [] {
      CountSplits(xs[1..], p, q);
    }
  }

  /** No entry passes the test exactly when the count is zero. */
  lemma {:induction false} CountZero<T>(xs: seq<T>, p: T -> bool)
    ensures CountWhere(xs, p) == 0 <==> forall k :: 0 <= k < |xs| ==> !p(xs[k])
  {
    if xs != [] {
      CountZero(xs[1..], p);
      assert forall k :: 1 <= k < |xs| ==> xs[k] == xs[1..][k - 1];
    }
  }

  /** Entries that fall into exactly one of three classes: the three counts add up to the length. */
  lemma {:induction false} CountThreeWay<T>(xs: seq<T>, p: T -> bool, q: T -> bool, r: T -> bool)
    requires forall k :: 0 <= k < |xs| ==> (p(xs[k]) || q(xs[k]) || r(xs[k]))
    requires forall k :: 0 <= k < |xs| ==> !(p(xs[k]) && q(xs[k])) && !(p(xs[k]) && r(xs[k])) && !(q(xs[k]) && r(xs[k]))
    ensures CountWhere(xs, p) + CountWhere(xs, q) + CountWhere(xs, r) == |xs|
  {
    if xs != [] {
      CountThreeWay(xs[1..], p, q, r);
    }
  }

  /** `[...new Set(xs)]`: each distinct entry once, in order of first appearance. */
  function Distinct<T(==,!new)>(xs: seq<T>): (r: seq<T>)
    ensures forall x :: x in r <==> x in xs
    ensures forall i, j :: 0 <= i < j < |r| ==> r[i] != r[j]
  {
    if xs == [] then []
    else
      var d := Distinct(xs[..|xs| - 1]);
      assert forall x :: x in xs <==> x in xs[..|xs| - 1] || x == xs[|xs| - 1] by {
        assert xs == xs[..|xs| - 1] + [xs[|xs| - 1]];
      }
      if xs[|xs| - 1] in d then d else d + [xs[|xs| - 1]]
  }

  /** Appending an entry appends it to the distinct entries when it is new. */
  lemma DistinctAppend<T(!new)>(xs: seq<T>, x: T)
    ensures Distinct(xs + [x]) == if x in Distinct(xs) then Distinct(xs) else Distinct(xs) + [x]
  {
    assert (xs + [x])[..|xs|] == xs;
  }
}
