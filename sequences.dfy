/** Generic facts about sequences that the dashboard relies on: the distinct
    values of a column in order of first appearance, subsequences, and sums of
    multiplicities. */
module Sequences {

  /** No value occurs twice in `xs`. */
  predicate NoDuplicates<T(==)>(xs: seq<T>) {
    forall i, j :: 0 <= i < j < |xs| ==> xs[i] != xs[j]
  }

  /** The position of the first occurrence of `x` in `xs`. */
  function FirstIndex<T(==)>(xs: seq<T>, x: T): (k: nat)
    requires x in xs
    ensures k < |xs| && xs[k] == x
    ensures forall i :: 0 <= i < k ==> xs[i] != x
  {
    if xs[0] == x then 0 else 1 + FirstIndex(xs[1..], x)
  }

  /** The distinct values of `xs`, each once, in the order in which they first
      appear (the behaviour of `unique()` on a column). */
  function Distinct<T(==)>(xs: seq<T>): (r: seq<T>)
    ensures forall i :: 0 <= i < |r| ==> r[i] in xs
    ensures forall i :: 0 <= i < |xs| ==> xs[i] in r
    ensures NoDuplicates(r)
  {
    if xs == [] then []
    else
      var seen := Distinct(xs[..|xs| - 1]);
      var last := xs[|xs| - 1];
      assert xs == xs[..|xs| - 1] + [last];
      if last in seen then seen else seen + [last]
  }

  /** `xs` can be obtained from `ys` by deleting elements, keeping the order. */
  ghost predicate IsSubsequence<T>(xs: seq<T>, ys: seq<T>)
    decreases |ys|
  {
    xs == [] ||
    (ys != [] &&
     ((xs[0] == ys[0] && IsSubsequence(xs[1..], ys[1..])) || IsSubsequence(xs, ys[1..])))
  }

  /** The total multiplicity in `m` of the values listed in `ks`. */
  function SumCounts<T>(ks: seq<T>, m: multiset<T>): nat {
    if ks == [] then 0 else SumCounts(ks[..|ks| - 1], m) + m[ks[|ks| - 1]]
  }

  /** Appending a value does not move the first occurrence of a value that
      is already present. */
  lemma FirstIndexOfPrefix<T>(p: seq<T>, y: T, z: T)
    requires z in p
    ensures FirstIndex(p + [y], z) == FirstIndex(p, z)
  {
    var k := FirstIndex(p, z);
    assert (p + [y])[k] == z;
  }

  /** Distinct lists the values in the order of their first occurrence. */
  lemma {:induction false} DistinctFirstSeen<T>(xs: seq<T>)
    ensures forall i, j :: 0 <= i < j < |Distinct(xs)| ==>
              FirstIndex(xs, Distinct(xs)[i]) < FirstIndex(xs, Distinct(xs)[j])
  {
    if xs != [] {
      var p, y := xs[..|xs| - 1], xs[|xs| - 1];
      assert xs == p + [y];
      DistinctFirstSeen(p);
      var dp, dx := Distinct(p), Distinct(xs);
      forall i, j | 0 <= i < j < |dx|
        ensures FirstIndex(xs, dx[i]) < FirstIndex(xs, dx[j])
      {
        assert dx[i] == dp[i] && dp[i] in p;
        FirstIndexOfPrefix(p, y, dp[i]);
        if j < |dp| {
          assert dx[j] == dp[j] && dp[j] in p;
          FirstIndexOfPrefix(p, y, dp[j]);
        } else {
          assert dx[j] == y && y !in p;
          assert FirstIndex(xs, y) == |p|;
        }
      }
    }
  }

  /** Adding one occurrence of `x` to `m` adds one to the sum exactly when `x`
      is one of the (distinct) keys. */
  lemma {:induction false} SumCountsAdd<T>(ks: seq<T>, m: multiset<T>, x: T)
    requires NoDuplicates(ks)
    ensures SumCounts(ks, m + multiset{x}) == SumCounts(ks, m) + (if x in ks then 1 else 0)
  {
    if ks != [] {
      var init := ks[..|ks| - 1];
      assert ks == init + [ks[|ks| - 1]];
      SumCountsAdd(init, m, x);
    }
  }

  /** The multiplicities of the distinct values of `xs` add up to `|xs|`. */
  lemma {:induction false} DistinctCountsSum<T>(xs: seq<T>)
    ensures SumCounts(Distinct(xs), multiset(xs)) == |xs|
  {
    if xs != [] {
      var p, y := xs[..|xs| - 1], xs[|xs| - 1];
      assert xs == p + [y];
      assert multiset(xs) == multiset(p) + multiset{y};
      DistinctCountsSum(p);
      var dp := Distinct(p);
      SumCountsAdd(dp, multiset(p), y);
      if y !in p {
        var dx := Distinct(xs);
        assert dx == dp + [y];
        assert dx[..|dx| - 1] == dp;
        assert multiset(p)[y] == 0;
      }
    }
  }
}
