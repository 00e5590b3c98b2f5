/** Counting: the numbers below n, and sequences without repetition. */
module Numbers {

  const UINT64 := 0x1_0000_0000_0000_0000

  function Below(n: nat): (s: set<nat>)
    ensures forall x: nat :: x in s <==> x < n
    ensures |s| == n
  {
    if n == 0 then {} else Below(n - 1) + {n - 1}
  }

  ghost predicate Distinct(xs: seq<nat>) {
    forall i, j | 0 <= i < j < |xs| :: xs[i] != xs[j]
  }

  lemma {:induction false} DistinctFit(xs: seq<nat>, s: set<nat>)
    requires Distinct(xs) && forall i | 0 <= i < |xs| :: xs[i] in s
    ensures |xs| <= |s|
  {
    if xs != [] {
      var n := |xs| - 1;
      assert forall i | 0 <= i < n :: xs[..n][i] != xs[n];
      DistinctFit(xs[..n], s - {xs[n]});
    }
  }

  /** Distinct numbers below their own count are all the numbers below it. */
  lemma {:induction false} Pigeonhole(xs: seq<nat>, k: nat)
    requires Distinct(xs) && k < |xs|
    requires forall i | 0 <= i < |xs| :: xs[i] < |xs|
    ensures k in xs
  {
    if k !in xs {
      DistinctFit(xs, Below(|xs|) - {k});
    }
  }
}
