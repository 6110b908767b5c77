/** Strictly increasing sequences of numbers. */
module Sequences {

  ghost predicate Increasing(q: seq<nat>) {
    forall i, j :: 0 <= i < j < |q| ==> q[i] < q[j]
  }

  lemma {:induction false} IncreasingAtLeast(q: seq<nat>, k: nat)
    requires Increasing(q) && k < |q|
    ensures q[k] >= k
  {
    if k > 0 {
      IncreasingAtLeast(q, k - 1);
    }
  }

  lemma {:induction false} IncreasingAtMost(q: seq<nat>, n: nat, k: nat)
    requires Increasing(q) && k < |q| && forall j :: 0 <= j < |q| ==> q[j] < n
    ensures q[k] <= n - (|q| - k)
    decreases |q| - k
  {
    if k < |q| - 1 {
      IncreasingAtMost(q, n, k + 1);
    }
  }

  /** n increasing numbers below n are 0..n-1. */
  lemma IncreasingDense(q: seq<nat>, n: nat, k: nat)
    requires Increasing(q) && |q| == n && k < n && forall j :: 0 <= j < |q| ==> q[j] < n
    ensures q[k] == k
  {
    IncreasingAtLeast(q, k);
    IncreasingAtMost(q, n, k);
  }
}
