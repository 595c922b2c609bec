/** Sums of the weights of numbered tasks. */
module Weights {

  /** The weights of the tasks numbered below `n`, added up. */
  function Total(w: map<nat, nat>, n: nat): nat {
    if n == 0 then 0 else Total(w, n - 1) + if n - 1 in w then w[n - 1] else 0
  }

  lemma {:induction false} TotalAgrees(w: map<nat, nat>, w': map<nat, nat>, n: nat)
    requires forall k: nat :: k < n ==> (k in w <==> k in w') && (k in w ==> w[k] == w'[k])
    ensures Total(w, n) == Total(w', n)
  {
    if n > 0 {
      TotalAgrees(w, w', n - 1);
    }
  }

  lemma {:induction false} TotalWithout(w: map<nat, nat>, k: nat, n: nat)
    requires k in w
    ensures Total(w, n) == Total(w - {k}, n) + if k < n then w[k] else 0
  {
    if n > 0 {
      TotalWithout(w, k, n - 1);
    }
  }

  /** Numbers without a weight add nothing. */
  lemma {:induction false} TotalBeyond(w: map<nat, nat>, n: nat, m: nat)
    requires n <= m && forall k :: k in w ==> k < n
    ensures Total(w, m) == Total(w, n)
  {
    if n < m {
      TotalBeyond(w, n, m - 1);
    }
  }

  /** One more task, numbered after all others. */
  lemma TotalPlus(w: map<nat, nat>, k: nat, v: nat)
    requires forall j :: j in w ==> j < k
    ensures Total(w[k := v], k + 1) == Total(w, k) + v
  {
    TotalAgrees(w, w[k := v], k);
  }

  /** A run of tasks of equal weight. */
  lemma {:induction false} TotalRun(w: map<nat, nat>, n: nat, m: nat, v: nat)
    requires n <= m && forall k: nat :: n <= k < m ==> k in w && w[k] == v
    ensures Total(w, m) == Total(w, n) + v * (m - n)
  {
    if n < m {
      TotalRun(w, n, m - 1, v);
      assert v * (m - n) == v * (m - 1 - n) + v;
    }
  }
}
