/** Sums of time steps. */
module Elapsed {

  predicate NonNegative(ds: seq<real>) {
    forall i :: 0 <= i < |ds| ==> 0.0 <= ds[i]
  }

  function Sum(ds: seq<real>): real {
    if ds == [] then 0.0 else Sum(ds[..|ds| - 1]) + ds[|ds| - 1]
  }

  lemma {:induction false} SumNonNegative(ds: seq<real>)
    requires NonNegative(ds)
    ensures Sum(ds) >= 0.0
  {
    if ds != [] {
      SumNonNegative(ds[..|ds| - 1]);
    }
  }

  /** n * d, by addition. */
  function Multiple(n: nat, d: real): real {
    if n == 0 then 0.0 else Multiple(n - 1, d) + d
  }

  lemma {:induction false} MultipleIsProduct(n: nat, d: real)
    ensures Multiple(n, d) == n as real * d
  {
    if n > 0 {
      MultipleIsProduct(n - 1, d);
    }
  }

  lemma {:induction false} MultiplesApart(j: nat, k: nat, d: real)
    requires d > 0.0 && j < k
    ensures Multiple(k, d) >= Multiple(j, d) + d
  {
    if j < k - 1 {
      MultiplesApart(j, k - 1, d);
    }
  }
}
