/** The 100%-stacked generator's normalisation: each category's draws
    divided by their sum (`val / total`), as exact reals. */
module Proportions {
  import opened Aggregate
  import opened Tables

  ghost predicate Positive(b: seq<int>)
  {
    forall j :: 0 <= j < |b| ==> b[j] > 0
  }

  /** Every value divided by `d`. */
  function Scaled(b: seq<int>, d: real): (r: seq<real>)
    requires d != 0.0
    ensures |r| == |b| && forall j :: 0 <= j < |b| ==> r[j] == b[j] as real / d
  {
    seq(|b|, j requires 0 <= j < |b| => b[j] as real / d)
  }

  /** The proportions of one category: each value over the category's
      total, which is positive as soon as there is a value. */
  function Shares(b: seq<int>): (r: seq<real>)
    requires Positive(b)
    ensures |r| == |b|
  {
    if b == [] then []
    else
      SumAtLeast(b, 1);
      Scaled(b, Sum(b) as real)
  }

  /** Each proportion is its value over the category's total. */
  lemma SharesAreRatios(b: seq<int>)
    requires Positive(b) && b != []
    ensures Sum(b) > 0
    ensures forall j :: 0 <= j < |b| ==> Shares(b)[j] == b[j] as real / Sum(b) as real
  {
    SumAtLeast(b, 1);
  }

  /** Scaling commutes with summing. */
  lemma {:induction false} ScaledSum(b: seq<int>, d: real)
    requires d != 0.0
    ensures SumReals(Scaled(b, d)) == Sum(b) as real / d
    decreases |b|
  {
    if b != [] {
      var n := |b| - 1;
      assert Scaled(b, d)[..n] == Scaled(b[..n], d);
      ScaledSum(b[..n], d);
      assert (Sum(b[..n]) + b[n]) as real / d == Sum(b[..n]) as real / d + b[n] as real / d;
    }
  }

  /** A value of a positive sequence is at most its total. */
  lemma {:induction false} AtMostSum(b: seq<int>, j: nat)
    requires Positive(b) && j < |b|
    ensures b[j] <= Sum(b)
    decreases |b|
  {
    var n := |b| - 1;
    SumAtLeast(b[..n], 1);
    if j < n {
      AtMostSum(b[..n], j);
    }
  }

  /** The proportions of a category add up to exactly 1. */
  lemma SharesSumToOne(b: seq<int>)
    requires Positive(b) && b != []
    ensures SumReals(Shares(b)) == 1.0
  {
    SumAtLeast(b, 1);
    var t := Sum(b) as real;
    ScaledSum(b, t);
    assert t / t == 1.0;
  }

  /** Each proportion lies in (0, 1], and it is 1 only for a category with
      a single series. */
  lemma ShareBounds(b: seq<int>, j: nat)
    requires Positive(b) && j < |b|
    ensures 0.0 < Shares(b)[j] <= 1.0
    ensures |b| > 1 ==> Shares(b)[j] < 1.0
  {
    SumAtLeast(b, 1);
    AtMostSum(b, j);
    if |b| > 1 {
      var other := if j == 0 then 1 else 0;
      AtMostSumPair(b, j, other);
    }
    RatioBounds(b[j] as real, Sum(b) as real);
  }

  lemma RatioBounds(x: real, t: real)
    requires 0.0 < x <= t
    ensures 0.0 < x / t <= 1.0
    ensures x < t ==> x / t < 1.0
  {
    var q := x / t;
    assert q * t == x;
  }

  /** Two different values of a positive sequence add up to at most its
      total. */
  lemma {:induction false} AtMostSumPair(b: seq<int>, j: nat, k: nat)
    requires Positive(b) && j < |b| && k < |b| && j != k
    ensures b[j] + b[k] <= Sum(b)
    decreases |b|
  {
    var n := |b| - 1;
    SumAtLeast(b[..n], 1);
    if j < n && k < n {
      AtMostSumPair(b[..n], j, k);
    } else if j < n {
      AtMostSum(b[..n], j);
    } else {
      AtMostSum(b[..n], k);
    }
  }
}
