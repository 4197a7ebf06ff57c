/** The aggregates the generators take over their data tables: sums, and
    pandas' `idxmax`, which names the FIRST row (in the table's current
    order) whose value is maximal and raises on an empty column.  Numbers
    are compared as exact reals: integer columns are lifted with Reals,
    and ratio columns are exact quotients. */
module Aggregate {
  import opened Wrappers

  function Reals(s: seq<int>): (r: seq<real>)
    ensures |r| == |s| && forall i :: 0 <= i < |s| ==> r[i] == s[i] as real
  {
    seq(|s|, i requires 0 <= i < |s| => s[i] as real)
  }

  function Sum(s: seq<int>): int
  {
    if s == [] then 0 else Sum(s[..|s| - 1]) + s[|s| - 1]
  }

  function SumReals(s: seq<real>): real
  {
    if s == [] then 0.0 else SumReals(s[..|s| - 1]) + s[|s| - 1]
  }

  /** The sum of values that are all at least `lo` is at least `lo` times
      their number. */
  lemma {:induction false} SumAtLeast(s: seq<int>, lo: int)
    requires forall i :: 0 <= i < |s| ==> lo <= s[i]
    ensures Sum(s) >= lo * |s|
  {
    if s != [] {
      SumAtLeast(s[..|s| - 1], lo);
    }
  }

  lemma {:induction false} SumAppend(a: seq<int>, b: seq<int>)
    ensures Sum(a + b) == Sum(a) + Sum(b)
    decreases |b|
  {
    if b == [] {
      assert a + b == a;
    } else {
      assert (a + b)[..|a + b| - 1] == a + b[..|b| - 1];
      SumAppend(a, b[..|b| - 1]);
    }
  }

  /** `k` is the position pandas' idxmax reports for `s`. */
  ghost predicate IsFirstMax(s: seq<real>, k: int)
  {
    0 <= k < |s| &&
    (forall j :: 0 <= j < |s| ==> s[j] <= s[k]) &&
    (forall j :: 0 <= j < k ==> s[j] < s[k])
  }

  /** pandas' `Series.idxmax()` as a position: None where pandas raises
      ValueError on an empty column. */
  function IdxMax(s: seq<real>): (r: Option<nat>)
    ensures r.None? <==> s == []
    ensures r.Some? ==> IsFirstMax(s, r.value)
  {
    if s == [] then None
    else
      var prefix := IdxMax(s[..|s| - 1]);
      if prefix.None? || s[prefix.value] < s[|s| - 1] then Some(|s| - 1) else prefix
  }

  /** There is only one such position, so the contract of IdxMax
      determines its result. */
  lemma FirstMaxUnique(s: seq<real>, k: int, m: int)
    requires IsFirstMax(s, k) && IsFirstMax(s, m)
    ensures k == m
  {
    assert s[k] == s[m];
  }

  /** `df.loc[df[value].idxmax(), label]`: the label of the first row whose
      value is maximal; None where idxmax raises. */
  function LabelAtMax<L>(labels: seq<L>, values: seq<real>): (r: Option<L>)
    requires |labels| == |values|
    ensures r.None? <==> values == []
    ensures r.Some? ==> exists k :: IsFirstMax(values, k) && labels[k] == r.value
  {
    match IdxMax(values)
    case None => None
    case Some(k) => Some(labels[k])
  }
}
