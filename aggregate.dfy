/**
 * The `$match` + `$group: {$avg}` aggregation that recomputes a bootcamp's
 * derived averages, and `Math.ceil`. Documents are projected to the one
 * numeric field being averaged, keyed by document id.
 */
module Aggregate {
  import opened Common

  /** The sum of the values of `m`, in no particular order. */
  ghost function SumValues(m: map<Id, real>): real
    decreases m.Keys
  {
    if m == map[] then 0.0
    else
      var k :| k in m;
      m[k] + SumValues(m - {k})
  }

  lemma RemoveOne(m: map<Id, real>, k: Id)
    requires k in m
    ensures (m - {k}).Keys == m.Keys - {k} && |m - {k}| == |m| - 1
  {
    assert (m - {k}).Keys == m.Keys - {k};
  }

  /** Any entry may be taken out first: the sum does not depend on the order. */
  lemma {:induction false} SumRemove(m: map<Id, real>, k: Id)
    requires k in m
    ensures SumValues(m) == m[k] + SumValues(m - {k})
    decreases |m|
  {
    assert m != map[];
    var j :| j in m && SumValues(m) == m[j] + SumValues(m - {j});
    if j != k {
      RemoveOne(m, j);
      RemoveOne(m, k);
      SumRemove(m - {j}, k);
      SumRemove(m - {k}, j);
      assert m - {j} - {k} == m - {k} - {j};
    }
  }

  /** `x` added to itself `n` times. */
  ghost function Times(x: real, n: nat): real {
    if n == 0 then 0.0 else x + Times(x, n - 1)
  }

  lemma {:induction false} TimesIsProduct(x: real, n: nat)
    ensures Times(x, n) == x * n as real
  {
    if n > 0 {
      TimesIsProduct(x, n - 1);
      assert x * n as real == x + x * (n - 1) as real;
    }
  }

  /** Values bounded by `lo` and `hi` sum to between `lo` and `hi` times their number. */
  lemma {:induction false} SumBounds(m: map<Id, real>, lo: real, hi: real)
    requires forall k :: k in m ==> lo <= m[k] <= hi
    ensures Times(lo, |m|) <= SumValues(m) <= Times(hi, |m|)
    decreases |m|
  {
    if m != map[] {
      var k :| k in m;
      SumRemove(m, k);
      RemoveOne(m, k);
      SumBounds(m - {k}, lo, hi);
    }
  }

  /** `$avg`: the arithmetic mean, or nothing when the group is empty. */
  ghost function Mean(m: map<Id, real>): Option<real> {
    if |m| == 0 then None else Some(SumValues(m) / |m| as real)
  }

  /** When every value lies in [lo, hi], so does their mean. */
  lemma MeanBounds(m: map<Id, real>, lo: real, hi: real)
    requires forall k :: k in m ==> lo <= m[k] <= hi
    ensures Mean(m).Some? <==> |m| > 0
    ensures Mean(m).Some? ==> lo <= Mean(m).value <= hi
  {
    SumBounds(m, lo, hi);
    TimesIsProduct(lo, |m|);
    TimesIsProduct(hi, |m|);
    if |m| > 0 {
      DivideBounds(SumValues(m), |m| as real, lo, hi);
    }
  }

  lemma DivideBounds(sum: real, n: real, lo: real, hi: real)
    requires n > 0.0 && lo * n <= sum <= hi * n
    ensures lo <= sum / n <= hi
  {
    assert lo * n / n == lo && hi * n / n == hi;
  }

  /** The mean of two values is half their sum. */
  lemma MeanOfTwo(m: map<Id, real>, j: Id, k: Id, x: real, y: real)
    requires j != k && m == map[j := x, k := y]
    ensures Mean(m) == Some((x + y) / 2.0)
  {
    var one := map[k := y];
    assert m - {j} == one && one - {k} == map[];
    SumRemove(m, j);
    SumRemove(one, k);
    RemoveOne(m, j);
    RemoveOne(one, k);
    assert SumValues(m) == x + y && |m| == 2;
  }

  /**
   * The grouping stage: one pass over the matched documents, adding up the
   * field and counting them.
   */
  method Average(m: map<Id, real>) returns (r: Option<real>)
    ensures r == Mean(m)
  {
    var rest := m;
    var total, count := 0.0, 0;
    while rest != map[]
      invariant count + |rest| == |m|
      invariant total + SumValues(rest) == SumValues(m)
      decreases |rest|
    {
      var k :| k in rest;
      SumRemove(rest, k);
      RemoveOne(rest, k);
      total, count := total + rest[k], count + 1;
      rest := rest - {k};
    }
    if count == 0 {
      r := None;
    } else {
      r := Some(total / count as real);
    }
  }

  /** `Math.ceil`: the least integer not below `x`. */
  function Ceil(x: real): (c: int)
    ensures x <= c as real < x + 1.0
  {
    -((-x).Floor)
  }
}
