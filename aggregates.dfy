/** The KPI metrics of lines 60-62: pandas sum and mean over a column with missing values. */
module Aggregates {
  import opened Options
  import opened Table

  /** What a field contributes to Series.sum(): its value, or nothing when it is missing. */
  function Contribution(x: Option<real>): real
  {
    if x.Some? then x.value else 0.0
  }

  /** Series.sum() with its default skipna: missing values are left out (0.0 for no values at all). */
  function SumPresent(xs: seq<Option<real>>): real
    decreases |xs|
  {
    if xs == [] then 0.0 else Contribution(xs[0]) + SumPresent(xs[1..])
  }

  /** How many values of a column are present: Series.count(). */
  function Count<T>(xs: seq<Option<T>>): nat
    decreases |xs|
  {
    if xs == [] then 0 else (if xs[0].Some? then 1 else 0) + Count(xs[1..])
  }

  /** The present values of a column, in order: what dropna() leaves. */
  function Present<T(==,!new)>(xs: seq<Option<T>>): (vs: seq<T>)
    ensures |vs| == Count(xs)
    ensures forall v :: multiset(vs)[v] == multiset(xs)[Some(v)]
    ensures forall v :: v in vs <==> Some(v) in xs
    decreases |xs|
  {
    if xs == [] then []
    else
      assert xs == [xs[0]] + xs[1..];
      (if xs[0].Some? then [xs[0].value] else []) + Present(xs[1..])
  }

  lemma {:induction false} NoneCountedIffAllMissing(xs: seq<Option<real>>)
    ensures Count(xs) == 0 <==> forall i :: 0 <= i < |xs| ==> xs[i].None?
    decreases |xs|
  {
    if xs != [] {
      NoneCountedIffAllMissing(xs[1..]);
      assert forall i :: 1 <= i < |xs| ==> xs[i] == xs[1..][i - 1];
    }
  }

  lemma DivideThenMultiply(s: real, n: real)
    requires n != 0.0
    ensures (s / n) * n == s
  {
  }

  function Sum(vs: seq<real>): real
    decreases |vs|
  {
    if vs == [] then 0.0 else vs[0] + Sum(vs[1..])
  }

  /** Skipping the missing values is summing exactly the present ones. */
  lemma {:induction false} SumPresentIsSumOfPresent(xs: seq<Option<real>>)
    ensures SumPresent(xs) == Sum(Present(xs))
    decreases |xs|
  {
    if xs != [] {
      SumPresentIsSumOfPresent(xs[1..]);
      if xs[0].Some? {
        assert ([xs[0].value] + Present(xs[1..]))[1..] == Present(xs[1..]);
      } else {
        assert [] + Present(xs[1..]) == Present(xs[1..]);
      }
    }
  }

  /** Series.mean(): the sum of the present values over their count; NaN (None) when there are none. */
  function Mean(xs: seq<Option<real>>): (m: Option<real>)
    ensures m.None? <==> forall i :: 0 <= i < |xs| ==> xs[i].None?
    ensures m.Some? ==> m.value * (Count(xs) as real) == SumPresent(xs)
  {
    NoneCountedIffAllMissing(xs);
    if Count(xs) == 0 then None
    else
      DivideThenMultiply(SumPresent(xs), Count(xs) as real);
      Some(SumPresent(xs) / Count(xs) as real)
  }

  /** The mean of the present values lies between their least and greatest value. */
  lemma MeanWithinBounds(xs: seq<Option<real>>, lo: real, hi: real)
    requires forall i :: 0 <= i < |xs| && xs[i].Some? ==> lo <= xs[i].value <= hi
    ensures Mean(xs).Some? ==> lo <= Mean(xs).value <= hi
  {
    if Mean(xs).Some? {
      SumBounds(xs, lo, hi);
      CancelPositive(Mean(xs).value, Count(xs) as real, SumPresent(xs), lo, hi);
    }
  }

  lemma CancelPositive(m: real, n: real, s: real, lo: real, hi: real)
    requires n > 0.0 && m * n == s && n * lo <= s <= n * hi
    ensures lo <= m <= hi
  {
  }

  /** One more field keeps the bounds: c fields summing to s, plus x, are n fields summing to t. */
  lemma StepBounds(c: real, s: real, x: Option<real>, n: real, t: real, lo: real, hi: real)
    requires c * lo <= s <= c * hi && (x.Some? ==> lo <= x.value <= hi)
    requires n == c + (if x.Some? then 1.0 else 0.0) && t == s + Contribution(x)
    ensures n * lo <= t <= n * hi
  {
    if x.Some? {
      assert n * lo == c * lo + lo;
      assert n * hi == c * hi + hi;
    }
  }

  lemma {:induction false} SumBounds(xs: seq<Option<real>>, lo: real, hi: real)
    requires forall i :: 0 <= i < |xs| && xs[i].Some? ==> lo <= xs[i].value <= hi
    ensures (Count(xs) as real) * lo <= SumPresent(xs) <= (Count(xs) as real) * hi
    decreases |xs|
  {
    if xs == [] {
      assert Count(xs) == 0 && SumPresent(xs) == 0.0;
    } else {
      SumBounds(xs[1..], lo, hi);
      StepBounds(Count(xs[1..]) as real, SumPresent(xs[1..]), xs[0], Count(xs) as real, SumPresent(xs), lo, hi);
    }
  }

  /** The three metrics shown at lines 64-67. */
  datatype Kpis = Kpis(totalSales: real, averageSale: Option<real>, totalQuantity: real)

  /**
   * Lines 60-62: the average is taken over the rows whose Total_Sales is present, and times
   * their number it gives the total sales; it is None when no row has one.
   */
  function ComputeKpis<D>(rows: seq<Row<D>>): (k: Kpis)
    ensures k.averageSale.None? <==> forall i :: 0 <= i < |rows| ==> rows[i].totalSales.None?
    ensures k.averageSale.Some? ==> k.averageSale.value * (Count(SalesColumn(rows)) as real) == k.totalSales
  {
    var sales := SalesColumn(rows);
    Kpis(SumPresent(sales), Mean(sales), SumPresent(QuantityColumn(rows)))
  }

  /** Lines 60 and 62: the totals add up exactly the present values; a missing one contributes nothing. */
  lemma TotalsSkipMissing<D>(rows: seq<Row<D>>)
    ensures ComputeKpis(rows).totalSales == Sum(Present(SalesColumn(rows)))
    ensures ComputeKpis(rows).totalQuantity == Sum(Present(QuantityColumn(rows)))
  {
    SumPresentIsSumOfPresent(SalesColumn(rows));
    SumPresentIsSumOfPresent(QuantityColumn(rows));
  }
}
