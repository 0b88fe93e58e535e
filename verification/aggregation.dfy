/**
 * The annual aggregation rules of the live paths, over data the provider
 * adapter has already grouped by calendar year in ascending order: an equity
 * year becomes the change from its first to its last close, and a CPI year
 * becomes the change of its mean over the previous year's mean.
 */
module Aggregation {
  import opened Outcomes
  import opened Growth

  /** One calendar year of closes, reduced to its first and last observation. */
  datatype YearGroup = YearGroup(year: int, first: real, last: real)

  /** One calendar year of CPI observations, reduced to their mean. */
  datatype AnnualMean = AnnualMean(year: int, mean: real)

  /** The parallel `years_list` and rate lists an aggregation loop builds. */
  datatype AnnualRates = AnnualRates(years: seq<int>, rates: seq<real>)

  predicate StrictlyAscending(ys: seq<int>) {
    forall i, j :: 0 <= i < j < |ys| ==> ys[i] < ys[j]
  }

  /** What a pandas group-by hands over: one group per year, years ascending. */
  predicate GroupsAscending(groups: seq<YearGroup>) {
    forall i, j :: 0 <= i < j < |groups| ==> groups[i].year < groups[j].year
  }

  predicate MeansAscending(means: seq<AnnualMean>) {
    forall i, j :: 0 <= i < j < |means| ==> means[i].year < means[j].year
  }

  /** The percentage change from `base` to `current`. */
  function PercentChange(base: real, current: real): real
    requires base != 0.0
  {
    (current - base) / base * 100.0
  }

  /** Compounding by the percentage change from `base` to `current` turns `base` into `current`. */
  lemma PercentChangeCompounds(base: real, current: real)
    requires base != 0.0
    ensures Factor(PercentChange(base, current)) == current / base
    ensures Grow(base, PercentChange(base, current)) == current
  {
    var q := (current - base) / base;
    assert PercentChange(base, current) / 100.0 == q;
    assert Factor(PercentChange(base, current)) == 1.0 + q;
    assert base * q == current - base;
  }

  /** The equity rule: one rate per year group; a zero first close fails the whole path. */
  function EquityRates(groups: seq<YearGroup>): (r: Outcome<AnnualRates>)
    ensures r.Success? <==> forall i :: 0 <= i < |groups| ==> groups[i].first != 0.0
    ensures r.Failure? ==> r.error == DivisionByZero
    ensures r.Success? ==> |r.value.years| == |r.value.rates| == |groups|
  {
    if exists i :: 0 <= i < |groups| && groups[i].first == 0.0 then Failure(DivisionByZero)
    else
      Success(AnnualRates(
        seq(|groups|, i requires 0 <= i < |groups| => groups[i].year),
        seq(|groups|, i requires 0 <= i < |groups| => PercentChange(groups[i].first, groups[i].last))))
  }

  /** The inflation rule: one rate per year after the first; a zero earlier mean fails the path. */
  function InflationRates(means: seq<AnnualMean>): (r: Outcome<AnnualRates>)
    ensures r.Success? <==> forall i :: 0 <= i < |means| - 1 ==> means[i].mean != 0.0
    ensures r.Failure? ==> r.error == DivisionByZero
    ensures r.Success? ==> |r.value.years| == |r.value.rates| == (if |means| < 2 then 0 else |means| - 1)
  {
    if |means| < 2 then Success(AnnualRates([], []))
    else if exists i :: 0 <= i < |means| - 1 && means[i].mean == 0.0 then Failure(DivisionByZero)
    else
      var later := means[1..];
      Success(AnnualRates(
        seq(|later|, i requires 0 <= i < |later| => later[i].year),
        seq(|later|, i requires 0 <= i < |later| => PercentChange(means[i].mean, later[i].mean))))
  }

  /** The per-year equity loop: walk the groups in order, appending the year and its return. */
  method EquityAnnualReturns(groups: seq<YearGroup>) returns (res: Outcome<AnnualRates>)
    ensures res == EquityRates(groups)
    ensures res.Success? <==> forall i :: 0 <= i < |groups| ==> groups[i].first != 0.0
    ensures res.Failure? ==> res.error == DivisionByZero
    ensures res.Success? ==>
      |res.value.years| == |res.value.rates| == |groups| &&
      forall i :: 0 <= i < |groups| ==>
        res.value.years[i] == groups[i].year &&
        res.value.rates[i] == PercentChange(groups[i].first, groups[i].last)
  {
    var years: seq<int> := [];
    var rates: seq<real> := [];
    var i := 0;
    while i < |groups|
      invariant 0 <= i <= |groups|
      invariant |years| == |rates| == i
      invariant forall k :: 0 <= k < i ==>
        groups[k].first != 0.0 && years[k] == groups[k].year &&
        rates[k] == PercentChange(groups[k].first, groups[k].last)
    {
      var g := groups[i];
      if g.first == 0.0 {
        return Failure(DivisionByZero);
      }
      years := years + [g.year];
      rates := rates + [PercentChange(g.first, g.last)];
      i := i + 1;
    }
    assert years == EquityRates(groups).value.years;
    assert rates == EquityRates(groups).value.rates;
    res := Success(AnnualRates(years, rates));
  }

  /**
   * The year-over-year inflation loop: for every year after the first, append
   * that year and the change of its mean over the previous year's mean.
   */
  method InflationYoYRates(means: seq<AnnualMean>) returns (res: Outcome<AnnualRates>)
    ensures res == InflationRates(means)
    ensures res.Success? <==> forall i :: 0 <= i < |means| - 1 ==> means[i].mean != 0.0
    ensures res.Failure? ==> res.error == DivisionByZero
    ensures res.Success? ==>
      |res.value.years| == |res.value.rates| == (if means == [] then 0 else |means| - 1) &&
      forall k :: 0 <= k < |means| - 1 ==>
        res.value.years[k] == means[k + 1].year &&
        res.value.rates[k] == PercentChange(means[k].mean, means[k + 1].mean)
  {
    var years: seq<int> := [];
    var rates: seq<real> := [];
    var i := 1;
    while i < |means|
      invariant 1 <= i <= if means == [] then 1 else |means|
      invariant |years| == |rates| == i - 1
      invariant forall k :: 0 <= k < i - 1 ==>
        means[k].mean != 0.0 && years[k] == means[k + 1].year &&
        rates[k] == PercentChange(means[k].mean, means[k + 1].mean)
    {
      var prev := means[i - 1].mean;
      if prev == 0.0 {
        return Failure(DivisionByZero);
      }
      years := years + [means[i].year];
      rates := rates + [PercentChange(prev, means[i].mean)];
      i := i + 1;
    }
    assert years == InflationRates(means).value.years;
    assert rates == InflationRates(means).value.rates;
    res := Success(AnnualRates(years, rates));
  }

  /** Ascending year groups give strictly ascending rate years. */
  lemma EquityRatesAscending(groups: seq<YearGroup>)
    requires GroupsAscending(groups) && EquityRates(groups).Success?
    ensures StrictlyAscending(EquityRates(groups).value.years)
  {
    var ys := EquityRates(groups).value.years;
    forall i, j | 0 <= i < j < |ys| ensures ys[i] < ys[j] {
      assert ys[i] == groups[i].year && ys[j] == groups[j].year;
    }
  }

  /** Ascending annual means give strictly ascending rate years. */
  lemma InflationRatesAscending(means: seq<AnnualMean>)
    requires MeansAscending(means) && InflationRates(means).Success?
    ensures StrictlyAscending(InflationRates(means).value.years)
  {
    var ys := InflationRates(means).value.years;
    forall i, j | 0 <= i < j < |ys| ensures ys[i] < ys[j] {
      assert ys[i] == means[i + 1].year && ys[j] == means[j + 1].year;
    }
  }

  /** The product of every year's last-to-first close ratio. */
  function PriceRatioProduct(groups: seq<YearGroup>): real
    requires forall i :: 0 <= i < |groups| ==> groups[i].first != 0.0
    decreases |groups|
  {
    if groups == [] then 1.0
    else
      var g := groups[|groups| - 1];
      PriceRatioProduct(groups[..|groups| - 1]) * (g.last / g.first)
  }

  /**
   * Compounding the equity returns gives, after `i` years, the product of the
   * first `i` years' last-to-first close ratios.
   */
  lemma {:induction false} EquityGrowthIsPriceRatioProduct(groups: seq<YearGroup>, i: nat)
    requires EquityRates(groups).Success?
    requires i <= |groups|
    ensures forall k :: 0 <= k < |groups| ==> groups[k].first != 0.0
    ensures Chain(EquityRates(groups).value.rates)[i] == PriceRatioProduct(groups[..i])
  {
    var rates := EquityRates(groups).value.rates;
    if i == 0 {
      assert groups[..0] == [];
    } else {
      EquityGrowthIsPriceRatioProduct(groups, i - 1);
      ChainStep(rates, i);
      assert groups[..i][..i - 1] == groups[..i - 1];
      var g := groups[i - 1];
      PercentChangeCompounds(g.first, g.last);
      assert Factor(rates[i - 1]) == g.last / g.first;
    }
  }

  /** Growing `a / b` by the rate that takes `a` to `c` gives `c / b`. */
  lemma GrowTelescopes(a: real, b: real, c: real, rate: real)
    requires a != 0.0 && b != 0.0
    requires Factor(rate) == c / a
    ensures Grow(a / b, rate) == c / b
  {
    calc {
      (a / b) * (c / a);
      (a * c) / (b * a);
      { assert b * a != 0.0; }
      c / b;
    }
  }

  /**
   * Compounding the year-over-year inflation rates reproduces the CPI index
   * itself: after `i` years the growth factor is mean `i` over mean `0`.
   */
  lemma {:induction false} InflationGrowthIsCpiRatio(means: seq<AnnualMean>, i: nat)
    requires InflationRates(means).Success?
    requires 2 <= |means| && i < |means|
    ensures means[0].mean != 0.0
    ensures Chain(InflationRates(means).value.rates)[i] == means[i].mean / means[0].mean
  {
    var rates := InflationRates(means).value.rates;
    assert |rates| == |means| - 1;
    if i == 0 {
      assert means[0].mean / means[0].mean == 1.0;
    } else {
      InflationGrowthIsCpiRatio(means, i - 1);
      ChainStep(rates, i);
      var prev := means[i - 1].mean;
      assert prev != 0.0;
      PercentChangeCompounds(prev, means[i].mean);
      assert Factor(rates[i - 1]) == means[i].mean / prev;
      GrowTelescopes(prev, means[0].mean, means[i].mean, rates[i - 1]);
    }
  }
}
