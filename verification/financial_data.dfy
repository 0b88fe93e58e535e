/**
 * The facades: each tries its live provider, aggregates the annual rates,
 * compounds them and anchors the dates; any failure on that path, and for
 * inflation a missing FRED key, yields the static fallback series instead.
 * The provider's answer, the key's presence and the current year are
 * parameters.
 */
module FinancialData {
  import opened Outcomes
  import opened Growth
  import opened Aggregation
  import opened Fallback

  /**
   * The end of a live path: compound and round the rates, and put the anchor
   * `years_list[0] - 1` in front of the years, which fails on an empty list.
   */
  function LiveSeries(agg: Outcome<AnnualRates>): (r: Outcome<GrowthSeries>)
    ensures agg.Failure? ==> r == Failure(agg.error)
    ensures agg.Success? && agg.value.years == [] ==> r == Failure(NoData)
    ensures r.Success? ==>
      && |r.value.dates| == |agg.value.years| + 1 && |r.value.values| == |agg.value.rates| + 1
      && r.value.values[0] == 1.0
  {
    Round4One();
    match agg
    case Failure(e) => Failure(e)
    case Success(a) =>
      if a.years == [] then Failure(NoData)
      else Success(GrowthSeries([a.years[0] - 1] + a.years, RoundAll(Chain(a.rates))))
  }

  /** `get_stock_returns`: the live series when every step succeeds, otherwise the sample table. */
  function StockReturns(fetched: Outcome<seq<YearGroup>>, currentYear: int, years: int): (s: GrowthSeries)
    ensures |s.values| >= 1 && s.values[0] == 1.0
    ensures s.dates != [] ==> |s.dates| == |s.values|
  {
    var live := if fetched.Failure? then Failure(fetched.error) else LiveSeries(EquityRates(fetched.value));
    if live.Success? then live.value else FallbackSeries(SampleReturns, currentYear, years)
  }

  /**
   * `get_inflation_data_from_fred`: without a key the fallback table directly;
   * otherwise the live series when every step succeeds, else the fallback table.
   */
  function InflationData(hasKey: bool, fetched: Outcome<seq<AnnualMean>>, currentYear: int, years: int): (s: GrowthSeries)
    ensures |s.values| >= 1 && s.values[0] == 1.0
    ensures s.dates != [] ==> |s.dates| == |s.values|
  {
    if !hasKey then FallbackSeries(HistoricalInflation, currentYear, years)
    else
      var live := if fetched.Failure? then Failure(fetched.error) else LiveSeries(InflationRates(fetched.value));
      if live.Success? then live.value else FallbackSeries(HistoricalInflation, currentYear, years)
  }

  /** The live equity path succeeds exactly on a non-empty fetch with no zero first close. */
  predicate EquityUsable(fetched: Outcome<seq<YearGroup>>) {
    && fetched.Success? && fetched.value != []
    && forall i :: 0 <= i < |fetched.value| ==> fetched.value[i].first != 0.0
  }

  /** The live inflation path succeeds exactly with a key, two or more annual means and no zero baseline. */
  predicate InflationUsable(hasKey: bool, fetched: Outcome<seq<AnnualMean>>) {
    && hasKey && fetched.Success? && |fetched.value| >= 2
    && forall i :: 0 <= i < |fetched.value| - 1 ==> fetched.value[i].mean != 0.0
  }

  /**
   * The shape every facade result has: it starts at 1.0; with dates, there are
   * as many as values, strictly ascending, the anchor one year before the
   * first data year; without dates, the values are exactly [1.0].
   */
  predicate GrowthShape(s: GrowthSeries) {
    && |s.values| >= 1 && s.values[0] == 1.0
    && (s.dates == [] ==> s.values == [1.0])
    && (s.dates != [] ==>
          |s.dates| == |s.values| >= 2 && s.dates[1] == s.dates[0] + 1 && StrictlyAscending(s.dates))
  }

  /** The `try` body of `get_stock_returns` after the fetch. */
  method LiveStockReturns(groups: seq<YearGroup>) returns (r: Outcome<GrowthSeries>)
    ensures r == LiveSeries(EquityRates(groups))
    ensures r.Success? <==> groups != [] && forall i :: 0 <= i < |groups| ==> groups[i].first != 0.0
  {
    var agg := EquityAnnualReturns(groups);
    if agg.Failure? {
      return Failure(agg.error);
    }
    var values := CompoundRounded(agg.value.rates);
    if agg.value.years == [] {
      return Failure(NoData);
    }
    r := Success(GrowthSeries([agg.value.years[0] - 1] + agg.value.years, values));
  }

  /** The `try` body of `get_inflation_data_from_fred` after the fetch. */
  method LiveInflation(means: seq<AnnualMean>) returns (r: Outcome<GrowthSeries>)
    ensures r == LiveSeries(InflationRates(means))
    ensures r.Success? <==> |means| >= 2 && forall i :: 0 <= i < |means| - 1 ==> means[i].mean != 0.0
  {
    var agg := InflationYoYRates(means);
    LiveInflationSucceeds(means);
    if agg.Failure? {
      return Failure(agg.error);
    }
    var values := CompoundRounded(agg.value.rates);
    if agg.value.years == [] {
      return Failure(NoData);
    }
    r := Success(GrowthSeries([agg.value.years[0] - 1] + agg.value.years, values));
  }

  /** The live inflation path fails exactly on fewer than two means or a zero baseline. */
  lemma LiveInflationSucceeds(means: seq<AnnualMean>)
    ensures LiveSeries(InflationRates(means)).Success? <==>
      |means| >= 2 && forall i :: 0 <= i < |means| - 1 ==> means[i].mean != 0.0
  {
  }

  /** `get_stock_returns`: never fails; a failed live path yields the sample table's series. */
  method GetStockReturns(fetched: Outcome<seq<YearGroup>>, currentYear: int, years: int)
    returns (s: GrowthSeries)
    ensures s == StockReturns(fetched, currentYear, years)
    ensures !EquityUsable(fetched) ==> s == FallbackSeries(SampleReturns, currentYear, years)
  {
    if fetched.Success? {
      var live := LiveStockReturns(fetched.value);
      if live.Success? {
        return live.value;
      }
    }
    s := SampleStockData(currentYear, years);
  }

  /** `get_inflation_data_from_fred`: never fails; no key or a failed live path yields the table's series. */
  method GetInflationDataFromFred(hasKey: bool, fetched: Outcome<seq<AnnualMean>>, currentYear: int, years: int)
    returns (s: GrowthSeries)
    ensures s == InflationData(hasKey, fetched, currentYear, years)
    ensures !hasKey ==> s == FallbackSeries(HistoricalInflation, currentYear, years)
    ensures !InflationUsable(hasKey, fetched) ==> s == FallbackSeries(HistoricalInflation, currentYear, years)
  {
    if !hasKey {
      s := FallbackInflationData(currentYear, years);
      return;
    }
    if fetched.Success? {
      var live := LiveInflation(fetched.value);
      if live.Success? {
        return live.value;
      }
    }
    s := FallbackInflationData(currentYear, years);
  }

  /**
   * What the stock facade returns: on a usable fetch, the anchor and the
   * group years as dates, and after `i` years the rounded product of the first
   * `i` last-to-first close ratios; on anything else, the sample table's series.
   */
  lemma StockReturnsFromPrices(fetched: Outcome<seq<YearGroup>>, currentYear: int, years: int)
    ensures var s := StockReturns(fetched, currentYear, years);
      EquityUsable(fetched) ==>
        var groups := fetched.value;
        && |s.dates| == |s.values| == |groups| + 1
        && s.dates[0] == groups[0].year - 1
        && (forall i :: 1 <= i <= |groups| ==> s.dates[i] == groups[i - 1].year)
        && (forall i :: 0 <= i <= |groups| ==> s.values[i] == Round4(PriceRatioProduct(groups[..i])))
    ensures !EquityUsable(fetched) ==> StockReturns(fetched, currentYear, years) == FallbackSeries(SampleReturns, currentYear, years)
  {
    if EquityUsable(fetched) {
      var groups := fetched.value;
      forall i | 0 <= i <= |groups|
        ensures Chain(EquityRates(groups).value.rates)[i] == PriceRatioProduct(groups[..i])
      {
        EquityGrowthIsPriceRatioProduct(groups, i);
      }
    }
  }

  /**
   * What the inflation facade returns: with a key and a usable fetch, the
   * anchor and the years after the first as dates, and after `i` years the
   * rounded ratio of CPI mean `i` to CPI mean `0`; on anything else, the
   * fallback table's series.
   */
  lemma InflationDataFromCpi(hasKey: bool, fetched: Outcome<seq<AnnualMean>>, currentYear: int, years: int)
    ensures var s := InflationData(hasKey, fetched, currentYear, years);
      InflationUsable(hasKey, fetched) ==>
        var means := fetched.value;
        && |s.dates| == |s.values| == |means|
        && s.dates[0] == means[1].year - 1
        && (forall i :: 1 <= i < |means| ==> s.dates[i] == means[i].year)
        && (forall i :: 0 <= i < |means| ==> s.values[i] == Round4(means[i].mean / means[0].mean))
    ensures !InflationUsable(hasKey, fetched) ==>
      InflationData(hasKey, fetched, currentYear, years) == FallbackSeries(HistoricalInflation, currentYear, years)
  {
    if InflationUsable(hasKey, fetched) {
      var means := fetched.value;
      forall i | 0 <= i < |means|
        ensures Chain(InflationRates(means).value.rates)[i] == means[i].mean / means[0].mean
      {
        InflationGrowthIsCpiRatio(means, i);
      }
    }
  }

  /** A successful live series has the facade shape when its years ascend. */
  lemma LiveSeriesShape(agg: Outcome<AnnualRates>)
    requires agg.Success? ==> |agg.value.years| == |agg.value.rates| && StrictlyAscending(agg.value.years)
    ensures LiveSeries(agg).Success? ==> GrowthShape(LiveSeries(agg).value)
  {
    if LiveSeries(agg).Success? {
      var a := agg.value;
      var s := LiveSeries(agg).value;
      Round4One();
      assert s.dates[1..] == a.years;
      forall i, j | 0 <= i < j < |s.dates| ensures s.dates[i] < s.dates[j] {
        if i > 0 {
          assert s.dates[i] == a.years[i - 1] && s.dates[j] == a.years[j - 1];
        } else {
          assert s.dates[j] == a.years[j - 1];
          assert a.years[0] <= a.years[j - 1] by {
            if j > 1 { assert a.years[0] < a.years[j - 1]; }
          }
        }
      }
    }
  }

  /** The fallback series has the facade shape. */
  lemma FallbackSeriesShape(table: map<int, real>, currentYear: int, years: int)
    ensures GrowthShape(FallbackSeries(table, currentYear, years))
  {
    FallbackShape(table, currentYear, years);
  }

  /** The stock facade always hands back a well-shaped series, whatever the provider did. */
  lemma StockReturnsShape(fetched: Outcome<seq<YearGroup>>, currentYear: int, years: int)
    requires fetched.Success? ==> GroupsAscending(fetched.value)
    ensures GrowthShape(StockReturns(fetched, currentYear, years))
  {
    FallbackSeriesShape(SampleReturns, currentYear, years);
    if fetched.Success? {
      var agg := EquityRates(fetched.value);
      if agg.Success? {
        EquityRatesAscending(fetched.value);
      }
      LiveSeriesShape(agg);
    }
  }

  /** The inflation facade always hands back a well-shaped series, with or without a key. */
  lemma InflationDataShape(hasKey: bool, fetched: Outcome<seq<AnnualMean>>, currentYear: int, years: int)
    requires fetched.Success? ==> MeansAscending(fetched.value)
    ensures GrowthShape(InflationData(hasKey, fetched, currentYear, years))
  {
    FallbackSeriesShape(HistoricalInflation, currentYear, years);
    if hasKey && fetched.Success? {
      var agg := InflationRates(fetched.value);
      if agg.Success? {
        InflationRatesAscending(fetched.value);
      }
      LiveSeriesShape(agg);
    }
  }

  /** One year at 10% from 2020 gives dates [2019, 2020] and values [1.0, 1.1]; then -10% gives 0.99. */
  lemma CompoundingVectors()
    ensures LiveSeries(Success(AnnualRates([2020], [10.0]))) == Success(GrowthSeries([2019, 2020], [1.0, 1.1]))
    ensures LiveSeries(Success(AnnualRates([2020, 2021], [10.0, -10.0])))
         == Success(GrowthSeries([2019, 2020, 2021], [1.0, 1.1, 0.99]))
  {
    Round4One();
    assert (11000.0).Floor == 11000;
    assert (9900.0).Floor == 9900;
    assert [10.0, -10.0][..1] == [10.0];
    assert [10.0][..0] == [];
    assert Chain([10.0]) == [1.0, 1.1];
    assert Chain([10.0, -10.0]) == [1.0, 1.1, 0.99];
    assert Round4(1.1) == 1.1 && Round4(0.99) == 0.99;
    assert RoundAll([1.0, 1.1]) == [1.0, 1.1];
    assert RoundAll([1.0, 1.1, 0.99]) == [1.0, 1.1, 0.99];
    assert [2019] + [2020] == [2019, 2020];
    assert [2019] + [2020, 2021] == [2019, 2020, 2021];
  }
}
