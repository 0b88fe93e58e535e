/**
 * The static fallback path: the years of a constant table that fall inside
 * `[current_year - years, current_year]`, taken in ascending order, their
 * rates compounded, and the series anchored one year before the first of them.
 */
module Fallback {
  import opened Growth
  import opened Aggregation

  /** Sample annual stock-market returns in percent, by calendar year. */
  const SampleReturns: map<int, real> := map[
    2024 := 24.2, 2023 := 26.3, 2022 := -18.1, 2021 := 28.7, 2020 := 18.4,
    2019 := 31.5, 2018 := -4.4, 2017 := 21.8, 2016 := 12.0, 2015 := 1.4,
    2014 := 13.7, 2013 := 32.4, 2012 := 16.0, 2011 := 2.1, 2010 := 15.1,
    2009 := 26.5, 2008 := -37.0, 2007 := 5.5, 2006 := 15.8, 2005 := 4.9,
    2004 := 10.9, 2003 := 28.7]

  /** Historical annual inflation in percent, by calendar year. */
  const HistoricalInflation: map<int, real> := map[
    2024 := 3.4, 2023 := 4.1, 2022 := 8.0, 2021 := 4.7, 2020 := 1.2,
    2019 := 1.8, 2018 := 2.4, 2017 := 2.1, 2016 := 1.3, 2015 := 0.1,
    2014 := 1.6, 2013 := 1.5, 2012 := 2.1, 2011 := 3.2, 2010 := 1.6,
    2009 := -0.4, 2008 := 3.8, 2007 := 2.8, 2006 := 3.2, 2005 := 3.4,
    2004 := 2.7, 2003 := 2.3, 2002 := 1.6, 2001 := 2.8, 2000 := 3.4]

  /** The sample table covers every year from 2003 to 2024 and no other. */
  lemma SampleReturnsYears()
    ensures forall y :: y in SampleReturns <==> 2003 <= y <= 2024
  {
  }

  /** The inflation table covers every year from 2000 to 2024 and no other. */
  lemma HistoricalInflationYears()
    ensures forall y :: y in HistoricalInflation <==> 2000 <= y <= 2024
  {
  }

  /** The table years in `[lo, hi]`, in the order a loop from `lo` upward meets them. */
  function WindowYears(table: map<int, real>, lo: int, hi: int): (ys: seq<int>)
    ensures forall i :: 0 <= i < |ys| ==> ys[i] in table && lo <= ys[i] <= hi
    decreases hi - lo
  {
    if hi < lo then []
    else WindowYears(table, lo, hi - 1) + (if hi in table then [hi] else [])
  }

  /** The table rate of every year in `ys`, in the same order. */
  function RatesFor(table: map<int, real>, ys: seq<int>): seq<real>
    requires forall i :: 0 <= i < |ys| ==> ys[i] in table
  {
    seq(|ys|, i requires 0 <= i < |ys| => table[ys[i]])
  }

  /** The window keeps exactly the table keys between `lo` and `hi`. */
  lemma {:induction false} WindowYearsExact(table: map<int, real>, lo: int, hi: int, y: int)
    ensures y in WindowYears(table, lo, hi) <==> y in table && lo <= y <= hi
    decreases hi - lo
  {
    if lo <= hi {
      WindowYearsExact(table, lo, hi - 1, y);
    }
  }

  /** The window lists its years in strictly ascending order. */
  lemma {:induction false} WindowYearsAscending(table: map<int, real>, lo: int, hi: int)
    ensures StrictlyAscending(WindowYears(table, lo, hi))
    decreases hi - lo
  {
    if lo <= hi {
      WindowYearsAscending(table, lo, hi - 1);
    }
  }

  /**
   * The filter loop: walk `range(current_year - years, current_year + 1)` and
   * append each year that is a key of the table, with its rate.
   */
  method FilterWindow(table: map<int, real>, currentYear: int, years: int)
    returns (dates: seq<int>, rates: seq<real>)
    ensures dates == WindowYears(table, currentYear - years, currentYear)
    ensures StrictlyAscending(dates)
    ensures forall y :: y in dates <==> y in table && currentYear - years <= y <= currentYear
    ensures |rates| == |dates| && forall i :: 0 <= i < |dates| ==> rates[i] == table[dates[i]]
  {
    dates, rates := [], [];
    var lo := currentYear - years;
    var year := lo;
    while year < currentYear + 1
      invariant lo <= year && (year <= currentYear + 1 || year == lo)
      invariant dates == WindowYears(table, lo, year - 1)
      invariant |rates| == |dates| && forall i :: 0 <= i < |dates| ==> rates[i] == table[dates[i]]
      decreases currentYear - year
    {
      if year in table {
        dates := dates + [year];
        rates := rates + [table[year]];
      }
      year := year + 1;
    }
    WindowYearsAscending(table, lo, currentYear);
    forall y ensures y in dates <==> y in table && lo <= y <= currentYear {
      WindowYearsExact(table, lo, currentYear, y);
    }
  }

  /** The window is empty exactly when no table key lies between `lo` and `hi`. */
  lemma WindowYearsEmpty(table: map<int, real>, lo: int, hi: int)
    ensures WindowYears(table, lo, hi) == [] <==> forall y :: lo <= y <= hi ==> y !in table
  {
    forall y | lo <= y <= hi && y in table ensures WindowYears(table, lo, hi) != [] {
      WindowYearsExact(table, lo, hi, y);
    }
    var ys := WindowYears(table, lo, hi);
    if ys != [] {
      assert ys[0] in table && lo <= ys[0] <= hi;
    }
  }

  /**
   * What a fallback function returns for a table, a current year and a
   * horizon: at least one value, and whenever there are dates they pair up
   * with the values.
   */
  function FallbackSeries(table: map<int, real>, currentYear: int, years: int): (s: GrowthSeries)
    ensures |s.values| >= 1
    ensures s.dates != [] ==> |s.dates| == |s.values|
  {
    var ys := WindowYears(table, currentYear - years, currentYear);
    GrowthSeries(if ys == [] then [] else [ys[0] - 1] + ys, RoundAll(Chain(RatesFor(table, ys))))
  }

  /**
   * The shape of a fallback series: one value more than there are window
   * years, starting at 1.0; with at least one year the dates are the anchor
   * followed by the window years, as many as the values; with none the dates
   * are empty while the values are still [1.0].
   */
  lemma FallbackShape(table: map<int, real>, currentYear: int, years: int)
    ensures var ys := WindowYears(table, currentYear - years, currentYear);
      var s := FallbackSeries(table, currentYear, years);
      && |s.values| == |ys| + 1 && s.values[0] == 1.0
      && (ys != [] ==>
            |s.dates| == |s.values| && s.dates[0] == ys[0] - 1 && s.dates[1..] == ys
            && StrictlyAscending(s.dates))
      && (ys == [] ==> s.dates == [] && s.values == [1.0])
  {
    var ys := WindowYears(table, currentYear - years, currentYear);
    Round4One();
    WindowYearsAscending(table, currentYear - years, currentYear);
    var s := FallbackSeries(table, currentYear, years);
    if ys != [] {
      assert s.dates[1..] == ys;
      forall i, j | 0 <= i < j < |s.dates| ensures s.dates[i] < s.dates[j] {
        if i > 0 {
          assert s.dates[i] == ys[i - 1] && s.dates[j] == ys[j - 1];
        } else {
          assert s.dates[j] == ys[j - 1];
          assert ys[0] <= ys[j - 1] by {
            if j > 1 { assert ys[0] < ys[j - 1]; }
          }
        }
      }
    }
  }

  /** A fallback series has no dates exactly when no table year lies in the window. */
  lemma FallbackDatesEmpty(table: map<int, real>, currentYear: int, years: int)
    ensures FallbackSeries(table, currentYear, years).dates == [] <==>
      forall y :: currentYear - years <= y <= currentYear ==> y !in table
  {
    WindowYearsEmpty(table, currentYear - years, currentYear);
  }

  /** A series built from the window years and their rounded chain is the fallback series. */
  lemma FallbackSeriesOf(table: map<int, real>, currentYear: int, years: int, dates: seq<int>, values: seq<real>)
    requires dates == WindowYears(table, currentYear - years, currentYear)
    requires values == RoundAll(Chain(RatesFor(table, dates)))
    ensures GrowthSeries(if dates == [] then [] else [dates[0] - 1] + dates, values)
         == FallbackSeries(table, currentYear, years)
  {
  }

  /**
   * The shared body of the two fallback functions: filter the window, compound
   * and round, then anchor the dates when there is at least one year.
   */
  method FallbackData(table: map<int, real>, currentYear: int, years: int) returns (s: GrowthSeries)
    ensures s == FallbackSeries(table, currentYear, years)
  {
    var dates, rates := FilterWindow(table, currentYear, years);
    assert rates == RatesFor(table, dates);
    var values := CompoundRounded(rates);
    s := GrowthSeries(if dates == [] then [] else [dates[0] - 1] + dates, values);
    FallbackSeriesOf(table, currentYear, years, dates, values);
  }

  /** Sample stock data, used when a stock fetch fails. */
  method SampleStockData(currentYear: int, years: int) returns (s: GrowthSeries)
    ensures s == FallbackSeries(SampleReturns, currentYear, years)
  {
    s := FallbackData(SampleReturns, currentYear, years);
  }

  /** Fallback inflation data, used without a FRED key or when FRED fails. */
  method FallbackInflationData(currentYear: int, years: int) returns (s: GrowthSeries)
    ensures s == FallbackSeries(HistoricalInflation, currentYear, years)
  {
    s := FallbackData(HistoricalInflation, currentYear, years);
  }

  /** Every year from 2019 to 2024 is a key of the sample table. */
  lemma SampleYears2019To2024()
    ensures WindowYears(SampleReturns, 2019, 2024) == [2019, 2020, 2021, 2022, 2023, 2024]
  {
    assert 2019 in SampleReturns && 2020 in SampleReturns && 2021 in SampleReturns;
    assert 2022 in SampleReturns && 2023 in SampleReturns && 2024 in SampleReturns;
    assert WindowYears(SampleReturns, 2019, 2018) == [];
    assert WindowYears(SampleReturns, 2019, 2019) == [2019];
    assert WindowYears(SampleReturns, 2019, 2020) == [2019, 2020];
    assert WindowYears(SampleReturns, 2019, 2021) == [2019, 2020, 2021];
    assert WindowYears(SampleReturns, 2019, 2022) == [2019, 2020, 2021, 2022];
    assert WindowYears(SampleReturns, 2019, 2023) == [2019, 2020, 2021, 2022, 2023];
  }

  /**
   * Five years back from 2024 the sample table covers every year: the dates
   * run from the anchor 2018 to 2024, with a value for each.
   */
  lemma SampleWindow2024()
    ensures FallbackSeries(SampleReturns, 2024, 5).dates == [2018, 2019, 2020, 2021, 2022, 2023, 2024]
    ensures |FallbackSeries(SampleReturns, 2024, 5).values| == 7
  {
    SampleYears2019To2024();
  }

  /**
   * A window past the end of the table (one year back from 2026 covers 2025
   * and 2026 only): no dates, yet one value.
   */
  lemma SampleWindowPastTable()
    ensures FallbackSeries(SampleReturns, 2026, 1).dates == []
    ensures FallbackSeries(SampleReturns, 2026, 1).values == [1.0]
  {
    assert 2026 !in SampleReturns && 2025 !in SampleReturns;
    assert WindowYears(SampleReturns, 2025, 2025) == [];
    assert WindowYears(SampleReturns, 2025, 2026) == [];
    FallbackShape(SampleReturns, 2026, 1);
  }
}
