# Financial data series: compounding, fallback tables and facades

This project models the core of `src/financial_data.py` in Dafny. That file
builds the historical series a financial simulator charts: S&P 500 / total
market / global market returns and CPI inflation. Each facade has a live path
and a fallback path. The live path fetches prices from yfinance or CPI from
FRED. It reduces them to one rate per calendar year, turns the rates into a
growth-factor series that starts at 1.0, rounds every value to four decimals
and puts an anchor year in front of the years. The fallback path is used
whenever the live path raises, and, for inflation, whenever no FRED key is
configured. It takes the years of a constant table that fall inside
`[current_year - years, current_year]` and compounds their rates the same way.

Modules (one file each):

- `Outcomes` (`outcomes.dfy`): the result of a live path. It is a value, or the
  reason the source would have raised.
- `Growth` (`growth.dfy`): the compounding loop, `Chain` (the unrounded chain
  it builds), `Product` (its closed form), and `Round4` (`round(v, 4)`).
- `Aggregation` (`aggregation.dfy`): the per-year equity return loop and the
  year-over-year CPI loop.
- `Fallback` (`fallback.dfy`): the two constant tables, the window filter loop
  and the fallback series.
- `FinancialData` (`financial_data.dfy`): the live paths, the dispatch between
  live and fallback, and the facades.

The loops of the source are methods with loop invariants. Each method is
proved equal to a specification function, and the properties of those
functions are proved as lemmas. The provider's answer, the presence of the
FRED key and the current year are parameters.

The two lists of a result pair up one to one on every path but one. The
live paths (`src/financial_data.py:59-62` and `:130-133`) put one anchor year
in front of n data years and return n + 1 values. The fallback functions do
the same whenever a table year falls in the window (`:167` and `:233`). When no
table year falls in the window, they return `dates == []` together with
`values == [1.0]`. The model states that case as written:
`Fallback.FallbackShape`, `Fallback.FallbackSeries` and
`Fallback.SampleWindowPastTable`.

## Model

| member | source | states |
|---|---|---|
| `Growth.Chain` | src/financial_data.py:52-54 | The chain the compounding loop builds has one element more than there are rates, and its first element is 1.0 |
| `Growth.ChainPrefix` | src/financial_data.py:53-54 | Compounding the first k rates gives exactly the first k+1 elements of the full chain, so appending never revisits earlier elements |
| `Growth.ChainStep` | src/financial_data.py:53-54 | Every element after the first is the previous element times (1 + rate/100) for the matching rate |
| `Growth.ChainIsProduct` | src/financial_data.py:53-54 | Element i of the unrounded chain is the product of the first i factors (1 + r/100) |
| `Growth.RoundHalfEven` | src/financial_data.py:57 | The result is the integer nearest to the input, and a tie goes to the even neighbour |
| `Growth.Round4` | src/financial_data.py:57 | `round(v, 4)` is within 0.00005 of v and is a whole multiple of 1/10000 |
| `Growth.Round4One` | src/financial_data.py:52-57 | The starting value 1.0 is unchanged by rounding |
| `Growth.Compound` | src/financial_data.py:52-54 | The loop returns \|rates\|+1 values starting at 1.0, each the previous times the next factor, each the product of its prefix of factors |
| `Growth.CompoundRounded` | src/financial_data.py:52-57 | After the single rounding pass there are still \|rates\|+1 values starting at 1.0, and value i is the rounded product of the first i factors, so no rounded value is fed back into the product |
| `Growth.RoundingOnceDiffersFromPerStep` | src/financial_data.py:52-57 | Rounding once after the whole chain gives 1.0001 for two years at 0.003%, while rounding after every step would give 1.0; no tie is involved |
| `Aggregation.PercentChangeCompounds` | src/financial_data.py:47 | Compounding by `(current - base) / base * 100` turns base into current; its factor is current / base |
| `Aggregation.EquityRates` | src/financial_data.py:44-49 | The equity rule succeeds exactly when no year group has a zero first close, fails only with a division by zero, and gives one year and one rate per group |
| `Aggregation.InflationRates` | src/financial_data.py:113-120 | The year-over-year rule succeeds exactly when no mean but the last is zero, fails only with a division by zero, and gives one year and one rate per mean after the first (none for fewer than two means) |
| `Aggregation.EquityAnnualReturns` | src/financial_data.py:44-49 | One year and one rate per year group, in group order, each the change from first to last close; a zero first close fails the live path |
| `Aggregation.InflationYoYRates` | src/financial_data.py:113-120 | For n annual means, n-1 rates: rate k is tagged with year k+1 and is the change from mean k to mean k+1; the first year gets no rate; a zero baseline fails the live path |
| `Aggregation.EquityRatesAscending` | src/financial_data.py:44-49 | Year groups in ascending order give strictly ascending rate years |
| `Aggregation.InflationRatesAscending` | src/financial_data.py:113-120 | Annual means in ascending order give strictly ascending rate years |
| `Aggregation.EquityGrowthIsPriceRatioProduct` | src/financial_data.py:44-54 | Compounding the equity returns gives, after i years, the product of the first i years' last/first close ratios |
| `Aggregation.InflationGrowthIsCpiRatio` | src/financial_data.py:113-125 | Compounding the year-over-year rates reproduces the CPI index: after i years the factor is mean i over mean 0 |
| `Fallback.SampleReturnsYears` | src/financial_data.py:191-214 | The sample returns table has a rate for every year from 2003 to 2024 and for no other year |
| `Fallback.HistoricalInflationYears` | src/financial_data.py:144-150 | The historical inflation table has a rate for every year from 2000 to 2024 and for no other year |
| `Fallback.WindowYears` | src/financial_data.py:155-157 | Every year the window keeps is a table key between current_year - years and current_year |
| `Fallback.WindowYearsExact` | src/financial_data.py:155-157 | A year is kept if and only if it is a table key inside the window |
| `Fallback.WindowYearsAscending` | src/financial_data.py:155-157 | The kept years are strictly ascending |
| `Fallback.WindowYearsEmpty` | src/financial_data.py:155-157 | The filter loop keeps no year exactly when no table key lies in the window |
| `Fallback.FilterWindow` | src/financial_data.py:152-158 | The filter loop returns exactly the table keys inside the window, strictly ascending, each paired with its table rate |
| `Fallback.FallbackShape` | src/financial_data.py:160-169 | With at least one window year: the dates are the anchor (first year minus one) followed by the window years, as many as the values, strictly ascending, values starting at 1.0. With none: dates [] and values [1.0] |
| `Fallback.FallbackSeries` | src/financial_data.py:152-169 | A fallback result has at least one value, and whenever it has dates it has as many dates as values (the same body is at lines 216-235) |
| `Fallback.FallbackDatesEmpty` | src/financial_data.py:155-167 | A fallback result has empty dates exactly when no table year lies in the window |
| `Fallback.FallbackData` | src/financial_data.py:152-169 | Filtering, compounding, rounding and anchoring give exactly the fallback series of the table; the same body, over the sample table, is at lines 216-235 |
| `Fallback.SampleStockData` | src/financial_data.py:186-235 | The sample-stock fallback is the fallback series of the sample returns table |
| `Fallback.FallbackInflationData` | src/financial_data.py:139-169 | The inflation fallback is the fallback series of the historical inflation table |
| `Fallback.SampleYears2019To2024` | src/financial_data.py:191-222 | Every year from 2019 to 2024 is a key of the sample table, so the window 2019..2024 keeps all six |
| `Fallback.SampleWindow2024` | src/financial_data.py:216-235 | Five years back from 2024, the sample fallback dates are 2018..2024, with seven values |
| `Fallback.SampleWindowPastTable` | src/financial_data.py:216-235 | One year back from 2026, no sample table year falls in the window: the dates are [] and the values are [1.0] |
| `FinancialData.LiveSeries` | src/financial_data.py:51-62 | A failure in aggregation passes through unchanged; an empty `years_list` fails at `years_list[0]`; a success has one date more than the years and one value more than the rates, starting at 1.0 |
| `FinancialData.StockReturns` | src/financial_data.py:28-66 | Whatever the provider did, the stock facade's values start at 1.0, and whenever it has dates there are as many as values |
| `FinancialData.InflationData` | src/financial_data.py:94-136 | With or without a key, the inflation facade's values start at 1.0, and whenever it has dates there are as many as values |
| `FinancialData.LiveStockReturns` | src/financial_data.py:41-62 | The live equity path succeeds exactly when there is at least one year group and no zero first close; then it is the anchored, compounded, rounded series |
| `FinancialData.LiveInflation` | src/financial_data.py:106-133 | The live inflation path succeeds exactly when there are at least two annual means and no zero baseline; an empty `years_list` fails |
| `FinancialData.LiveInflationSucceeds` | src/financial_data.py:113-133 | The anchored inflation series exists exactly when there are at least two annual means and none but the last is zero |
| `FinancialData.GetStockReturns` | src/financial_data.py:28-66 | The stock facade never fails: it returns the live series, and any failure on the live path gives the sample table's series |
| `FinancialData.GetInflationDataFromFred` | src/financial_data.py:94-136 | The inflation facade never fails: without a key it returns the fallback series directly, and any failure on the live path gives the fallback series too |
| `FinancialData.StockReturnsFromPrices` | src/financial_data.py:28-66 | On a usable fetch the dates are the anchor then the group years, and value i is the rounded product of the first i close ratios; otherwise the result is the sample fallback |
| `FinancialData.InflationDataFromCpi` | src/financial_data.py:94-136 | With a key and a usable fetch the dates are the anchor then the years after the first, and value i is the rounded ratio of mean i to mean 0; otherwise the result is the inflation fallback |
| `FinancialData.LiveSeriesShape` | src/financial_data.py:59-62 | A successful live series starts at 1.0, has as many dates as values, and its anchor is one year before the first data year |
| `FinancialData.FallbackSeriesShape` | src/financial_data.py:166-169 | Every fallback series starts at 1.0 and is either anchored with equal lengths or has dates [] with values [1.0] |
| `FinancialData.StockReturnsShape` | src/financial_data.py:28-66 | Whatever the provider did, the stock facade returns a well-shaped series |
| `FinancialData.InflationDataShape` | src/financial_data.py:94-136 | With or without a key, whatever FRED did, the inflation facade returns a well-shaped series |
| `FinancialData.CompoundingVectors` | src/financial_data.py:52-62 | 10% from 2020 gives dates [2019, 2020] and values [1.0, 1.1]; 10% then -10% gives [1.0, 1.1, 0.99] |

## Left out

- `yf.Ticker(...).history` and `fred.get_series` (network calls) are not modelled. Their answer, already grouped by year, is a parameter: an `Outcome` that is a list of year groups or a failure.
- The pandas steps (`groupby`, `agg(['first', 'last'])`, `.mean()`, `pd.to_datetime`) are not modelled. The adapter is assumed to hand over one entry per year, years ascending, as a pandas group-by does. The shape lemmas take this as a precondition.
- `datetime.now()` and the `timedelta` fetch window are not modelled. The current year is a parameter. How many years the provider returns is part of its answer.
- The `FRED_API_KEY` environment variable and the module-level `Fred` client are not modelled. Their presence is the `hasKey` parameter.
- `print` logging of errors and of the missing key is not modelled.
- Binary floating point is not modelled. Values are exact reals. `Round4` rounds the exact value to four decimals, ties to even; the representation error of binary floats is not captured.
- EquityAnnualReturns: a zero first close makes the source's numpy division yield an infinity or NaN with a warning, not an exception, and that value then flows into the output. Reals have no infinity, so the model treats this case as a live-path failure (`DivisionByZero`) that leads to the fallback series.
- InflationYoYRates: the same holds for a zero previous-year CPI mean; the model sends it to the fallback series.
- EquityRates: for the same reason as EquityAnnualReturns, a zero first close is a `DivisionByZero` failure here, where the source yields an inf/NaN rate.
- InflationRates: for the same reason as InflationYoYRates, a zero previous-year mean is a `DivisionByZero` failure here, where the source yields an inf/NaN rate.
- LiveStockReturns: its success condition excludes a zero first close, for the reason given under EquityAnnualReturns. On that input the source returns a live series holding inf.
- LiveInflation: its success condition excludes a zero previous-year mean, for the reason given under InflationYoYRates. On that input the source returns a live series holding inf or NaN.
- LiveInflationSucceeds: its iff counts a zero previous-year mean as a failure, for the reason given under InflationYoYRates.
- GetStockReturns: a zero first close is not `EquityUsable`, so it leads to the sample table's series, for the reason given under EquityAnnualReturns. The source returns the inf-laden live series there. For example, one group for 2020 with closes 0.0 and 5.0 gives dates [2019, 2020] and values [1.0, inf] in the source.
- GetInflationDataFromFred: with a key, a zero previous-year mean is not `InflationUsable`, so it leads to the fallback table's series, for the reason given under InflationYoYRates. The source returns the live series there.
- StockReturnsFromPrices: its closed form covers usable fetches only, and it claims the sample fallback for a zero first close, for the reason given under EquityAnnualReturns.
- InflationDataFromCpi: its closed form covers usable fetches only, and it claims the inflation fallback for a zero previous-year mean, for the reason given under InflationYoYRates.
- `get_sp500_returns`, `get_us_total_market_returns` and `get_global_market_returns` only fix the ticker (`^GSPC`, `VTI`, `VT`) and the label. The provider answer is a parameter and the label is used only in the log message, so each of them is `GetStockReturns` applied to that ticker's answer.
- `years` is an integer parameter without a default. The defaults `years=20` and `label="Stock"` are a calling convention only. The label appears only in the log message. A non-integer horizon makes `range()` raise `TypeError` in the fallback functions. For stocks that happens inside the `except` handler. For inflation it happens in the no-key branch, and with a key it happens inside the `except` handler once the live path fails. Either way the error escapes the facade. The model does not cover this, because `years` is typed `int`.
- `get_inflation_data` only calls `get_inflation_data_from_fred`; it is `GetInflationDataFromFred`.
