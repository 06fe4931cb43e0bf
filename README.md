# Indicator and signal engine of the crypto trading bot, in Dafny

This project models the analysis core of a cryptocurrency trading bot. The
core has three parts:

- **Indicators.** A table of OHLCV bars gets derived columns written into it
  in place:
  - from `TechnicalAnalyzer`: RSI, MACD with its signal line, Bollinger bands
    and Fibonacci retracement levels;
  - from the additional indicators: support/resistance, momentum and pivot
    points.

  The volume-profile bucketer only reads the table.
- **Signal engine.** It reads the last row of the enriched table. Three rule
  groups (RSI, MACD, Bollinger) run in a fixed order. Each group that fires
  adds its weight to a confidence score, appends a reason and overwrites the
  action.
- **Pipeline.** It stops on an empty series. Otherwise it runs the analyzer,
  then support/resistance, then momentum, then the pivot points.

How the model represents the system:

- Prices are Dafny `real`.
- A "not a number" entry of a pandas column is `None` in a column of type
  `seq<Option<real>>`. A comparison with it is false, so it never fires a rule.
- The table is the class `SeriesStore.Frame`:
  - its price columns are constant;
  - the derived columns are a map;
  - `names` keeps the pandas column order (a new column goes last, an
    overwritten one keeps its place).
- The window primitives are loops proved equal to pure specification
  functions: the rolling mean (a running sum), the rolling max/min (a window
  scan) and the EMA with `adjust=False`.
- Every indicator method is specified by the new map and the new column order
  of the table it was given.

Modules, leaf first:

- `SeriesStore` (`series_store.dfy`)
- `Rolling` (`rolling.dfy`)
- `TechnicalAnalysis` (`technical_analysis.dfy`)
- `CustomIndicators` (`custom_indicators.dfy`)
- `Settings` (`settings.dfy`): the RSI thresholds 70 and 30 from `config/settings.py:13-14`
- `Signals` (`signals.dfy`)
- `Pipeline` (`pipeline.dfy`)

What the code does at its edges, and how the model follows it:

- **Empty series.** `fetch_and_analyze_data` returns `None` for an empty
  series (`main.py:60-62`), and `Pipeline.FetchAndAnalyzeData` returns `None`.
- **Short history.** An undefined indicator makes its comparisons false, so
  its group does not fire (`main.py:85,89,95,99,106,110`).
  `Signals.UndefinedRsiFiresNothing` and the two lemmas beside it state this.
- **RSI start.** The RSI is defined from row `period - 1`. The undefined first
  difference fails both `delta > 0` and `delta < 0`, so `where(..., 0)` makes
  it 0 and it counts as a zero gain and a zero loss.
- **RSI edge cases.**
  - A zero loss with a positive gain gives exactly 100.
  - A zero gain with a zero loss stays undefined: 0/0 is not a number.
- **EMA seed.** `ewm(span, adjust=False)` seeds the EMA with the first input.
- **Standard deviation.** `rolling(...).std()` is the sample deviation (one
  degree of freedom). A window of one value therefore has no deviation, and
  with `period < 2` the outer bands are undefined.
- **No parameter checks.** The repository's own code does no parameter
  checks; pandas rejects a window or span below 1. The model requires periods
  and spans of at least 1 (see "Left out"), and it accepts any multiplier;
  the band ordering is proved for a non-negative one.

## Model

| member | source | states |
|---|---|---|
| SeriesStore.Frame.constructor | main.py:54-60 | a table over the bars, which stand in for the fetched frame: price columns as given, no derived column yet |
| SeriesStore.Frame.SetColumn | analysis/technical_analysis.py:20 | `data[c] = v` replaces or adds column `c` and nothing else; a new name goes last, an existing one keeps its place; the table stays consistent (distinct names, one value per row) |
| SeriesStore.Placed | analysis/technical_analysis.py:20 | after assigning `c`, the column names are the old ones plus `c` |
| SeriesStore.PlacedAllAppends | analysis/technical_analysis.py:8-13 | assigning new, distinct columns appends them in assignment order |
| Rolling.Max | analysis/technical_analysis.py:38 | the window maximum bounds every value of the window and is one of them |
| Rolling.Min | analysis/technical_analysis.py:39 | the window minimum bounds every value of the window and is one of them |
| Rolling.RollingMeanColumn | analysis/technical_analysis.py:17-18 | the running-sum loop computes `rolling(window=w).mean()`: undefined before row w-1, otherwise the mean of the last w values |
| Rolling.RollingMeanNonNegative | analysis/technical_analysis.py:17-18 | a rolling mean of non-negative values is non-negative wherever it is defined |
| Rolling.RollingMaxColumn | analysis/technical_analysis.py:38 | the scanning loop computes `rolling(window=w).max()` |
| Rolling.RollingMinColumn | analysis/technical_analysis.py:39 | the scanning loop computes `rolling(window=w).min()` |
| Rolling.ScanMax | analysis/technical_analysis.py:38 | one window scan yields the maximum of the window |
| Rolling.ScanMin | analysis/technical_analysis.py:39 | one window scan yields the minimum of the window |
| Rolling.Alpha | analysis/technical_analysis.py:24-25 | the smoothing factor `2/(span+1)` lies in (0, 1] |
| Rolling.EmaColumn | analysis/technical_analysis.py:24-25 | the loop computes `ewm(span, adjust=False).mean()`: seeded at the first input, then `(1-a)*prev + a*x[t]` at every row |
| Rolling.EmaWithin | analysis/technical_analysis.py:24-25 | every EMA value stays inside any interval that holds the inputs seen so far |
| Rolling.EmaBetweenMinAndMax | analysis/technical_analysis.py:24-25 | every EMA value lies between the least and the greatest input seen so far |
| Rolling.EmaOfConstant | analysis/technical_analysis.py:24-25 | on a constant input the EMA is that constant at every row |
| TechnicalAnalysis.Gain | analysis/technical_analysis.py:16-17 | the gain of a row is non-negative, and 0 at row 0 |
| TechnicalAnalysis.Loss | analysis/technical_analysis.py:16-18 | the loss of a row is non-negative, and 0 at row 0 |
| TechnicalAnalysis.RsiValue | analysis/technical_analysis.py:19-20 | `100 - 100/(1 + gain/loss)` is defined iff gain + loss > 0; it equals `100*gain/(gain+loss)` and lies in [0, 100]; it is exactly 100 iff the loss is 0 and the gain positive |
| TechnicalAnalysis.RsiAt | analysis/technical_analysis.py:15-20 | RSI is undefined before row period-1; from there it is `100*G/(G+L)` over the window sums of gains and losses; it is undefined iff both sums are 0, lies in [0, 100], and is 100 iff there is no loss and some gain |
| TechnicalAnalysis.GainLossTelescope | analysis/technical_analysis.py:16-18 | summed gains minus summed losses over a range of rows equal the change of close across it |
| TechnicalAnalysis.GainLossSpread | analysis/technical_analysis.py:16-18 | over an RSI window, gains minus losses equal the change of close across the window; the first full window spans only period-1 real differences |
| TechnicalAnalysis.FlatRsiUndefined | analysis/technical_analysis.py:16-20 | a close that never moves leaves the RSI undefined at every row |
| TechnicalAnalysis.MacdOfConstant | analysis/technical_analysis.py:24-27 | on a constant close, MACD and its signal line are exactly 0 at every row |
| TechnicalAnalysis.MacdBounded | analysis/technical_analysis.py:24-27 | MACD and its signal line stay within plus or minus the spread of the closes seen so far |
| TechnicalAnalysis.BollingerBands | analysis/technical_analysis.py:30-34 | the middle band is defined exactly from row period-1, and the outer bands too when period >= 2; upper - middle = middle - lower = k * std of the window; lower <= middle <= upper |
| TechnicalAnalysis.FlatCloseInsideBands | analysis/technical_analysis.py:31-34 | a close that never moves lies between the lower and the upper band wherever they are defined |
| TechnicalAnalysis.FibonacciOrdered | analysis/technical_analysis.py:37-47 | all six levels are defined exactly from row period-1; when the bar has low <= high, Fib_0 <= Fib_236 <= Fib_382 <= Fib_500 <= Fib_618 <= Fib_100 |
| TechnicalAnalysis.TechnicalAnalyzer.constructor | analysis/technical_analysis.py:5-6 | the analyzer holds the table it was given |
| TechnicalAnalysis.TechnicalAnalyzer.CalculateAllIndicators | analysis/technical_analysis.py:8-13 | RSI, MACD, Bollinger and Fibonacci run in that order on the held table, with the default periods; exactly their twelve columns are written, in that column order, and the same table is returned |
| TechnicalAnalysis.TechnicalAnalyzer.CalculateRsi | analysis/technical_analysis.py:15-21 | writes the RSI column of the close, and only that column |
| TechnicalAnalysis.TechnicalAnalyzer.CalculateMacd | analysis/technical_analysis.py:23-28 | writes MACD (fast EMA minus slow EMA) and its signal line (the EMA of MACD), both defined at every row |
| TechnicalAnalysis.TechnicalAnalyzer.CalculateBollingerBands | analysis/technical_analysis.py:30-35 | writes the middle band (the rolling mean) and the upper and lower bands (middle plus or minus std times the multiplier) |
| TechnicalAnalysis.TechnicalAnalyzer.CalculateFibonacciLevels | analysis/technical_analysis.py:37-48 | writes the six levels `low_min + (high_max - low_min) * f`, with Fib_0 the rolling min of low and Fib_100 the rolling max of high |
| CustomIndicators.SupportResistance | indicators/custom_indicators.py:4-7 | support and resistance are undefined before row window-1; support bounds every low of its window from below and is attained there; resistance bounds every high from above and is attained there; support <= resistance when the bar has low <= high |
| CustomIndicators.CalculateSupportResistance | indicators/custom_indicators.py:4-8 | writes Support (rolling min of low) and Resistance (rolling max of high), and returns the same table |
| CustomIndicators.MomentumIsGainLossSpread | indicators/custom_indicators.py:10-13 | momentum is defined exactly from row `period` on, and there it equals `period` times (mean gain - mean loss) of the RSI window |
| CustomIndicators.CalculateMomentum | indicators/custom_indicators.py:10-13 | writes the Momentum column `close[t] - close[t-period]` and returns the same table |
| CustomIndicators.Pivots | indicators/custom_indicators.py:28-32 | R1 - S1 = high - low; R2 - S2 = 2(high - low); R2 - PP = PP - S2; for low <= close <= high, S2 <= S1 <= PP <= R1 <= R2, strictly around PP when high > low |
| CustomIndicators.CalculatePivotPoints | indicators/custom_indicators.py:26-33 | writes PP, R1, S1, R2 and S2 at every row, in that order, and returns the same table |
| CustomIndicators.Linspace | indicators/custom_indicators.py:17 | `np.linspace(lo, hi, n)`: n edges, the first lo and the last hi; all undefined when an end is undefined |
| CustomIndicators.LinspaceSeparated | indicators/custom_indicators.py:17 | evenly spaced edges never make two non-empty buckets overlap |
| CustomIndicators.TopEdgeInNoBucket | indicators/custom_indicators.py:20-21 | a close equal to the top edge lies in no bucket, because every bucket is half-open |
| CustomIndicators.HitsAtMostOnce | indicators/custom_indicators.py:20-22 | one bar adds its volume to at most one bucket |
| CustomIndicators.ProfileAtMostTotal | indicators/custom_indicators.py:20-22 | with non-negative volumes the bucket sums add up to at most the total volume |
| CustomIndicators.CalculateVolumeProfile | indicators/custom_indicators.py:15-24 | returns the edges from the lowest low to the highest high and bins-1 bucket sums, bucket i holding the volume of the closes in [p_i, p_(i+1)); with non-negative volumes their total is at most the total volume |
| Signals.Evaluate | main.py:77-113 | starting from no action, confidence 0 and no reasons: the confidence is 0.3/0.3/0.2 per fired group, within [0, 0.8]; the reasons are the fired groups' in group order, at most 3; the action is that of the last group that fired, and there is none exactly when no reason was given |
| Signals.UndefinedRsiFiresNothing | main.py:84-92 | an undefined RSI gives no RSI reason |
| Signals.UndefinedMacdFiresNothing | main.py:95-102 | an undefined MACD or signal line gives no MACD reason |
| Signals.UndefinedBandFiresNothing | main.py:105-113 | an undefined lower (upper) band gives no below-band (above-band) reason |
| Signals.NeutralRowNoSignal | main.py:84-113 | RSI in [30, 70], MACD equal to its signal line and a close inside the bands leave the signal fresh |
| Signals.AllGroupsBuy | main.py:84-113 | oversold RSI, MACD above its signal line and a close below the lower band give BUY with 0.8 and three reasons |
| Signals.LaterGroupOverridesAction | main.py:84-113 | oversold RSI then MACD below its signal line gives SELL with 0.6: the later group decides the action |
| Signals.GenerateTradingSignals | main.py:75-115 | the accumulator updated group by group yields exactly the evaluation of the table's last row, so nothing else of the table matters |
| Pipeline.IndicatorOrderPlaced | main.py:65-71 | on a table without derived columns, the four stages leave the columns in the order analyzer, support/resistance, momentum, pivots |
| Pipeline.FetchAndAnalyzeData | main.py:51-73 | nothing for an empty series, before any indicator runs; otherwise a new table over the bars with every derived column of the four stages, in their order |
| Pipeline.LatestRowOfAnalysis | main.py:84-110 | the last row of the analysed table is the one computed from the bars |
| Pipeline.AnalyzeAndSignal | main.py:160-166 | no signal for an empty series; otherwise the evaluation of the indicators at the last bar |
| Pipeline.ShortHistoryFiresLess | main.py:84-113 | with fewer than 14 bars no RSI reason is given, and with fewer than 20 no band reason |
| Pipeline.FlatMarketNoSignal | main.py:84-113 | a close that never moves yields no action, confidence 0 and no reasons |

## Left out

- The user interface is not modelled: Streamlit, plotting, session state, the cached symbol lists, the dashboard text and the `:.2f` and percentage formatting (`main.py:24-49`, `main.py:117-212`). A reason is a tag, and the RSI reasons carry the RSI value.
- `utils/data_fetcher.py` is not part of this model. It is a network client, and the fetched bars are a parameter of the pipeline.
- Environment loading (`load_dotenv`) and the module-level fetcher are not modelled.
- Only the RSI thresholds and the default periods are taken from `config/settings.py`. The risk, backtest and API parameters are not read by the core.
- Floating point is not modelled: no rounding, overflow or infinities, and the Fibonacci fractions are exact reals. A "not a number" is `None`.
- TechnicalAnalysis.TechnicalAnalyzer.CalculateBollingerBands: the sample standard deviation needs a square root, so it is a parameter `stdev` (any function of the window). The band ordering is proved for any non-negative such function.
- Rolling.RollingMeanColumn, Rolling.RollingMaxColumn, Rolling.RollingMinColumn and Rolling.EmaColumn require a window or span of at least 1. The source passes only positive defaults, and pandas rejects a smaller span.
- The timestamp and open columns of a bar are not stored in the table, because no indicator reads them.
- Signals.GenerateTradingSignals: an absent column is not modelled. The method requires the five columns it reads, as the pipeline always provides them.
- The MACD signal line is computed from the MACD values just written, not read back from the table; the values are the same.
