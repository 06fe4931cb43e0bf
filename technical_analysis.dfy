/**
 * The technical analyzer: RSI, MACD with its signal line, Bollinger bands
 * and Fibonacci retracement levels, each written as new columns into the
 * table the analyzer holds.
 */
module TechnicalAnalysis {
  import opened SeriesStore
  import opened Rolling

  /* ---------------- RSI ---------------- */

  /**
   * The positive part of the close-to-close change. Row 0 has no previous
   * close; its change is undefined and, failing `delta > 0`, counts as 0.
   */
  function Gain(close: seq<real>, t: nat): (g: real)
    requires t < |close|
    ensures g >= 0.0
    ensures t == 0 ==> g == 0.0
  {
    if t == 0 then 0.0
    else if close[t] - close[t - 1] > 0.0 then close[t] - close[t - 1] else 0.0
  }

  /** The negated negative part of the change; row 0 counts as 0 as well. */
  function Loss(close: seq<real>, t: nat): (l: real)
    requires t < |close|
    ensures l >= 0.0
    ensures t == 0 ==> l == 0.0
  {
    if t == 0 then 0.0
    else if close[t] - close[t - 1] < 0.0 then -(close[t] - close[t - 1]) else 0.0
  }

  function Gains(close: seq<real>): (r: seq<real>)
    ensures |r| == |close| && forall t :: 0 <= t < |close| ==> r[t] == Gain(close, t) && r[t] >= 0.0
  {
    seq(|close|, t requires 0 <= t < |close| => Gain(close, t))
  }

  function Losses(close: seq<real>): (r: seq<real>)
    ensures |r| == |close| && forall t :: 0 <= t < |close| ==> r[t] == Loss(close, t) && r[t] >= 0.0
  {
    seq(|close|, t requires 0 <= t < |close| => Loss(close, t))
  }

  /**
   * `100 - 100 / (1 + gain / loss)` with the floating-point cases written
   * out: a zero loss makes the ratio infinite (RSI 100) when the gain is
   * positive and not a number when the gain is zero too.
   */
  function RsiValue(gain: real, loss: real): (r: Option<real>)
    requires gain >= 0.0 && loss >= 0.0
    ensures r.Some? <==> gain + loss > 0.0
    ensures r.Some? ==> r.value == 100.0 * gain / (gain + loss)
    ensures r.Some? ==> 0.0 <= r.value <= 100.0
    ensures r == Some(100.0) <==> loss == 0.0 && gain > 0.0
  {
    if loss == 0.0 then
      (if gain > 0.0 then (assert 100.0 * gain / (gain + loss) == 100.0; Some(100.0)) else None)
    else
      RsiRatio(gain, loss);
      Some(100.0 - 100.0 / (1.0 + gain / loss))
  }

  lemma Cancel(x: real, y: real, z: real)
    requires z > 0.0 && x * z == y * z
    ensures x == y
  {
    assert (x - y) * z == 0.0;
  }

  /** With a positive loss, `100 - 100 / (1 + gain / loss)` is `100 * gain / (gain + loss)`, below 100. */
  lemma RsiRatio(gain: real, loss: real)
    requires gain >= 0.0 && loss > 0.0
    ensures 100.0 - 100.0 / (1.0 + gain / loss) == 100.0 * gain / (gain + loss)
    ensures 0.0 <= 100.0 * gain / (gain + loss) < 100.0
  {
    var q := gain / loss;
    assert q * loss == gain;
    var d := 1.0 + q;
    assert d * loss == loss + gain;
    var a := 100.0 / d;
    assert a * d == 100.0;
    var s := gain + loss;
    assert a * s == a * (d * loss) == (a * d) * loss == 100.0 * loss;
    var b := 100.0 * gain / s;
    assert b * s == 100.0 * gain;
    assert (100.0 - a) * s == 100.0 * s - a * s == 100.0 * gain;
    Cancel(100.0 - a, b, s);
    assert b * (gain + loss) < 100.0 * (gain + loss);
    if b >= 100.0 {
      ProductNonNegative(b - 100.0, gain + loss);
    }
    if b < 0.0 {
      ProductNonNegative(-b, gain + loss);
    }
  }

  /** Scaling both sums by the same positive window length leaves the ratio unchanged. */
  lemma RatioOfMeans(g: real, l: real, p: real)
    requires g >= 0.0 && l >= 0.0 && p > 0.0
    ensures g / p >= 0.0 && l / p >= 0.0
    ensures g / p + l / p > 0.0 <==> g + l > 0.0
    ensures l / p == 0.0 <==> l == 0.0
    ensures g / p > 0.0 <==> g > 0.0
    ensures g + l > 0.0 ==> 100.0 * (g / p) / (g / p + l / p) == 100.0 * g / (g + l)
  {
    var u, v := g / p, l / p;
    assert u * p == g && v * p == l;
    assert (u + v) * p == g + l;
    if g + l > 0.0 {
      var w := u + v;
      var x := 100.0 * u / w;
      var y := 100.0 * g / (g + l);
      assert x * w == 100.0 * u;
      assert x * (g + l) == x * (w * p) == (x * w) * p == 100.0 * (u * p) == 100.0 * g;
      assert y * (g + l) == 100.0 * g;
      Cancel(x, y, g + l);
    }
  }

  function RsiOf(gain: Option<real>, loss: Option<real>): Option<real>
    requires gain.Some? ==> gain.value >= 0.0
    requires loss.Some? ==> loss.value >= 0.0
  {
    if gain.Some? && loss.Some? then RsiValue(gain.value, loss.value) else None
  }

  /** Row by row RSI of a mean-gain and a mean-loss column. */
  function RsiFromMeans(gain: Column, loss: Column): (r: Column)
    requires |gain| == |loss|
    requires forall t :: 0 <= t < |gain| && gain[t].Some? ==> gain[t].value >= 0.0
    requires forall t :: 0 <= t < |loss| && loss[t].Some? ==> loss[t].value >= 0.0
    ensures |r| == |gain|
  {
    seq(|gain|, t requires 0 <= t < |gain| => RsiOf(gain[t], loss[t]))
  }

  /** The RSI column: the ratio of the rolling mean gain and loss. */
  function RsiColumn(close: seq<real>, period: nat): (r: Column)
    requires period >= 1
    ensures |r| == |close|
  {
    RollingMeanNonNegative(Gains(close), period);
    RollingMeanNonNegative(Losses(close), period);
    RsiFromMeans(RollingMean(Gains(close), period), RollingMean(Losses(close), period))
  }

  /**
   * RSI at row `t`: undefined before row `period - 1`; from there on it is
   * `100 * G / (G + L)` for the window sums G of gains and L of losses,
   * undefined when both are zero, and within [0, 100].
   */
  lemma RsiAt(close: seq<real>, period: nat, t: nat)
    requires period >= 1 && t < |close|
    ensures t + 1 < period ==> RsiColumn(close, period)[t] == None
    ensures t + 1 >= period ==>
      var g := Sum(Window(Gains(close), period, t));
      var l := Sum(Window(Losses(close), period, t));
      var rsi := RsiColumn(close, period)[t];
      g >= 0.0 && l >= 0.0 &&
      (rsi.Some? <==> g + l > 0.0) &&
      (rsi.Some? ==> rsi.value == 100.0 * g / (g + l) && 0.0 <= rsi.value <= 100.0) &&
      (rsi == Some(100.0) <==> l == 0.0 && g > 0.0)
  {
    if t + 1 >= period {
      var g := Sum(Window(Gains(close), period, t));
      var l := Sum(Window(Losses(close), period, t));
      SumNonNegative(Window(Gains(close), period, t));
      SumNonNegative(Window(Losses(close), period, t));
      RatioOfMeans(g, l, period as real);
    }
  }

  /** A close that never moves has neither gains nor losses, so its RSI is undefined everywhere. */
  lemma FlatRsiUndefined(close: seq<real>, c: real, period: nat, t: nat)
    requires period >= 1 && t < |close|
    requires forall i :: 0 <= i < |close| ==> close[i] == c
    ensures RsiColumn(close, period)[t] == None
  {
    RsiAt(close, period, t);
    if t + 1 >= period {
      SumOfConstant(Window(Gains(close), period, t), 0.0);
      SumOfConstant(Window(Losses(close), period, t), 0.0);
    }
  }

  /** At each row the gain minus the loss is the change of close (0 at row 0). */
  lemma GainMinusLoss(close: seq<real>, t: nat)
    requires t < |close|
    ensures Gain(close, t) - Loss(close, t) == if t == 0 then 0.0 else close[t] - close[t - 1]
  {}

  /** Gains minus losses over `[a, b)` telescope to the change of close across it. */
  lemma {:induction false} GainLossTelescope(close: seq<real>, a: nat, b: nat)
    requires a <= b <= |close|
    ensures Sum(Gains(close)[a..b]) - Sum(Losses(close)[a..b])
         == if a == b then 0.0 else close[b - 1] - close[if a == 0 then 0 else a - 1]
    decreases b - a
  {
    if a < b {
      var gains, losses := Gains(close), Losses(close);
      GainLossTelescope(close, a, b - 1);
      assert gains[a..b][..b - 1 - a] == gains[a..b - 1];
      assert losses[a..b][..b - 1 - a] == losses[a..b - 1];
      assert Sum(gains[a..b]) == Sum(gains[a..b - 1]) + gains[b - 1];
      assert Sum(losses[a..b]) == Sum(losses[a..b - 1]) + losses[b - 1];
      GainMinusLoss(close, b - 1);
    }
  }

  /**
   * The window sums of gains and losses differ by the change of close over
   * the window. In the first full window (row `period - 1`) that change
   * spans only `period - 1` real differences, because row 0 counts as 0.
   */
  lemma GainLossSpread(close: seq<real>, period: nat, t: nat)
    requires 1 <= period <= t + 1 <= |close|
    ensures Sum(Window(Gains(close), period, t)) - Sum(Window(Losses(close), period, t))
         == close[t] - close[if t >= period then t - period else 0]
  {
    GainLossTelescope(close, t + 1 - period, t + 1);
  }

  /* ---------------- MACD ---------------- */

  /** Fast EMA minus slow EMA of the close. */
  function MacdLine(close: seq<real>, fast: nat, slow: nat): (r: seq<real>)
    requires fast >= 1 && slow >= 1
    ensures |r| == |close|
  {
    var f := Ema(close, Alpha(fast));
    var s := Ema(close, Alpha(slow));
    seq(|close|, t requires 0 <= t < |close| => f[t] - s[t])
  }

  /** The EMA of the MACD line. */
  function SignalLineOf(close: seq<real>, fast: nat, slow: nat, signal: nat): (r: seq<real>)
    requires fast >= 1 && slow >= 1 && signal >= 1
    ensures |r| == |close|
  {
    Ema(MacdLine(close, fast, slow), Alpha(signal))
  }

  /** On a constant close both MACD and its signal line are 0 at every row. */
  lemma MacdOfConstant(close: seq<real>, c: real, fast: nat, slow: nat, signal: nat)
    requires fast >= 1 && slow >= 1 && signal >= 1
    requires forall i :: 0 <= i < |close| ==> close[i] == c
    ensures forall t :: 0 <= t < |close| ==> MacdLine(close, fast, slow)[t] == 0.0
    ensures forall t :: 0 <= t < |close| ==> SignalLineOf(close, fast, slow, signal)[t] == 0.0
  {
    EmaOfConstant(close, Alpha(fast), c);
    EmaOfConstant(close, Alpha(slow), c);
    EmaOfConstant(MacdLine(close, fast, slow), Alpha(signal), 0.0);
  }

  /** MACD and (for a positive span) its signal line stay within the spread of the closes seen so far. */
  lemma MacdBounded(close: seq<real>, fast: nat, slow: nat, signal: nat, t: nat, lo: real, hi: real)
    requires fast >= 1 && slow >= 1 && t < |close|
    requires forall i :: 0 <= i <= t ==> lo <= close[i] <= hi
    ensures lo - hi <= MacdLine(close, fast, slow)[t] <= hi - lo
    ensures signal >= 1 ==> lo - hi <= SignalLineOf(close, fast, slow, signal)[t] <= hi - lo
  {
    EmaWithin(close, Alpha(fast), t, lo, hi);
    EmaWithin(close, Alpha(slow), t, lo, hi);
    if signal >= 1 {
      forall i | 0 <= i <= t
        ensures lo - hi <= MacdLine(close, fast, slow)[i] <= hi - lo
      {
        EmaWithin(close, Alpha(fast), i, lo, hi);
        EmaWithin(close, Alpha(slow), i, lo, hi);
      }
      EmaWithin(MacdLine(close, fast, slow), Alpha(signal), t, lo - hi, hi - lo);
    }
  }

  /* ---------------- Bollinger bands ---------------- */

  /**
   * The rolling sample standard deviation, for a window statistic `stdev`
   * taken as given. With one degree of freedom a single-value window has
   * no deviation, so a period below 2 leaves it undefined.
   */
  function StdAt(close: seq<real>, period: nat, t: nat, stdev: seq<real> -> real): Option<real>
    requires period >= 1 && t < |close|
  {
    if t + 1 >= period && period >= 2 then Some(stdev(Window(close, period, t))) else None
  }

  function StdColumn(close: seq<real>, period: nat, stdev: seq<real> -> real): (r: Column)
    requires period >= 1
    ensures |r| == |close|
  {
    seq(|close|, t requires 0 <= t < |close| => StdAt(close, period, t, stdev))
  }

  /** `middle + std * k` row by row. */
  function UpperBand(middle: Column, std: Column, k: real): (r: Column)
    requires |middle| == |std|
    ensures |r| == |middle|
  {
    seq(|middle|, t requires 0 <= t < |middle| => Add(middle[t], Scale(std[t], k)))
  }

  /** `middle - std * k` row by row. */
  function LowerBand(middle: Column, std: Column, k: real): (r: Column)
    requires |middle| == |std|
    ensures |r| == |middle|
  {
    seq(|middle|, t requires 0 <= t < |middle| => Sub(middle[t], Scale(std[t], k)))
  }

  function BBUpperColumn(close: seq<real>, period: nat, k: real, stdev: seq<real> -> real): (r: Column)
    requires period >= 1
    ensures |r| == |close|
  {
    UpperBand(RollingMean(close, period), StdColumn(close, period, stdev), k)
  }

  function BBLowerColumn(close: seq<real>, period: nat, k: real, stdev: seq<real> -> real): (r: Column)
    requires period >= 1
    ensures |r| == |close|
  {
    LowerBand(RollingMean(close, period), StdColumn(close, period, stdev), k)
  }

  /**
   * The middle band is defined from row `period - 1`, the outer bands too
   * when the period is at least 2; the outer bands sit `k` deviations either
   * side of the middle, so upper >= middle >= lower.
   */
  lemma BollingerBands(close: seq<real>, period: nat, k: real, stdev: seq<real> -> real, t: nat)
    requires period >= 1 && t < |close| && k >= 0.0
    requires forall w :: stdev(w) >= 0.0
    ensures RollingMean(close, period)[t].Some? <==> t + 1 >= period
    ensures BBUpperColumn(close, period, k, stdev)[t].Some? <==> t + 1 >= period && period >= 2
    ensures BBLowerColumn(close, period, k, stdev)[t].Some? <==> t + 1 >= period && period >= 2
    ensures BBUpperColumn(close, period, k, stdev)[t].Some? ==>
      var mid := RollingMean(close, period)[t].value;
      var up := BBUpperColumn(close, period, k, stdev)[t].value;
      var low := BBLowerColumn(close, period, k, stdev)[t].value;
      up - mid == mid - low == k * stdev(Window(close, period, t)) &&
      low <= mid <= up
  {
    if t + 1 >= period && period >= 2 {
      ProductNonNegative(stdev(Window(close, period, t)), k);
    }
  }

  /** A close that never moves sits on its middle band, so between the outer bands. */
  lemma FlatCloseInsideBands(close: seq<real>, c: real, period: nat, k: real, stdev: seq<real> -> real, t: nat)
    requires period >= 1 && t < |close| && k >= 0.0
    requires forall w :: stdev(w) >= 0.0
    requires forall i :: 0 <= i < |close| ==> close[i] == c
    ensures BBLowerColumn(close, period, k, stdev)[t].Some? ==> BBLowerColumn(close, period, k, stdev)[t].value <= c
    ensures BBUpperColumn(close, period, k, stdev)[t].Some? ==> c <= BBUpperColumn(close, period, k, stdev)[t].value
  {
    BollingerBands(close, period, k, stdev, t);
    if t + 1 >= period {
      SumOfConstant(Window(close, period, t), c);
      var n := period as real;
      assert Sum(Window(close, period, t)) == n * c;
      assert n * c / n == c;
      assert MeanAt(close, period, t) == Some(c);
      assert RollingMean(close, period)[t] == Some(c);
    }
  }

  /* ---------------- Fibonacci levels ---------------- */

  /** The level at fraction `f` of the range from the rolling low to the rolling high: `low_min + (high_max - low_min) * f` row by row. */
  function FibLevel(highMax: Column, lowMin: Column, f: real): (r: Column)
    requires |highMax| == |lowMin|
    ensures |r| == |lowMin|
  {
    seq(|lowMin|, t requires 0 <= t < |lowMin| => Add(lowMin[t], Scale(Sub(highMax[t], lowMin[t]), f)))
  }

  function FibColumn(high: seq<real>, low: seq<real>, period: nat, f: real): (r: Column)
    requires period >= 1 && |high| == |low|
    ensures |r| == |low|
  {
    FibLevel(RollingMax(high, period), RollingMin(low, period), f)
  }

  /**
   * All six levels are defined exactly from row `period - 1`; when the bar
   * at `t` has low <= high they are ordered 0 <= 23.6 <= 38.2 <= 50 <= 61.8 <= 100.
   */
  lemma FibonacciOrdered(high: seq<real>, low: seq<real>, period: nat, t: nat)
    requires period >= 1 && |high| == |low| && t < |low|
    ensures RollingMin(low, period)[t].Some? <==> t + 1 >= period
    ensures RollingMax(high, period)[t].Some? <==> t + 1 >= period
    ensures FibColumn(high, low, period, 0.236)[t].Some? <==> t + 1 >= period
    ensures FibColumn(high, low, period, 0.382)[t].Some? <==> t + 1 >= period
    ensures FibColumn(high, low, period, 0.5)[t].Some? <==> t + 1 >= period
    ensures FibColumn(high, low, period, 0.618)[t].Some? <==> t + 1 >= period
    ensures t + 1 >= period && low[t] <= high[t] ==>
      RollingMin(low, period)[t].value <= FibColumn(high, low, period, 0.236)[t].value
      <= FibColumn(high, low, period, 0.382)[t].value <= FibColumn(high, low, period, 0.5)[t].value
      <= FibColumn(high, low, period, 0.618)[t].value <= RollingMax(high, period)[t].value
  {
    if t + 1 >= period && low[t] <= high[t] {
      var lo := Min(Window(low, period, t));
      var hi := Max(Window(high, period, t));
      assert lo <= low[t] <= high[t] <= hi;
    }
  }

  /** The six level columns are placed one after another, in level order. */
  lemma FibonacciPlaced(names: seq<Col>)
    ensures PlacedAll(names, [Fib0, Fib236, Fib382, Fib500, Fib618, Fib100]) ==
      Placed(Placed(Placed(Placed(Placed(Placed(names, Fib0), Fib236), Fib382), Fib500), Fib618), Fib100)
  {}

  /* ---------------- The analyzer ---------------- */

  /** The columns the analyzer adds, in the order it adds them. */
  const AnalyzerOrder: seq<Col> :=
    [RSI, MACD, SignalLine, BBMiddle, BBUpper, BBLower, Fib0, Fib236, Fib382, Fib500, Fib618, Fib100]

  /** The table's derived columns after `calculate_all_indicators` with its default periods. */
  function WithAnalyzerColumns(cols: map<Col, Column>, high: seq<real>, low: seq<real>, close: seq<real>,
                               stdev: seq<real> -> real): map<Col, Column>
    requires |high| == |low|
  {
    cols[RSI := RsiColumn(close, 14)]
        [MACD := Defined(MacdLine(close, 12, 26))]
        [SignalLine := Defined(SignalLineOf(close, 12, 26, 9))]
        [BBMiddle := RollingMean(close, 20)]
        [BBUpper := BBUpperColumn(close, 20, 2.0, stdev)]
        [BBLower := BBLowerColumn(close, 20, 2.0, stdev)]
        [Fib0 := RollingMin(low, 14)]
        [Fib236 := FibColumn(high, low, 14, 0.236)]
        [Fib382 := FibColumn(high, low, 14, 0.382)]
        [Fib500 := FibColumn(high, low, 14, 0.5)]
        [Fib618 := FibColumn(high, low, 14, 0.618)]
        [Fib100 := RollingMax(high, 14)]
  }

  class TechnicalAnalyzer {
    const data: Frame

    constructor (data: Frame)
      ensures this.data == data
    {
      this.data := data;
    }

    /** Runs RSI, MACD, Bollinger and Fibonacci, in that order, on the held table. */
    method CalculateAllIndicators(stdev: seq<real> -> real) returns (r: Frame)
      requires data.Valid()
      modifies data
      ensures r == data && data.Valid()
      ensures data.cols == WithAnalyzerColumns(old(data.cols), data.high, data.low, data.close, stdev)
      ensures data.names == PlacedAll(old(data.names), AnalyzerOrder)
    {
      var _ := CalculateRsi();
      var _ := CalculateMacd();
      var _ := CalculateBollingerBands(stdev);
      var _ := CalculateFibonacciLevels();
      r := data;
    }

    method CalculateRsi(period: nat := 14) returns (r: Frame)
      requires data.Valid() && period >= 1
      modifies data
      ensures r == data && data.Valid()
      ensures data.cols == old(data.cols)[RSI := RsiColumn(data.close, period)]
      ensures data.names == Placed(old(data.names), RSI)
    {
      var close := data.close;
      var gain := RollingMeanColumn(Gains(close), period);
      var loss := RollingMeanColumn(Losses(close), period);
      RollingMeanNonNegative(Gains(close), period);
      RollingMeanNonNegative(Losses(close), period);
      data.SetColumn(RSI, RsiFromMeans(gain, loss));
      r := data;
    }

    method CalculateMacd(shortPeriod: nat := 12, longPeriod: nat := 26, signalPeriod: nat := 9) returns (r: Frame)
      requires data.Valid() && shortPeriod >= 1 && longPeriod >= 1 && signalPeriod >= 1
      modifies data
      ensures r == data && data.Valid()
      ensures data.cols == old(data.cols)
        [MACD := Defined(MacdLine(data.close, shortPeriod, longPeriod))]
        [SignalLine := Defined(SignalLineOf(data.close, shortPeriod, longPeriod, signalPeriod))]
      ensures data.names == PlacedAll(old(data.names), [MACD, SignalLine])
    {
      var close := data.close;
      var exp1 := EmaColumn(close, shortPeriod);
      var exp2 := EmaColumn(close, longPeriod);
      var macd := seq(|close|, t requires 0 <= t < |close| => exp1[t] - exp2[t]);
      assert macd == MacdLine(close, shortPeriod, longPeriod);
      data.SetColumn(MACD, Defined(macd));
      var signal := EmaColumn(macd, signalPeriod);
      data.SetColumn(SignalLine, Defined(signal));
      r := data;
    }

    method CalculateBollingerBands(stdev: seq<real> -> real, period: nat := 20, stdDev: real := 2.0) returns (r: Frame)
      requires data.Valid() && period >= 1
      modifies data
      ensures r == data && data.Valid()
      ensures data.cols == old(data.cols)
        [BBMiddle := RollingMean(data.close, period)]
        [BBUpper := BBUpperColumn(data.close, period, stdDev, stdev)]
        [BBLower := BBLowerColumn(data.close, period, stdDev, stdev)]
      ensures data.names == PlacedAll(old(data.names), [BBMiddle, BBUpper, BBLower])
    {
      var close := data.close;
      var middle := RollingMeanColumn(close, period);
      data.SetColumn(BBMiddle, middle);
      var std := StdColumn(close, period, stdev);
      data.SetColumn(BBUpper, UpperBand(middle, std, stdDev));
      data.SetColumn(BBLower, LowerBand(middle, std, stdDev));
      r := data;
    }

    method CalculateFibonacciLevels(period: nat := 14) returns (r: Frame)
      requires data.Valid() && period >= 1
      modifies data
      ensures r == data && data.Valid()
      ensures data.cols == old(data.cols)
        [Fib0 := RollingMin(data.low, period)]
        [Fib236 := FibColumn(data.high, data.low, period, 0.236)]
        [Fib382 := FibColumn(data.high, data.low, period, 0.382)]
        [Fib500 := FibColumn(data.high, data.low, period, 0.5)]
        [Fib618 := FibColumn(data.high, data.low, period, 0.618)]
        [Fib100 := RollingMax(data.high, period)]
      ensures data.names == PlacedAll(old(data.names), [Fib0, Fib236, Fib382, Fib500, Fib618, Fib100])
    {
      ghost var before := data.names;
      FibonacciPlaced(before);
      var high, low := data.high, data.low;
      var highMax := RollingMaxColumn(high, period);
      var lowMin := RollingMinColumn(low, period);
      data.SetColumn(Fib0, lowMin);
      data.SetColumn(Fib236, FibLevel(highMax, lowMin, 0.236));
      data.SetColumn(Fib382, FibLevel(highMax, lowMin, 0.382));
      data.SetColumn(Fib500, FibLevel(highMax, lowMin, 0.5));
      data.SetColumn(Fib618, FibLevel(highMax, lowMin, 0.618));
      data.SetColumn(Fib100, highMax);
      r := data;
    }
  }
}
