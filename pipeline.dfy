/**
 * The analysis pipeline: an empty series of bars stops it; otherwise the
 * analyzer adds RSI, MACD, Bollinger and Fibonacci columns, and then
 * support/resistance, momentum and pivot points are added, in that order.
 * The signal engine then reads the last row of the enriched table.
 */
module Pipeline {
  import opened SeriesStore
  import opened Rolling
  import TechnicalAnalysis
  import CustomIndicators
  import Signals

  /** The derived columns of an analysed table, in the order they are added. */
  const IndicatorOrder: seq<Col> :=
    TechnicalAnalysis.AnalyzerOrder + [Support, Resistance] + [Momentum] + [PP, R1, S1, R2, S2]

  /** Every derived column of an analysed table, as a function of the price columns. */
  function IndicatorColumns(high: seq<real>, low: seq<real>, close: seq<real>,
                            stdev: seq<real> -> real): map<Col, Column>
    requires |high| == |close| && |low| == |close|
  {
    TechnicalAnalysis.WithAnalyzerColumns(map[], high, low, close, stdev)
      [Support := RollingMin(low, 20)]
      [Resistance := RollingMax(high, 20)]
      [Momentum := CustomIndicators.MomentumColumn(close, 14)]
      [PP := CustomIndicators.PPColumn(high, low, close)]
      [R1 := CustomIndicators.R1Column(high, low, close)]
      [S1 := CustomIndicators.S1Column(high, low, close)]
      [R2 := CustomIndicators.R2Column(high, low, close)]
      [S2 := CustomIndicators.S2Column(high, low, close)]
  }

  /* Each stage adds new, distinct columns: the pipeline adds them in the order `Col` declares them. */

  lemma AnalyzerColumnsNew()
    ensures NewColumns([], TechnicalAnalysis.AnalyzerOrder)
  {
    assert [] + TechnicalAnalysis.AnalyzerOrder == TechnicalAnalysis.AnalyzerOrder;
    AscendingNew([], TechnicalAnalysis.AnalyzerOrder);
  }

  lemma LevelColumnsNew()
    ensures NewColumns(TechnicalAnalysis.AnalyzerOrder, [Support, Resistance])
  {
    AscendingJoin(TechnicalAnalysis.AnalyzerOrder, [Support, Resistance]);
    AscendingNew(TechnicalAnalysis.AnalyzerOrder, [Support, Resistance]);
  }

  lemma MomentumColumnNew()
    ensures Momentum !in TechnicalAnalysis.AnalyzerOrder + [Support, Resistance]
  {}

  lemma PivotColumnsNew()
    ensures NewColumns(TechnicalAnalysis.AnalyzerOrder + [Support, Resistance] + [Momentum], [PP, R1, S1, R2, S2])
  {
    var a := TechnicalAnalysis.AnalyzerOrder;
    AscendingJoin(a, [Support, Resistance]);
    AscendingJoin(a + [Support, Resistance], [Momentum]);
    AscendingJoin(a + [Support, Resistance] + [Momentum], [PP, R1, S1, R2, S2]);
    AscendingNew(a + [Support, Resistance] + [Momentum], [PP, R1, S1, R2, S2]);
  }

  /**
   * Starting from a table without derived columns, each stage appends its
   * columns. Both arguments are fixed by the preconditions; they are
   * parameters rather than constants only so that the caller hands over
   * the column list it already has, and the nested `PlacedAll` terms are
   * not unfolded a second time.
   */
  lemma IndicatorOrderPlaced(start: seq<Col>, names: seq<Col>)
    requires start == []
    requires names == PlacedAll(Placed(PlacedAll(PlacedAll(start, TechnicalAnalysis.AnalyzerOrder),
                        [Support, Resistance]), Momentum), [PP, R1, S1, R2, S2])
    ensures names == IndicatorOrder
  {
    var a := TechnicalAnalysis.AnalyzerOrder;
    AnalyzerStage(start);
    LevelStage(PlacedAll(start, a));
    var b := PlacedAll(PlacedAll(start, a), [Support, Resistance]);
    MomentumColumnNew();
    PivotStage(Placed(b, Momentum));
  }

  lemma AnalyzerStage(start: seq<Col>)
    requires start == []
    ensures PlacedAll(start, TechnicalAnalysis.AnalyzerOrder) == TechnicalAnalysis.AnalyzerOrder
  {
    AnalyzerColumnsNew();
    PlacedAllAppends(start, TechnicalAnalysis.AnalyzerOrder);
    assert start + TechnicalAnalysis.AnalyzerOrder == TechnicalAnalysis.AnalyzerOrder;
  }

  lemma LevelStage(a: seq<Col>)
    requires a == TechnicalAnalysis.AnalyzerOrder
    ensures PlacedAll(a, [Support, Resistance]) == a + [Support, Resistance]
  {
    LevelColumnsNew();
    PlacedAllAppends(a, [Support, Resistance]);
  }

  lemma PivotStage(m: seq<Col>)
    requires m == TechnicalAnalysis.AnalyzerOrder + [Support, Resistance] + [Momentum]
    ensures PlacedAll(m, [PP, R1, S1, R2, S2]) == IndicatorOrder
  {
    PivotColumnsNew();
    PlacedAllAppends(m, [PP, R1, S1, R2, S2]);
  }

  /**
   * Fetched bars in, enriched table out: nothing for an empty series, before
   * any indicator runs; otherwise a new table with every derived column, in
   * the pipeline's order, over the unchanged price columns.
   */
  method FetchAndAnalyzeData(bars: seq<Bar>, stdev: seq<real> -> real) returns (analyzed: Option<Frame>)
    ensures analyzed.None? <==> bars == []
    ensures analyzed.Some? ==>
      var data := analyzed.value;
      fresh(data) && data.Valid() &&
      data.high == Highs(bars) && data.low == Lows(bars) &&
      data.close == Closes(bars) && data.volume == Volumes(bars) &&
      data.names == IndicatorOrder &&
      data.cols == IndicatorColumns(data.high, data.low, data.close, stdev)
  {
    if bars == [] {
      return None;
    }
    var data := new Frame(bars);
    ghost var start := data.names;
    var analyzer := new TechnicalAnalysis.TechnicalAnalyzer(data);
    var analyzedData := analyzer.CalculateAllIndicators(stdev);
    analyzedData := CustomIndicators.CalculateSupportResistance(analyzedData);
    analyzedData := CustomIndicators.CalculateMomentum(analyzedData);
    analyzedData := CustomIndicators.CalculatePivotPoints(analyzedData);
    IndicatorOrderPlaced(start, analyzedData.names);
    return Some(analyzedData);
  }

  /** The last row the signal engine reads, as a function of the bars alone. */
  function LatestIndicators(bars: seq<Bar>, stdev: seq<real> -> real): Signals.Row
    requires bars != []
  {
    var close := Closes(bars);
    var last := |bars| - 1;
    Signals.Row(TechnicalAnalysis.RsiColumn(close, 14)[last],
                Some(TechnicalAnalysis.MacdLine(close, 12, 26)[last]),
                Some(TechnicalAnalysis.SignalLineOf(close, 12, 26, 9)[last]),
                close[last],
                TechnicalAnalysis.BBLowerColumn(close, 20, 2.0, stdev)[last],
                TechnicalAnalysis.BBUpperColumn(close, 20, 2.0, stdev)[last])
  }

  /** The derived columns the signal engine reads, looked up in the analysed table. */
  lemma SignalColumns(high: seq<real>, low: seq<real>, close: seq<real>, stdev: seq<real> -> real)
    requires |high| == |close| && |low| == |close|
    ensures var cols := IndicatorColumns(high, low, close, stdev);
      cols[RSI] == TechnicalAnalysis.RsiColumn(close, 14) &&
      cols[MACD] == Defined(TechnicalAnalysis.MacdLine(close, 12, 26)) &&
      cols[SignalLine] == Defined(TechnicalAnalysis.SignalLineOf(close, 12, 26, 9)) &&
      cols[BBLower] == TechnicalAnalysis.BBLowerColumn(close, 20, 2.0, stdev) &&
      cols[BBUpper] == TechnicalAnalysis.BBUpperColumn(close, 20, 2.0, stdev)
  {}

  /** The last row of an analysed table is the row `LatestIndicators` computes from the bars. */
  lemma LatestRowOfAnalysis(bars: seq<Bar>, stdev: seq<real> -> real, data: Frame)
    requires bars != [] && data.Valid()
    requires data.high == Highs(bars) && data.low == Lows(bars) && data.close == Closes(bars)
    requires data.cols == IndicatorColumns(data.high, data.low, data.close, stdev)
    ensures RSI in data.cols && MACD in data.cols && SignalLine in data.cols
    ensures BBLower in data.cols && BBUpper in data.cols
    ensures Signals.LatestRow(data) == LatestIndicators(bars, stdev)
  {
    SignalColumns(data.high, data.low, data.close, stdev);
  }

  /**
   * Analysis followed by signal generation: no signal for an empty series,
   * otherwise the evaluation of the indicators at the last bar.
   */
  method AnalyzeAndSignal(bars: seq<Bar>, stdev: seq<real> -> real) returns (signal: Option<Signals.Signal>)
    ensures signal.None? <==> bars == []
    ensures signal.Some? ==> signal.value == Signals.Evaluate(LatestIndicators(bars, stdev))
  {
    var analyzed := FetchAndAnalyzeData(bars, stdev);
    if analyzed.None? {
      return None;
    }
    LatestRowOfAnalysis(bars, stdev, analyzed.value);
    var s := Signals.GenerateTradingSignals(analyzed.value);
    return Some(s);
  }

  /**
   * With fewer than 14 bars the RSI group cannot fire, and with fewer than
   * 20 the Bollinger group cannot: their indicators are still undefined.
   */
  lemma ShortHistoryFiresLess(bars: seq<Bar>, stdev: seq<real> -> real)
    requires bars != []
    ensures |bars| < 14 ==> forall r :: r in Signals.Evaluate(LatestIndicators(bars, stdev)).reasons ==>
              !r.RsiOversold? && !r.RsiOverbought?
    ensures |bars| < 20 ==>
      var reasons := Signals.Evaluate(LatestIndicators(bars, stdev)).reasons;
      Signals.BelowLowerBand !in reasons && Signals.AboveUpperBand !in reasons
  {
    var close := Closes(bars);
    TechnicalAnalysis.RsiAt(close, 14, |bars| - 1);
    var row := LatestIndicators(bars, stdev);
    if |bars| < 14 {
      Signals.UndefinedRsiFiresNothing(row);
    }
    Signals.UndefinedBandFiresNothing(row);
  }

  /**
   * A market whose close never moves yields no signal: RSI is undefined
   * (no gains, no losses), MACD equals its signal line (both 0) and the
   * close sits on the middle band, between the outer bands.
   */
  lemma FlatMarketNoSignal(bars: seq<Bar>, stdev: seq<real> -> real)
    requires bars != []
    requires forall i :: 0 <= i < |bars| ==> bars[i].close == bars[0].close
    requires forall w :: stdev(w) >= 0.0
    ensures Signals.Evaluate(LatestIndicators(bars, stdev)) == Signals.Signal(None, 0.0, [])
  {
    var close := Closes(bars);
    var c := bars[0].close;
    TechnicalAnalysis.MacdOfConstant(close, c, 12, 26, 9);
    TechnicalAnalysis.FlatRsiUndefined(close, c, 14, |bars| - 1);
    TechnicalAnalysis.FlatCloseInsideBands(close, c, 20, 2.0, stdev, |bars| - 1);
  }
}
