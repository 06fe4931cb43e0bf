/**
 * The signal engine: three rule groups read the last row of the enriched
 * table in a fixed order (RSI, MACD, Bollinger). A group that fires adds
 * its weight to the confidence, appends its reason and overwrites the
 * action, so the last group to fire decides the action. A comparison with
 * an undefined value is false, so an undefined indicator fires nothing.
 */
module Signals {
  import opened SeriesStore
  import Settings

  datatype Action = Buy | Sell

  /** The explanation a fired rule appends; the RSI ones carry the RSI value. */
  datatype Reason =
    | RsiOversold(rsi: real)
    | RsiOverbought(rsi: real)
    | MacdAbove
    | MacdBelow
    | BelowLowerBand
    | AboveUpperBand

  datatype Signal = Signal(action: Option<Action>, confidence: real, reasons: seq<Reason>)

  /** The values the rules read from the last row of the table. */
  datatype Row = Row(rsi: Option<real>, macd: Option<real>, signalLine: Option<real>,
                     close: real, bbLower: Option<real>, bbUpper: Option<real>)

  /** What a fired rule group contributes: its action and its reason. */
  datatype Vote = Vote(action: Action, reason: Reason)

  const RsiWeight: real := 0.3
  const MacdWeight: real := 0.3
  const BollingerWeight: real := 0.2

  function RsiVote(rsi: Option<real>): Option<Vote> {
    if rsi.Some? && rsi.value < Settings.RsiOversold then Some(Vote(Buy, RsiOversold(rsi.value)))
    else if rsi.Some? && rsi.value > Settings.RsiOverbought then Some(Vote(Sell, RsiOverbought(rsi.value)))
    else None
  }

  function MacdVote(macd: Option<real>, signalLine: Option<real>): Option<Vote> {
    if macd.Some? && signalLine.Some? && macd.value > signalLine.value then Some(Vote(Buy, MacdAbove))
    else if macd.Some? && signalLine.Some? && macd.value < signalLine.value then Some(Vote(Sell, MacdBelow))
    else None
  }

  function BollingerVote(close: real, lower: Option<real>, upper: Option<real>): Option<Vote> {
    if lower.Some? && close < lower.value then Some(Vote(Buy, BelowLowerBand))
    else if upper.Some? && close > upper.value then Some(Vote(Sell, AboveUpperBand))
    else None
  }

  /** One rule group's update of the accumulator. */
  function Apply(s: Signal, vote: Option<Vote>, weight: real): Signal {
    if vote.Some? then Signal(Some(vote.value.action), s.confidence + weight, s.reasons + [vote.value.reason])
    else s
  }

  function Weight(vote: Option<Vote>, weight: real): real {
    if vote.Some? then weight else 0.0
  }

  function ReasonOf(vote: Option<Vote>): seq<Reason> {
    if vote.Some? then [vote.value.reason] else []
  }

  /**
   * The signal for one row: the three groups applied in order to a fresh
   * signal (no action, confidence 0, no reasons). The confidence is the sum
   * of the weights of the groups that fired, within [0, 0.8]; the reasons are
   * theirs, in group order; the action is that of the last group that fired,
   * and there is none exactly when no group fired.
   */
  function Evaluate(row: Row): (s: Signal)
    ensures
      var rsi, macd, bb := RsiVote(row.rsi), MacdVote(row.macd, row.signalLine), BollingerVote(row.close, row.bbLower, row.bbUpper);
      s.confidence == Weight(rsi, RsiWeight) + Weight(macd, MacdWeight) + Weight(bb, BollingerWeight) &&
      s.reasons == ReasonOf(rsi) + ReasonOf(macd) + ReasonOf(bb) &&
      s.action == (if bb.Some? then Some(bb.value.action)
                   else if macd.Some? then Some(macd.value.action)
                   else if rsi.Some? then Some(rsi.value.action)
                   else None)
    ensures 0.0 <= s.confidence <= 0.8
    ensures |s.reasons| <= 3
    ensures s.action.None? <==> s.reasons == []
  {
    var start := Signal(None, 0.0, []);
    var afterRsi := Apply(start, RsiVote(row.rsi), RsiWeight);
    var afterMacd := Apply(afterRsi, MacdVote(row.macd, row.signalLine), MacdWeight);
    Apply(afterMacd, BollingerVote(row.close, row.bbLower, row.bbUpper), BollingerWeight)
  }

  /* An undefined indicator fires none of its group's reasons. */

  lemma UndefinedRsiFiresNothing(row: Row)
    requires row.rsi.None?
    ensures forall r :: r in Evaluate(row).reasons ==> !r.RsiOversold? && !r.RsiOverbought?
  {
    var macd, bb := MacdVote(row.macd, row.signalLine), BollingerVote(row.close, row.bbLower, row.bbUpper);
    assert Evaluate(row).reasons == ReasonOf(macd) + ReasonOf(bb);
    assert forall r :: r in ReasonOf(macd) ==> r == MacdAbove || r == MacdBelow;
    assert forall r :: r in ReasonOf(bb) ==> r == BelowLowerBand || r == AboveUpperBand;
  }

  lemma UndefinedMacdFiresNothing(row: Row)
    requires row.macd.None? || row.signalLine.None?
    ensures MacdAbove !in Evaluate(row).reasons && MacdBelow !in Evaluate(row).reasons
  {
    var rsi, bb := RsiVote(row.rsi), BollingerVote(row.close, row.bbLower, row.bbUpper);
    assert Evaluate(row).reasons == ReasonOf(rsi) + ReasonOf(bb);
  }

  lemma UndefinedBandFiresNothing(row: Row)
    ensures row.bbLower.None? ==> BelowLowerBand !in Evaluate(row).reasons
    ensures row.bbUpper.None? ==> AboveUpperBand !in Evaluate(row).reasons
  {
    var rsi, macd, bb := RsiVote(row.rsi), MacdVote(row.macd, row.signalLine), BollingerVote(row.close, row.bbLower, row.bbUpper);
    assert Evaluate(row).reasons == ReasonOf(rsi) + ReasonOf(macd) + ReasonOf(bb);
    assert forall r :: r in ReasonOf(rsi) + ReasonOf(macd) ==> r != BelowLowerBand && r != AboveUpperBand;
  }

  /**
   * RSI within [30, 70], MACD equal to its signal line and a close within
   * the bands: no group fires and the signal stays fresh.
   */
  lemma NeutralRowNoSignal(row: Row)
    requires row.rsi.Some? && 30.0 <= row.rsi.value <= 70.0
    requires row.macd.Some? && row.signalLine.Some? && row.macd.value == row.signalLine.value
    requires row.bbLower.Some? && row.bbUpper.Some? && row.bbLower.value <= row.close <= row.bbUpper.value
    ensures Evaluate(row) == Signal(None, 0.0, [])
  {}

  /** Oversold RSI, MACD above its signal line and a close below the lower band: BUY with 0.8 and three reasons. */
  lemma AllGroupsBuy(row: Row)
    requires row.rsi.Some? && row.rsi.value < 30.0
    requires row.macd.Some? && row.signalLine.Some? && row.macd.value > row.signalLine.value
    requires row.bbLower.Some? && row.close < row.bbLower.value
    ensures Evaluate(row) == Signal(Some(Buy), 0.8, [RsiOversold(row.rsi.value), MacdAbove, BelowLowerBand])
  {}

  /** Oversold RSI followed by MACD below its signal line, close inside the bands: the later MACD group wins, SELL. */
  lemma LaterGroupOverridesAction(row: Row)
    requires row.rsi.Some? && row.rsi.value < 30.0
    requires row.macd.Some? && row.signalLine.Some? && row.macd.value < row.signalLine.value
    requires row.bbLower.Some? && row.bbUpper.Some? && row.bbLower.value <= row.close <= row.bbUpper.value
    ensures Evaluate(row) == Signal(Some(Sell), 0.6, [RsiOversold(row.rsi.value), MacdBelow])
  {}

  /** The values the rules read, taken from the last row of the table. */
  function LatestRow(data: Frame): Row
    reads data
    requires data.Valid() && |data.close| > 0
    requires RSI in data.cols && MACD in data.cols && SignalLine in data.cols
    requires BBLower in data.cols && BBUpper in data.cols
  {
    var last := |data.close| - 1;
    Row(data.cols[RSI][last], data.cols[MACD][last], data.cols[SignalLine][last],
        data.close[last], data.cols[BBLower][last], data.cols[BBUpper][last])
  }

  /**
   * Builds the signal step by step from a fresh accumulator; the result is
   * the specified evaluation of the last row, and nothing else is read.
   */
  method GenerateTradingSignals(data: Frame) returns (signals: Signal)
    requires data.Valid() && |data.close| > 0
    requires RSI in data.cols && MACD in data.cols && SignalLine in data.cols
    requires BBLower in data.cols && BBUpper in data.cols
    ensures signals == Evaluate(LatestRow(data))
  {
    var action: Option<Action> := None;
    var confidence := 0.0;
    var reasons: seq<Reason> := [];
    var last := |data.close| - 1;

    ghost var row := LatestRow(data);
    ghost var afterRsi := Apply(Signal(None, 0.0, []), RsiVote(row.rsi), RsiWeight);
    ghost var afterMacd := Apply(afterRsi, MacdVote(row.macd, row.signalLine), MacdWeight);

    var latestRsi := data.cols[RSI][last];
    if latestRsi.Some? && latestRsi.value < Settings.RsiOversold {
      reasons := reasons + [RsiOversold(latestRsi.value)];
      confidence := confidence + RsiWeight;
      action := Some(Buy);
    } else if latestRsi.Some? && latestRsi.value > Settings.RsiOverbought {
      reasons := reasons + [RsiOverbought(latestRsi.value)];
      confidence := confidence + RsiWeight;
      action := Some(Sell);
    }

    assert Signal(action, confidence, reasons) == afterRsi;

    var macd, signalLine := data.cols[MACD][last], data.cols[SignalLine][last];
    if macd.Some? && signalLine.Some? && macd.value > signalLine.value {
      reasons := reasons + [MacdAbove];
      confidence := confidence + MacdWeight;
      action := Some(Buy);
    } else if macd.Some? && signalLine.Some? && macd.value < signalLine.value {
      reasons := reasons + [MacdBelow];
      confidence := confidence + MacdWeight;
      action := Some(Sell);
    }

    assert Signal(action, confidence, reasons) == afterMacd;

    var latestClose := data.close[last];
    var lower, upper := data.cols[BBLower][last], data.cols[BBUpper][last];
    if lower.Some? && latestClose < lower.value {
      reasons := reasons + [BelowLowerBand];
      confidence := confidence + BollingerWeight;
      action := Some(Buy);
    } else if upper.Some? && latestClose > upper.value {
      reasons := reasons + [AboveUpperBand];
      confidence := confidence + BollingerWeight;
      action := Some(Sell);
    }

    signals := Signal(action, confidence, reasons);
  }
}
