/** The configuration constants the signal rules read. */
module Settings {
  /** RSI above this marks the market overbought. */
  const RsiOverbought: real := 70.0

  /** RSI below this marks the market oversold. */
  const RsiOversold: real := 30.0
}
