/**
 * Market data as the simulators receive it: raw candles, and bars annotated
 * with the indicator columns that an external library computes.
 */
module Bars {
  import opened Common

  /** One OHLCV candle; `timestamp` is the open time in milliseconds. */
  datatype Candle = Candle(
    timestamp: int,
    open: real,
    high: real,
    low: real,
    close: Price,
    volume: real,
    isClosed: bool)

  /** A candle together with its precomputed indicators (one DataFrame row without NaN). */
  datatype Bar = Bar(
    timestamp: int,
    open: real,
    high: real,
    low: real,
    close: Price,
    volume: real,
    rsi: real,
    stochK: real,
    stochD: real,
    bbUpper: real,
    bbMiddle: real,
    bbLower: real,
    atr: real,
    volumeMa: real,
    emaFast: real,
    emaSlow: real)

  /**
   * Why a strategy fired. The source builds display strings; the model keeps
   * the condition and the values those strings print.
   */
  datatype Reason =
    | RsiOversoldBounce(rsi: real)
    | RsiOverboughtDrop(rsi: real)
    | StochGoldenCross(k: real)
    | StochDeadCross(k: real)
    | BbLowerBounce
    | BbUpperResistance
    | BbUpperPullback
    | VolumeSurge(volume: real, volumeMa: real)
    | RsiBelow(limit: real, rsi: real)
    | RsiAbove(limit: real, rsi: real)
    | BelowBbMiddle
    | AboveBbMiddle
    | RsiTurnUp
    | RsiTurnDown
    | GoldenCrossConfirmed
    | DeadCrossConfirmed
    | StochOversold(k: real)
    | StochOverbought(k: real)
    | NearBbLower
    | NearBbUpper
    | VolumeUp

  /** %K crossing above %D between the previous and the last bar. */
  predicate GoldenCross(last: Bar, prev: Bar)
  {
    last.stochK > last.stochD && prev.stochK <= prev.stochD
  }

  /** %K crossing below %D between the previous and the last bar. */
  predicate DeadCross(last: Bar, prev: Bar)
  {
    last.stochK < last.stochD && prev.stochK >= prev.stochD
  }
}
