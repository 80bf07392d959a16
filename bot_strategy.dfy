/**
 * The live bot's strategy (`OptionAStrategy`): option A's four conditions with
 * the thresholds taken from the configuration. Indicator computation is an
 * external library; the model receives it as a function from candles to rows,
 * where `None` marks a row with a missing value (dropped by `dropna`).
 */
module BotStrategy {
  import opened Common
  import opened Bars
  import opened Config

  datatype SignalType = LongSignal | ShortSignal | NoSignal

  datatype BotSignal = BotSignal(
    kind: SignalType,
    entryPrice: Price,
    takeProfit: real,
    stopLoss: real,
    reasons: seq<Reason>,
    atr: real)

  /** Closed candles the realtime check needs before it evaluates anything. */
  const RealtimeMinCandles: nat := 200

  /** `df.dropna()`: the complete rows, in order. */
  function DropNa(rows: seq<Option<Bar>>): (r: seq<Bar>)
    ensures |r| <= |rows|
    ensures forall b :: b in r <==> Some(b) in rows
  {
    if rows == [] then []
    else
      var init := DropNa(rows[..|rows| - 1]);
      assert rows == rows[..|rows| - 1] + [rows[|rows| - 1]];
      match rows[|rows| - 1]
      case None => init
      case Some(b) => init + [b]
  }

  /**
   * `dropna` works row by row: a missing row disappears, a complete row stays,
   * and the result over two stretches is the two results in order.
   */
  lemma {:induction false} DropNaAppend(a: seq<Option<Bar>>, b: seq<Option<Bar>>)
    ensures DropNa([]) == [] && DropNa([None]) == []
    ensures forall bar :: DropNa([Some(bar)]) == [bar]
    ensures DropNa(a + b) == DropNa(a) + DropNa(b)
  {
    var none: seq<Option<Bar>> := [None];
    assert none[..0] == [];
    forall bar: Bar ensures DropNa([Some(bar)]) == [bar] {
      assert [Some(bar)][..0] == [];
    }
    if b != [] {
      var init := b[..|b| - 1];
      DropNaAppend(a, init);
      assert (a + b)[..|a + b| - 1] == a + init;
      assert (a + b)[|a + b| - 1] == b[|b| - 1];
    } else {
      assert a + b == a;
    }
  }

  function Last(rows: seq<Bar>): Bar
    requires |rows| >= 1
  {
    rows[|rows| - 1]
  }

  function Prev(rows: seq<Bar>): Bar
    requires |rows| >= 2
  {
    rows[|rows| - 2]
  }

  /** `check_long_entry`: `None` below two rows; otherwise all four configured conditions. */
  function CheckLongEntry(cfg: TradingConfig, rows: seq<Bar>): (r: Option<BotSignal>)
    ensures |rows| < 2 ==> r.None?
    ensures r.Some? ==> r.value.kind == LongSignal && r.value.entryPrice == Last(rows).close
    ensures r.Some? ==> r.value.atr == Last(rows).atr
  {
    if |rows| < 2 then None
    else
      var last, prev := Last(rows), Prev(rows);
      var condRsi := last.rsi < cfg.longRsiOversold && last.rsi > prev.rsi;
      var condStoch := GoldenCross(last, prev);
      var condBbTouch := last.low <= last.bbLower * cfg.longBbTouchMult;
      var condBbBounce := last.close > last.bbLower;
      var condVolume := last.volume > last.volumeMa * cfg.longVolumeMult;
      var reasons :=
        (if condRsi then [RsiOversoldBounce(last.rsi)] else [])
        + (if condStoch then [StochGoldenCross(last.stochK)] else [])
        + (if condBbTouch && condBbBounce then [BbLowerBounce] else [])
        + (if condVolume then [VolumeSurge(last.volume, last.volumeMa)] else []);
      if condRsi && condStoch && (condBbTouch && condBbBounce) && condVolume then
        var entry := last.close;
        Some(BotSignal(LongSignal, entry, entry * (1.0 + cfg.tpPct), entry - last.atr * cfg.slAtrMult, reasons, last.atr))
      else
        None
  }

  /** `check_short_entry`: the mirror image; the volume test reuses the long multiplier. */
  function CheckShortEntry(cfg: TradingConfig, rows: seq<Bar>): (r: Option<BotSignal>)
    ensures |rows| < 2 ==> r.None?
    ensures r.Some? ==> r.value.kind == ShortSignal && r.value.entryPrice == Last(rows).close
    ensures r.Some? ==> r.value.atr == Last(rows).atr
  {
    if |rows| < 2 then None
    else
      var last, prev := Last(rows), Prev(rows);
      var condRsi := last.rsi > cfg.shortRsiOverbought && last.rsi < prev.rsi;
      var condStoch := DeadCross(last, prev);
      var condBbTouch := last.high >= last.bbUpper * cfg.shortBbTouchMult;
      var condBbBounce := last.close < last.bbUpper;
      var condVolume := last.volume > last.volumeMa * cfg.longVolumeMult;
      var reasons :=
        (if condRsi then [RsiOverboughtDrop(last.rsi)] else [])
        + (if condStoch then [StochDeadCross(last.stochK)] else [])
        + (if condBbTouch && condBbBounce then [BbUpperPullback] else [])
        + (if condVolume then [VolumeSurge(last.volume, last.volumeMa)] else []);
      if condRsi && condStoch && (condBbTouch && condBbBounce) && condVolume then
        var entry := last.close;
        Some(BotSignal(ShortSignal, entry, entry * (1.0 - cfg.tpPct), entry + last.atr * cfg.slAtrMult, reasons, last.atr))
      else
        None
  }

  /**
   * The long entry fires exactly when its four configured conditions hold on
   * the last two rows, and then carries the configured take-profit and stop.
   */
  lemma LongEntryFiresIff(cfg: TradingConfig, rows: seq<Bar>)
    requires |rows| >= 2
    ensures CheckLongEntry(cfg, rows).Some? <==>
      && Last(rows).rsi < cfg.longRsiOversold && Last(rows).rsi > Prev(rows).rsi
      && GoldenCross(Last(rows), Prev(rows))
      && Last(rows).low <= Last(rows).bbLower * cfg.longBbTouchMult && Last(rows).close > Last(rows).bbLower
      && Last(rows).volume > Last(rows).volumeMa * cfg.longVolumeMult
    ensures CheckLongEntry(cfg, rows).Some? ==>
      var s := CheckLongEntry(cfg, rows).value;
      && s.takeProfit == s.entryPrice * (1.0 + cfg.tpPct)
      && s.stopLoss == s.entryPrice - Last(rows).atr * cfg.slAtrMult
      && s.reasons == [RsiOversoldBounce(Last(rows).rsi), StochGoldenCross(Last(rows).stochK),
                       BbLowerBounce, VolumeSurge(Last(rows).volume, Last(rows).volumeMa)]
  {
  }

  /** The short entry fires exactly when its four mirrored conditions hold. */
  lemma ShortEntryFiresIff(cfg: TradingConfig, rows: seq<Bar>)
    requires |rows| >= 2
    ensures CheckShortEntry(cfg, rows).Some? <==>
      && Last(rows).rsi > cfg.shortRsiOverbought && Last(rows).rsi < Prev(rows).rsi
      && DeadCross(Last(rows), Prev(rows))
      && Last(rows).high >= Last(rows).bbUpper * cfg.shortBbTouchMult && Last(rows).close < Last(rows).bbUpper
      && Last(rows).volume > Last(rows).volumeMa * cfg.longVolumeMult
    ensures CheckShortEntry(cfg, rows).Some? ==>
      var s := CheckShortEntry(cfg, rows).value;
      && s.takeProfit == s.entryPrice * (1.0 - cfg.tpPct)
      && s.stopLoss == s.entryPrice + Last(rows).atr * cfg.slAtrMult
      && s.reasons == [RsiOverboughtDrop(Last(rows).rsi), StochDeadCross(Last(rows).stochK),
                       BbUpperPullback, VolumeSurge(Last(rows).volume, Last(rows).volumeMa)]
  {
  }

  /**
   * The decision `check_signal` takes on the complete rows: nothing with
   * fewer than two, else the long entry, and the short entry only when no
   * long fired.
   */
  function SignalOnRows(cfg: TradingConfig, rows: seq<Bar>): (r: Option<BotSignal>)
    ensures |rows| < 2 ==> r.None?
    ensures r.Some? ==> r.value.entryPrice == Last(rows).close
  {
    if |rows| < 2 then None
    else
      var long := CheckLongEntry(cfg, rows);
      if long.Some? then long else CheckShortEntry(cfg, rows)
  }

  /**
   * `check_signal`: indicators over the candles, incomplete rows dropped, then
   * the decision on what is left.
   */
  function CheckSignal(cfg: TradingConfig, candles: seq<Candle>, indicators: seq<Candle> -> seq<Option<Bar>>): (r: Option<BotSignal>)
    ensures |DropNa(indicators(candles))| < 2 ==> r.None?
    ensures r.Some? ==> r.value.entryPrice == Last(DropNa(indicators(candles))).close
  {
    SignalOnRows(cfg, DropNa(indicators(candles)))
  }

  /**
   * The long side has priority; when the configured RSI gates do not overlap
   * (as with the defaults 35 and 65) the two sides can never both fire, so the
   * priority never decides anything.
   */
  lemma SignalPriority(cfg: TradingConfig, candles: seq<Candle>, indicators: seq<Candle> -> seq<Option<Bar>>)
    ensures var rows := DropNa(indicators(candles));
      && (CheckLongEntry(cfg, rows).Some? ==> CheckSignal(cfg, candles, indicators) == CheckLongEntry(cfg, rows))
      && (CheckLongEntry(cfg, rows).None? ==> CheckSignal(cfg, candles, indicators) == CheckShortEntry(cfg, rows))
      && (cfg.longRsiOversold <= cfg.shortRsiOverbought ==>
            !(CheckLongEntry(cfg, rows).Some? && CheckShortEntry(cfg, rows).Some?))
  {
  }

  /**
   * `check_signal_realtime` on a frame of plain candles: `None` with fewer
   * than 200 closed candles; otherwise the ordinary check with the
   * in-progress candle appended last. This is what the method promises; the
   * live bot calls it on a frame where the appended row is lost (see
   * `CheckSignalRealtimeOnBuffer`).
   */
  function CheckSignalRealtime(cfg: TradingConfig, closed: seq<Candle>, current: Candle,
                               indicators: seq<Candle> -> seq<Option<Bar>>): (r: Option<BotSignal>)
    ensures |closed| < RealtimeMinCandles ==> r.None?
    ensures |closed| >= RealtimeMinCandles ==> r == CheckSignal(cfg, closed + [current], indicators)
  {
    if |closed| < RealtimeMinCandles then None
    else CheckSignal(cfg, closed + [current], indicators)
  }

  /**
   * The rows of a frame whose last row lacks a column every other row has:
   * pandas fills the gap with NaN, so that row counts as incomplete.
   */
  function LastRowIncomplete(rows: seq<Option<Bar>>): (r: seq<Option<Bar>>)
    ensures |r| == |rows|
    ensures forall k :: 0 <= k < |rows| - 1 ==> r[k] == rows[k]
    ensures rows != [] ==> r[|rows| - 1].None?
  {
    if rows == [] then [] else rows[..|rows| - 1] + [None]
  }

  /**
   * `check_signal_realtime` as the live bot reaches it: the frame is built
   * from the kline buffer, whose rows all carry `is_closed`, while the row
   * appended for the in-progress candle does not. That row is therefore
   * incomplete and `dropna` removes it before the decision.
   */
  function CheckSignalRealtimeOnBuffer(cfg: TradingConfig, closed: seq<Candle>, current: Candle,
                                       indicators: seq<Candle> -> seq<Option<Bar>>): (r: Option<BotSignal>)
    ensures |closed| < RealtimeMinCandles ==> r.None?
  {
    if |closed| < RealtimeMinCandles then None
    else SignalOnRows(cfg, DropNa(LastRowIncomplete(indicators(closed + [current]))))
  }

  /**
   * On the kline buffer the in-progress candle never reaches the decision:
   * with indicators that keep one row per candle, the result is the
   * decision on the closed candles' rows alone, and when those rows do not
   * depend on the later candle (as with trailing rolling windows) it is
   * exactly the ordinary check on the closed candles.
   */
  lemma {:induction false} BufferRealtimeDecidesOnClosed(cfg: TradingConfig, closed: seq<Candle>, current: Candle,
                                                         indicators: seq<Candle> -> seq<Option<Bar>>)
    requires |indicators(closed + [current])| == |closed| + 1
    ensures |closed| >= RealtimeMinCandles ==>
      CheckSignalRealtimeOnBuffer(cfg, closed, current, indicators)
        == SignalOnRows(cfg, DropNa(indicators(closed + [current])[..|closed|]))
    ensures |closed| >= RealtimeMinCandles && indicators(closed + [current])[..|closed|] == indicators(closed) ==>
      CheckSignalRealtimeOnBuffer(cfg, closed, current, indicators) == CheckSignal(cfg, closed, indicators)
  {
    var rows := indicators(closed + [current]);
    var none: seq<Option<Bar>> := [None];
    assert LastRowIncomplete(rows) == rows[..|closed|] + none;
    DropNaAppend(rows[..|closed|], none);
  }

  datatype Trend = Up | Down

  /** The derived view `get_market_context` reports. */
  datatype MarketContext = MarketContext(
    price: Price,
    rsi: real,
    stochK: real,
    stochD: real,
    bbUpper: real,
    bbMiddle: real,
    bbLower: real,
    atr: real,
    volumeRatio: real,
    trend: Trend)

  /** `get_market_context`: the last complete row's view, or `None` (the empty dict) without one. */
  function GetMarketContext(candles: seq<Candle>, indicators: seq<Candle> -> seq<Option<Bar>>): (r: Option<MarketContext>)
    ensures r.None? <==> DropNa(indicators(candles)) == []
    ensures r.Some? ==>
      var last := Last(DropNa(indicators(candles)));
      && r.value.price == last.close
      && r.value.rsi == last.rsi && r.value.stochK == last.stochK && r.value.stochD == last.stochD
      && r.value.bbUpper == last.bbUpper && r.value.bbMiddle == last.bbMiddle && r.value.bbLower == last.bbLower
      && r.value.atr == last.atr
      && (r.value.trend == Up <==> last.emaFast > last.emaSlow)
      && (last.volumeMa <= 0.0 ==> r.value.volumeRatio == 0.0)
      && (last.volumeMa > 0.0 ==> r.value.volumeRatio * last.volumeMa == last.volume)
  {
    var rows := DropNa(indicators(candles));
    if |rows| < 1 then None
    else
      var last := Last(rows);
      Some(MarketContext(
        last.close, last.rsi, last.stochK, last.stochD, last.bbUpper, last.bbMiddle, last.bbLower, last.atr,
        if last.volumeMa > 0.0 then last.volume / last.volumeMa else 0.0,
        if last.emaFast > last.emaSlow then Up else Down))
  }
}
