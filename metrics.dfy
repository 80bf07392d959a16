/**
 * `BacktestEngine._calculate_metrics`: counts, win rates, totals, averages,
 * profit factor, maximum drawdown of the equity curve, commission and period.
 */
module Metrics {
  import opened Common
  import opened Bars
  import opened Trades

  /** One entry of the engine's equity history. */
  datatype EquitySample = EquitySample(timestamp: int, balance: real, equity: real)

  /** The engine's result record; Sharpe ratio and the description text are not modelled. */
  datatype BacktestResult = BacktestResult(
    strategyName: string,
    symbol: string,
    trades: seq<Trade>,
    equityCurve: Option<seq<(int, real)>>,
    totalTrades: nat,
    longTrades: nat,
    shortTrades: nat,
    winningTrades: nat,
    losingTrades: nat,
    winRate: real,
    longWinRate: real,
    shortWinRate: real,
    totalReturn: real,
    totalReturnPct: real,
    maxDrawdown: real,
    maxDrawdownPct: real,
    profitFactor: real,
    avgWin: real,
    avgLoss: real,
    avgTrade: real,
    avgWinPct: real,
    avgLossPct: real,
    totalCommission: real,
    startDate: Option<int>,
    endDate: Option<int>,
    durationDays: int)

  /** The dataclass defaults: everything zero, no curve, no dates. */
  function Empty(name: string, symbol: string, trades: seq<Trade>): BacktestResult
  {
    BacktestResult(name, symbol, trades, None, 0, 0, 0, 0, 0, 0.0, 0.0, 0.0, 0.0, 0.0,
                   0.0, 0.0, 0.0, 0.0, 0.0, 0.0, 0.0, 0.0, 0.0, None, None, 0)
  }

  // ---------------------------------------------------------------- filters and sums

  function Wins(ts: seq<Trade>): (r: seq<Trade>)
    ensures |r| <= |ts|
  {
    if ts == [] then [] else Wins(ts[..|ts| - 1]) + (if ts[|ts| - 1].pnl > 0.0 then [ts[|ts| - 1]] else [])
  }

  function Losses(ts: seq<Trade>): (r: seq<Trade>)
    ensures |r| <= |ts|
  {
    if ts == [] then [] else Losses(ts[..|ts| - 1]) + (if ts[|ts| - 1].pnl <= 0.0 then [ts[|ts| - 1]] else [])
  }

  function OfSide(ts: seq<Trade>, side: Side): (r: seq<Trade>)
    ensures |r| <= |ts|
  {
    if ts == [] then [] else OfSide(ts[..|ts| - 1], side) + (if ts[|ts| - 1].side == side then [ts[|ts| - 1]] else [])
  }

  function SumPnl(ts: seq<Trade>): real
  {
    if ts == [] then 0.0 else SumPnl(ts[..|ts| - 1]) + ts[|ts| - 1].pnl
  }

  function SumPnlPct(ts: seq<Trade>): real
  {
    if ts == [] then 0.0 else SumPnlPct(ts[..|ts| - 1]) + ts[|ts| - 1].pnlPct
  }

  function SumCommission(ts: seq<Trade>): real
  {
    if ts == [] then 0.0 else SumCommission(ts[..|ts| - 1]) + ts[|ts| - 1].commission
  }

  /** `num / den if den > 0 else 0`. */
  function Rate(num: nat, den: nat): (r: real)
    ensures den == 0 ==> r == 0.0
    ensures num <= den ==> 0.0 <= r <= 1.0
    ensures den > 0 ==> r * den as real == num as real
  {
    if den > 0 then num as real / den as real else 0.0
  }

  /** `np.mean(xs) if xs else 0`, on PnL or PnL pct. */
  function MeanPnl(ts: seq<Trade>): (r: real)
    ensures ts != [] ==> r * |ts| as real == SumPnl(ts)
  {
    if ts == [] then 0.0 else SumPnl(ts) / |ts| as real
  }

  function MeanPnlPct(ts: seq<Trade>): (r: real)
    ensures ts != [] ==> r * |ts| as real == SumPnlPct(ts)
  {
    if ts == [] then 0.0 else SumPnlPct(ts) / |ts| as real
  }

  /** Gross profit over the absolute gross loss; gross loss is 1 with no losing trade and 0 gives 0. */
  function ProfitFactor(ts: seq<Trade>): real
  {
    var wins, losses := Wins(ts), Losses(ts);
    var grossProfit := if wins != [] then SumPnl(wins) else 0.0;
    var grossLoss := if losses != [] then Abs(SumPnl(losses)) else 1.0;
    GuardedRatio(grossProfit, grossLoss)
  }

  /** `a / b if b > 0 else 0`. */
  function GuardedRatio(a: real, b: real): (r: real)
    ensures b > 0.0 ==> r * b == a
    ensures b <= 0.0 ==> r == 0.0
    ensures a >= 0.0 ==> r >= 0.0
  {
    if b > 0.0 then a / b else 0.0
  }

  // ---------------------------------------------------------------- drawdown

  function Max(a: real, b: real): real { if a >= b then a else b }

  /** `equity.expanding().max()` at index k. */
  function PeakAt(eqs: seq<real>, k: nat): (r: real)
    requires k < |eqs|
    ensures r >= eqs[k]
    ensures forall j :: 0 <= j <= k ==> eqs[j] <= r
    ensures exists j :: 0 <= j <= k && eqs[j] == r
  {
    if k == 0 then eqs[0] else Max(PeakAt(eqs, k - 1), eqs[k])
  }

  /**
   * `(equity - peak) / peak` at index k. A zero peak (the float code divides
   * by zero there) contributes 0.
   */
  function DrawdownAt(eqs: seq<real>, k: nat): real
    requires k < |eqs|
  {
    var peak := PeakAt(eqs, k);
    if peak == 0.0 then 0.0 else (eqs[k] - peak) / peak
  }

  /** `drawdown.min()` over the first n samples. */
  function MinDrawdown(eqs: seq<real>, n: nat): (r: real)
    requires 0 < n <= |eqs|
  {
    if n == 1 then DrawdownAt(eqs, 0)
    else var m := MinDrawdown(eqs, n - 1); var d := DrawdownAt(eqs, n - 1); if d < m then d else m
  }

  /** `abs(drawdown.min())` over the whole curve. */
  function MaxDrawdownPct(eqs: seq<real>): (r: real)
    requires |eqs| > 0
    ensures r >= 0.0
  {
    Abs(MinDrawdown(eqs, |eqs|))
  }

  lemma {:induction false} MinDrawdownBounds(eqs: seq<real>, n: nat)
    requires 0 < n <= |eqs|
    ensures MinDrawdown(eqs, n) <= 0.0
    ensures forall k :: 0 <= k < n ==> MinDrawdown(eqs, n) <= DrawdownAt(eqs, k)
    ensures exists k :: 0 <= k < n && MinDrawdown(eqs, n) == DrawdownAt(eqs, k)
  {
    if n > 1 {
      MinDrawdownBounds(eqs, n - 1);
    }
  }

  /** A fall below a positive peak is less than the whole peak. */
  lemma FallBelowPositivePeak(e: real, p: real)
    requires 0.0 < e <= p
    ensures -1.0 < (e - p) / p <= 0.0
  {
  }

  /**
   * The maximum drawdown bounds every fall `(peak - equity) / peak` below the
   * running peak (for nonzero peaks), and is the fall at some sample.
   */
  lemma MaxDrawdownIsLargestFall(eqs: seq<real>)
    requires |eqs| > 0
    ensures forall k :: 0 <= k < |eqs| ==> -DrawdownAt(eqs, k) <= MaxDrawdownPct(eqs)
    ensures exists k :: 0 <= k < |eqs| && MaxDrawdownPct(eqs) == -DrawdownAt(eqs, k)
  {
    MinDrawdownBounds(eqs, |eqs|);
  }

  /** On a positive equity curve the maximum drawdown is below 1 (the equity never reaches 0). */
  lemma MaxDrawdownBelowOne(eqs: seq<real>)
    requires |eqs| > 0
    requires forall k :: 0 <= k < |eqs| ==> eqs[k] > 0.0
    ensures MaxDrawdownPct(eqs) < 1.0
  {
    MaxDrawdownIsLargestFall(eqs);
    var k :| 0 <= k < |eqs| && MaxDrawdownPct(eqs) == -DrawdownAt(eqs, k);
    FallBelowPositivePeak(eqs[k], PeakAt(eqs, k));
  }

  // ---------------------------------------------------------------- the result

  /** The equity column of the history. */
  function EquityOf(history: seq<EquitySample>): (curve: seq<real>)
    ensures |curve| == |history|
    ensures forall k :: 0 <= k < |history| ==> curve[k] == history[k].equity
  {
    seq(|history|, k requires 0 <= k < |history| => history[k].equity)
  }

  /** The equity column indexed by the timestamp column: one (time, equity) point per sample, in order. */
  function CurveOf(history: seq<EquitySample>): (points: seq<(int, real)>)
    ensures |points| == |history|
    ensures forall k :: 0 <= k < |history| ==> points[k] == (history[k].timestamp, history[k].equity)
  {
    seq(|history|, k requires 0 <= k < |history| => (history[k].timestamp, history[k].equity))
  }


  const MillisPerDay: int := 86400000

  /** The amount that is the fraction `x` of `k`: `x * k`. */
  function Scale(x: real, k: real): real
  {
    x * k
  }

  /** `abs(drawdown.min())` of the equity history, left at its default 0 without one. */
  function DrawdownPctOf(history: seq<EquitySample>): (pct: real)
    ensures pct >= 0.0
    ensures history == [] ==> pct == 0.0
  {
    if history != [] then MaxDrawdownPct(EquityOf(history)) else 0.0
  }

  /**
   * `_calculate_metrics`. `bars` is the frame the run walked (its first and last
   * timestamps give the period); timestamps are milliseconds.
   */
  function Calculate(cfg: EngineConfig, name: string, symbol: string, trades: seq<Trade>,
                     history: seq<EquitySample>, bars: seq<Bar>): (r: BacktestResult)
    requires trades != [] ==> cfg.initialBalance != 0.0 && |bars| > 0
    ensures trades == [] ==> r == Empty(name, symbol, trades)
    ensures r.trades == trades && r.totalTrades == |trades|
  {
    if trades == [] then Empty(name, symbol, trades)
    else
      var total := |trades|;
      var longs, shorts := OfSide(trades, Long), OfSide(trades, Short);
      var wins, losses := Wins(trades), Losses(trades);
      var totalPnl := SumPnl(trades);
      var ddPct := DrawdownPctOf(history);
      var start, end := bars[0].timestamp, bars[|bars| - 1].timestamp;
      BacktestResult(
        name, symbol, trades,
        if history != [] then Some(CurveOf(history)) else None,
        total, |longs|, |shorts|, |wins|, |losses|,
        Rate(|wins|, total), Rate(|Wins(longs)|, |longs|), Rate(|Wins(shorts)|, |shorts|),
        totalPnl, totalPnl / cfg.initialBalance,
        Scale(ddPct, cfg.initialBalance), ddPct,
        ProfitFactor(trades),
        MeanPnl(wins), MeanPnl(losses), MeanPnl(trades),
        MeanPnlPct(wins), MeanPnlPct(losses),
        SumCommission(trades),
        Some(start), Some(end), (end - start) / MillisPerDay)
  }

  // ---------------------------------------------------------------- properties

  lemma {:induction false} WinsLossesPartition(ts: seq<Trade>)
    ensures |Wins(ts)| + |Losses(ts)| == |ts|
    ensures SumPnl(Wins(ts)) + SumPnl(Losses(ts)) == SumPnl(ts)
  {
    if ts != [] {
      var init, t := ts[..|ts| - 1], ts[|ts| - 1];
      WinsLossesPartition(init);
      SumPnlAppend(Wins(init), if t.pnl > 0.0 then [t] else []);
      SumPnlAppend(Losses(init), if t.pnl <= 0.0 then [t] else []);
    }
  }

  lemma {:induction false} SidesPartition(ts: seq<Trade>)
    ensures |OfSide(ts, Long)| + |OfSide(ts, Short)| == |ts|
  {
    if ts != [] {
      SidesPartition(ts[..|ts| - 1]);
    }
  }

  lemma {:induction false} SumPnlAppend(a: seq<Trade>, b: seq<Trade>)
    ensures SumPnl(a + b) == SumPnl(a) + SumPnl(b)
    decreases |b|
  {
    if b != [] {
      assert (a + b)[..|a + b| - 1] == a + b[..|b| - 1];
      SumPnlAppend(a, b[..|b| - 1]);
    } else {
      assert a + b == a;
    }
  }

  /** Winning trades sum to a positive profit, losing ones to a non-positive one. */
  lemma {:induction false} SumSigns(ts: seq<Trade>)
    ensures SumPnl(Wins(ts)) >= 0.0 && (Wins(ts) != [] ==> SumPnl(Wins(ts)) > 0.0)
    ensures SumPnl(Losses(ts)) <= 0.0
  {
    if ts != [] {
      var init, t := ts[..|ts| - 1], ts[|ts| - 1];
      SumSigns(init);
      SumPnlAppend(Wins(init), if t.pnl > 0.0 then [t] else []);
      SumPnlAppend(Losses(init), if t.pnl <= 0.0 then [t] else []);
    }
  }

  /**
   * The counts and win rates of the statistics: wins, losses, longs and
   * shorts are the sizes of those filters of the trades, wins and losses
   * partition the trades and so do longs and shorts, and each win rate is
   * the share of wins among its trades, a fraction, 0 without trades.
   */
  lemma CountsPartition(cfg: EngineConfig, name: string, symbol: string, trades: seq<Trade>,
                        history: seq<EquitySample>, bars: seq<Bar>)
    requires trades != [] ==> cfg.initialBalance != 0.0 && |bars| > 0
    ensures var r := Calculate(cfg, name, symbol, trades, history, bars);
      && r.winningTrades == |Wins(trades)| && r.losingTrades == |Losses(trades)|
      && r.longTrades == |OfSide(trades, Long)| && r.shortTrades == |OfSide(trades, Short)|
      && r.winningTrades + r.losingTrades == r.totalTrades
      && r.longTrades + r.shortTrades == r.totalTrades
      && r.winRate == Rate(|Wins(trades)|, |trades|)
      && r.longWinRate == Rate(|Wins(OfSide(trades, Long))|, |OfSide(trades, Long)|)
      && r.shortWinRate == Rate(|Wins(OfSide(trades, Short))|, |OfSide(trades, Short)|)
      && 0.0 <= r.winRate <= 1.0 && 0.0 <= r.longWinRate <= 1.0 && 0.0 <= r.shortWinRate <= 1.0
      && r.totalReturn == SumPnl(trades)
      && (r.longTrades == 0 ==> r.longWinRate == 0.0) && (r.shortTrades == 0 ==> r.shortWinRate == 0.0)
  {
    WinsLossesPartition(trades);
    SidesPartition(trades);
  }

  /**
   * The figures of a non-empty run: the win rate is the share of winning
   * trades, the return percentage is the PnL over the initial balance, the
   * profit factor and the averages are those of the trades, of the winning
   * trades and of the losing trades, and the commission is the summed one.
   */
  lemma CalculateFigures(cfg: EngineConfig, name: string, symbol: string, trades: seq<Trade>,
                         history: seq<EquitySample>, bars: seq<Bar>)
    requires trades != [] && cfg.initialBalance != 0.0 && |bars| > 0
    ensures var r := Calculate(cfg, name, symbol, trades, history, bars);
      && r.winRate == Rate(|Wins(trades)|, |trades|)
      && r.totalReturnPct == SumPnl(trades) / cfg.initialBalance
      && r.profitFactor == ProfitFactor(trades)
      && r.avgTrade == MeanPnl(trades)
      && r.avgWin == MeanPnl(Wins(trades)) && r.avgLoss == MeanPnl(Losses(trades))
      && r.avgWinPct == MeanPnlPct(Wins(trades)) && r.avgLossPct == MeanPnlPct(Losses(trades))
      && r.totalCommission == SumCommission(trades)
  {
  }

  /**
   * The period of a non-empty run: from the first bar's time to the last
   * bar's, and its length in whole days.
   */
  lemma CalculatePeriod(cfg: EngineConfig, name: string, symbol: string, trades: seq<Trade>,
                        history: seq<EquitySample>, bars: seq<Bar>)
    requires trades != [] && cfg.initialBalance != 0.0 && |bars| > 0
    ensures var r := Calculate(cfg, name, symbol, trades, history, bars);
      && r.startDate == Some(bars[0].timestamp)
      && r.endDate == Some(bars[|bars| - 1].timestamp)
      && r.durationDays == (bars[|bars| - 1].timestamp - bars[0].timestamp) / MillisPerDay
  {
  }

  /**
   * The drawdown of a non-empty run is that of the equity history (0 without
   * one), as a fraction and in money, and the equity curve, the equity
   * column indexed by time, is reported exactly when there is a history.
   */
  lemma CalculateDrawdown(cfg: EngineConfig, name: string, symbol: string, trades: seq<Trade>,
                         history: seq<EquitySample>, bars: seq<Bar>)
    requires trades != [] && cfg.initialBalance != 0.0 && |bars| > 0
    ensures var r := Calculate(cfg, name, symbol, trades, history, bars);
      var curve := EquityOf(history);
      && r.maxDrawdownPct == (if history != [] then MaxDrawdownPct(curve) else 0.0)
      && r.maxDrawdown == Scale(r.maxDrawdownPct, cfg.initialBalance)
      && r.equityCurve == (if history != [] then Some(CurveOf(history)) else None)
  {
  }

  /**
   * Profit factor is never negative; with no losing trade it is the gross profit
   * itself, and it is 0 when the losing trades sum to exactly 0.
   */
  lemma ProfitFactorCases(ts: seq<Trade>)
    ensures ProfitFactor(ts) >= 0.0
    ensures Losses(ts) == [] ==> ProfitFactor(ts) == SumPnl(Wins(ts))
    ensures Losses(ts) != [] && SumPnl(Losses(ts)) == 0.0 ==> ProfitFactor(ts) == 0.0
    ensures Losses(ts) != [] && SumPnl(Losses(ts)) != 0.0 ==>
      ProfitFactor(ts) == SumPnl(Wins(ts)) / -SumPnl(Losses(ts))
  {
    SumSigns(ts);
    var wins, losses := Wins(ts), Losses(ts);
    var gp, sl := SumPnl(wins), SumPnl(losses);
    assert wins == [] ==> gp == 0.0;
    assert ProfitFactor(ts) == GuardedRatio(gp, if losses != [] then Abs(sl) else 1.0);
    RatioCases(gp, sl, losses != []);
  }

  /** The guarded ratio of a non-negative profit over a non-positive loss, case by case. */
  lemma RatioCases(gp: real, sl: real, hasLosses: bool)
    requires gp >= 0.0 && sl <= 0.0
    ensures var r := GuardedRatio(gp, if hasLosses then Abs(sl) else 1.0);
      && r >= 0.0
      && (!hasLosses ==> r == gp)
      && (hasLosses && sl == 0.0 ==> r == 0.0)
      && (hasLosses && sl != 0.0 ==> r == gp / -sl)
  {
    if hasLosses && sl != 0.0 {
      assert Abs(sl) == -sl;
    }
  }
}
