/**
 * The take-profit / stop-loss sweep: a one-position simulation of the live
 * strategy over indicator rows, run once per (take-profit %, stop-loss ATR
 * multiple) pair, and the ranking of the results.
 *
 * The simulation holds at most one position, sizes nothing (PnL is scaled
 * from the balance and the risk setting), and records a position still open
 * at the end as a zero-PnL "END" trade without touching the balance.
 */
module Combinations {
  import opened Common
  import opened Bars
  import opened Config
  import opened BotStrategy
  import Drawdown
  import PnlStats

  /** Rows of history before the first simulated bar, and the strategy's window length. */
  const Lookback: nat := 300

  /** The starting balance `simulate` uses when none is given. */
  const DefaultInitialBalance: real := 10000.0

  datatype Outcome = TakeProfit | StopLoss | EndOfData

  /** The one open position: direction, entry price, and the two exit levels. */
  datatype Position = Position(side: Side, entry: Price, tp: real, sl: real)

  /** A trade record: PnL, leveraged return in percent, and why it closed. */
  datatype ClosedTrade = ClosedTrade(pnl: real, pnlPct: real, reason: Outcome)

  /** The loop variables of `simulate`. */
  datatype SimVars = SimVars(balance: real, position: Option<Position>, trades: seq<ClosedTrade>, equityCurve: seq<real>)

  /** The dictionary `simulate` returns. */
  datatype SimResult = SimResult(
    totalReturn: real,
    totalTrades: nat,
    winRate: real,
    avgWin: real,
    avgLoss: real,
    maxDrawdown: real,
    profitFactor: real,
    finalBalance: real)

  function SideOf(kind: SignalType): Side
  {
    if kind == LongSignal then Long else Short
  }

  /** A row's price columns; the strategy recomputes the indicator columns itself. */
  function CandleOf(b: Bar): Candle
  {
    Candle(b.timestamp, b.open, b.high, b.low, b.close, b.volume, true)
  }

  /** The 300 rows ending with row i, handed to the strategy. */
  function Window(rows: seq<Bar>, i: nat): (w: seq<Candle>)
    requires Lookback <= i < |rows|
    ensures |w| == Lookback
    ensures forall k :: 0 <= k < Lookback ==> w[k] == CandleOf(rows[i + 1 - Lookback + k])
  {
    seq(Lookback, k requires 0 <= k < Lookback => CandleOf(rows[i + 1 - Lookback + k]))
  }

  // ---------------------------------------------------------------- exits and PnL

  predicate TpReached(pos: Position, bar: Bar)
  {
    if pos.side == Long then bar.high >= pos.tp else bar.low <= pos.tp
  }

  predicate SlReached(pos: Position, bar: Bar)
  {
    if pos.side == Long then bar.low <= pos.sl else bar.high >= pos.sl
  }

  /** The exit price and reason on this bar: take-profit first, then stop-loss. */
  function CheckExit(pos: Position, bar: Bar): (r: Option<(real, Outcome)>)
    ensures r.Some? <==> TpReached(pos, bar) || SlReached(pos, bar)
    ensures TpReached(pos, bar) ==> r == Some((pos.tp, TakeProfit))
    ensures !TpReached(pos, bar) && SlReached(pos, bar) ==> r == Some((pos.sl, StopLoss))
  {
    if pos.side == Long then
      if bar.high >= pos.tp then Some((pos.tp, TakeProfit))
      else if bar.low <= pos.sl then Some((pos.sl, StopLoss))
      else None
    else
      if bar.low <= pos.tp then Some((pos.tp, TakeProfit))
      else if bar.high >= pos.sl then Some((pos.sl, StopLoss))
      else None
  }

  /** The move from entry to `price` in the position's favour. */
  function Gain(pos: Position, price: real): real
  {
    if pos.side == Long then price - pos.entry else pos.entry - price
  }

  /** The leveraged return of an exit at `price`, as a fraction of the entry price. */
  function LeveragedReturn(cfg: TradingConfig, pos: Position, price: real): (r: real)
    ensures r * pos.entry == Gain(pos, price) * cfg.leverage as real
  {
    Gain(pos, price) / pos.entry * cfg.leverage as real
  }

  /**
   * The PnL booked on an exit: the risk amount scaled by the leveraged return
   * over 2%, less a fee of 0.08% of the entry price.
   */
  function ExitPnl(cfg: TradingConfig, balance: real, pos: Position, price: real): (pnl: real)
    ensures (pnl + pos.entry * 0.0008) * 0.02 == balance * cfg.riskPerTrade * LeveragedReturn(cfg, pos, price)
  {
    balance * cfg.riskPerTrade * (LeveragedReturn(cfg, pos, price) / 0.02) - pos.entry * 0.0008
  }

  /**
   * With a positive risk amount and leverage, the PnL before the fee has the
   * sign of the price move: a gain books more than the fee's loss, a loss less.
   */
  lemma ExitPnlSign(cfg: TradingConfig, balance: real, pos: Position, price: real)
    requires balance * cfg.riskPerTrade > 0.0 && cfg.leverage > 0
    ensures var pnl := ExitPnl(cfg, balance, pos, price);
      && (Gain(pos, price) > 0.0 <==> pnl + pos.entry * 0.0008 > 0.0)
      && (Gain(pos, price) == 0.0 <==> pnl + pos.entry * 0.0008 == 0.0)
  {
    var lr := LeveragedReturn(cfg, pos, price);
    var g := Gain(pos, price);
    assert lr * pos.entry == g * cfg.leverage as real;
    assert g > 0.0 <==> lr > 0.0 by {
      if g > 0.0 { assert g * cfg.leverage as real > 0.0; }
      if lr > 0.0 { assert lr * pos.entry > 0.0; }
    }
    assert g == 0.0 <==> lr == 0.0 by {
      if lr == 0.0 { assert g * cfg.leverage as real == 0.0; }
    }
    var pnl := ExitPnl(cfg, balance, pos, price);
    var k := balance * cfg.riskPerTrade;
    assert (pnl + pos.entry * 0.0008) * 0.02 == k * lr;
    assert lr > 0.0 <==> k * lr > 0.0 by {
      if lr > 0.0 { assert k * lr > 0.0; }
      if lr <= 0.0 { assert k * lr <= 0.0; }
    }
    assert lr == 0.0 <==> k * lr == 0.0;
  }

  /** Closing on an exit: the balance takes the PnL, the trade is recorded, the position is gone. */
  function Close(cfg: TradingConfig, v: SimVars, pos: Position, price: real, reason: Outcome): SimVars
  {
    var pnl := ExitPnl(cfg, v.balance, pos, price);
    SimVars(v.balance + pnl, None,
            v.trades + [ClosedTrade(pnl, LeveragedReturn(cfg, pos, price) * 100.0, reason)],
            v.equityCurve)
  }

  // ---------------------------------------------------------------- the loop as a fold

  /** Bar i: exit check on the open position, then entry when flat, then one equity sample. */
  function Step(cfg: TradingConfig, rows: seq<Bar>, strategy: seq<Candle> -> Option<BotSignal>,
                i: nat, v: SimVars): SimVars
    requires Lookback <= i < |rows|
  {
    var exited :=
      if v.position.None? then v
      else match CheckExit(v.position.value, rows[i])
        case None => v
        case Some(e) => Close(cfg, v, v.position.value, e.0, e.1);
    var entered :=
      if exited.position.Some? then exited
      else match strategy(Window(rows, i))
        case None => exited
        case Some(sig) =>
          exited.(position := Some(Position(SideOf(sig.kind), sig.entryPrice, sig.takeProfit, sig.stopLoss)));
    entered.(equityCurve := entered.equityCurve + [entered.balance])
  }

  function Start(initial: real): SimVars
  {
    SimVars(initial, None, [], [initial])
  }

  /** The loop variables once the bars below index n are processed. */
  function Loop(cfg: TradingConfig, rows: seq<Bar>, strategy: seq<Candle> -> Option<BotSignal>,
                initial: real, n: nat): SimVars
    requires n <= |rows|
  {
    if n <= Lookback then Start(initial)
    else Step(cfg, rows, strategy, n - 1, Loop(cfg, rows, strategy, initial, n - 1))
  }

  /** A position still open after the last bar is recorded as a zero-PnL END trade. */
  function Finish(v: SimVars): SimVars
  {
    if v.position.Some? then v.(trades := v.trades + [ClosedTrade(0.0, 0.0, EndOfData)]) else v
  }

  function Pnls(trades: seq<ClosedTrade>): (ps: seq<real>)
    ensures |ps| == |trades| && forall k :: 0 <= k < |trades| ==> ps[k] == trades[k].pnl
  {
    seq(|trades|, k requires 0 <= k < |trades| => trades[k].pnl)
  }

  /** `abs(sum(wins) / sum(losses))` when the losses sum to something nonzero, else 0. */
  function ProfitFactor(wins: seq<real>, losses: seq<real>): real
  {
    if losses != [] && PnlStats.Sum(losses) != 0.0 then Abs(PnlStats.Sum(wins) / PnlStats.Sum(losses)) else 0.0
  }

  /** `(balance - initial) / initial * 100`: the gain in percent of the initial balance. */
  function ReturnPct(initial: real, balance: real): (r: real)
    requires initial > 0.0
    ensures r * initial == (balance - initial) * 100.0
    ensures r > 0.0 <==> balance > initial
  {
    (balance - initial) / initial * 100.0
  }

  /** The result dictionary of a finished run. */
  function ResultOf(initial: real, v: SimVars): SimResult
    requires initial > 0.0
  {
    var ps := Pnls(v.trades);
    var wins, losses := PnlStats.Wins(ps), PnlStats.Losses(ps);
    SimResult(
      ReturnPct(initial, v.balance),
      |v.trades|,
      PnlStats.Percent(|wins|, |v.trades|),
      PnlStats.Mean(wins),
      PnlStats.Mean(losses),
      Drawdown.MaxDd(initial, v.equityCurve),
      ProfitFactor(wins, losses),
      v.balance)
  }

  /**
   * `simulate` over rows that already carry indicators and no missing values;
   * the strategy sees the 300-row window ending at each bar.
   */
  method SimulateRows(cfg: TradingConfig, rows: seq<Bar>, strategy: seq<Candle> -> Option<BotSignal>, initial: real)
    returns (r: SimResult)
    requires initial > 0.0
    ensures r == ResultOf(initial, Finish(Loop(cfg, rows, strategy, initial, |rows|)))
  {
    var balance := initial;
    var position: Option<Position> := None;
    var trades: seq<ClosedTrade> := [];
    var equityCurve := [initial];
    var i := Lookback;
    while i < |rows|
      invariant Lookback <= i && (i <= |rows| || |rows| < Lookback)
      invariant SimVars(balance, position, trades, equityCurve)
                == Loop(cfg, rows, strategy, initial, if i <= |rows| then i else |rows|)
    {
      balance, position, trades, equityCurve := SimulateBar(cfg, rows, strategy, i, balance, position, trades, equityCurve);
      i := i + 1;
    }
    r := Summarize(initial, balance, position, trades, equityCurve);
  }

  /** One iteration of `simulate`'s loop over row i: the exit check, the entry when flat, one equity sample. */
  method SimulateBar(cfg: TradingConfig, rows: seq<Bar>, strategy: seq<Candle> -> Option<BotSignal>, i: nat,
                     balance: real, position: Option<Position>, trades: seq<ClosedTrade>, equityCurve: seq<real>)
    returns (balance': real, position': Option<Position>, trades': seq<ClosedTrade>, equityCurve': seq<real>)
    requires Lookback <= i < |rows|
    ensures SimVars(balance', position', trades', equityCurve')
            == Step(cfg, rows, strategy, i, SimVars(balance, position, trades, equityCurve))
  {
    ghost var v := SimVars(balance, position, trades, equityCurve);
    balance', position', trades' := balance, position, trades;
    var candle := rows[i];
    if position.Some? {
      var pos := position.value;
      var exit := CheckExit(pos, candle);
      if exit.Some? {
        balance', trades' := BookExit(cfg, balance, trades, pos, exit.value.0, exit.value.1);
        position' := None;
        assert SimVars(balance', position', trades', equityCurve) == Close(cfg, v, pos, exit.value.0, exit.value.1);
      }
    }
    ghost var exited := SimVars(balance', position', trades', equityCurve);
    if position'.None? {
      var signal := strategy(Window(rows, i));
      if signal.Some? {
        var sig := signal.value;
        position' := Some(Position(SideOf(sig.kind), sig.entryPrice, sig.takeProfit, sig.stopLoss));
      }
    }
    ghost var entered := SimVars(balance', position', trades', equityCurve);
    assert entered.position.None? ==> entered == exited;
    equityCurve' := equityCurve + [balance'];
  }

  /** The exit branch of `simulate`: the leveraged return, the PnL less the fee, and the trade record. */
  method BookExit(cfg: TradingConfig, balance: real, trades: seq<ClosedTrade>, pos: Position, exitPrice: real,
                  reason: Outcome)
    returns (newBalance: real, newTrades: seq<ClosedTrade>)
    ensures newBalance == balance + ExitPnl(cfg, balance, pos, exitPrice)
    ensures newTrades == trades + [ClosedTrade(ExitPnl(cfg, balance, pos, exitPrice),
                                               LeveragedReturn(cfg, pos, exitPrice) * 100.0, reason)]
  {
    var pnlPct := if pos.side == Long then (exitPrice - pos.entry) / pos.entry
                  else (pos.entry - exitPrice) / pos.entry;
    pnlPct := pnlPct * cfg.leverage as real;
    var pnl := balance * cfg.riskPerTrade * (pnlPct / 0.02);
    pnl := pnl - pos.entry * 0.0008;
    assert pnlPct == LeveragedReturn(cfg, pos, exitPrice);
    newBalance := balance + pnl;
    newTrades := trades + [ClosedTrade(pnl, pnlPct * 100.0, reason)];
  }

  /** The end of `simulate`: the END record, the drawdown loop, and the result dictionary. */
  method Summarize(initial: real, balance: real, position: Option<Position>, trades: seq<ClosedTrade>,
                   equityCurve: seq<real>) returns (r: SimResult)
    requires initial > 0.0
    ensures r == ResultOf(initial, Finish(SimVars(balance, position, trades, equityCurve)))
  {
    var trades := trades;
    if position.Some? {
      trades := trades + [ClosedTrade(0.0, 0.0, EndOfData)];
    }
    var maxDd := Drawdown.MaxDrawdown(initial, equityCurve);
    var ps := Pnls(trades);
    var wins, losses := PnlStats.Wins(ps), PnlStats.Losses(ps);
    r := SimResult(
      ReturnPct(initial, balance),
      |trades|,
      PnlStats.Percent(|wins|, |trades|),
      PnlStats.Mean(wins),
      PnlStats.Mean(losses),
      maxDd,
      ProfitFactor(wins, losses),
      balance);
  }

  /** The strategy `simulate` builds from the configuration: the bot's `check_signal`. */
  function StrategyFor(cfg: TradingConfig, indicators: seq<Candle> -> seq<Option<Bar>>): seq<Candle> -> Option<BotSignal>
  {
    w => CheckSignal(cfg, w, indicators)
  }

  /** `simulate`: indicators over the candles, incomplete rows dropped, then the run. */
  method Simulate(cfg: TradingConfig, candles: seq<Candle>, indicators: seq<Candle> -> seq<Option<Bar>>, initial: real)
    returns (r: SimResult)
    requires initial > 0.0
    ensures var rows := DropNa(indicators(candles));
      r == ResultOf(initial, Finish(Loop(cfg, rows, StrategyFor(cfg, indicators), initial, |rows|)))
  {
    var rows := DropNa(indicators(candles));
    r := SimulateRows(cfg, rows, StrategyFor(cfg, indicators), initial);
  }

  // ---------------------------------------------------------------- properties of a run

  /**
   * `v` continues a run from `initial`: the balance is the initial balance plus
   * every recorded PnL, the curve starts at the initial balance and ends at
   * the balance, with `samples` samples after the first, and no trade so far
   * is an END trade.
   */
  ghost predicate Booked(initial: real, v: SimVars, samples: nat)
  {
    && v.balance == initial + PnlStats.Sum(Pnls(v.trades))
    && |v.equityCurve| == samples + 1
    && v.equityCurve[0] == initial
    && v.equityCurve[samples] == v.balance
    && forall k :: 0 <= k < |v.trades| ==> v.trades[k].reason != EndOfData
  }

  lemma PnlsAppend(ts: seq<ClosedTrade>, t: ClosedTrade)
    ensures PnlStats.Sum(Pnls(ts + [t])) == PnlStats.Sum(Pnls(ts)) + t.pnl
  {
    assert Pnls(ts + [t]) == Pnls(ts) + [t.pnl];
    assert (Pnls(ts) + [t.pnl])[..|Pnls(ts)|] == Pnls(ts);
  }

  /** One bar keeps the books and adds one sample. */
  lemma StepBooks(cfg: TradingConfig, rows: seq<Bar>, strategy: seq<Candle> -> Option<BotSignal>,
                  i: nat, v: SimVars, initial: real, samples: nat)
    requires Lookback <= i < |rows| && Booked(initial, v, samples)
    ensures Booked(initial, Step(cfg, rows, strategy, i, v), samples + 1)
  {
    if v.position.Some? {
      var e := CheckExit(v.position.value, rows[i]);
      if e.Some? {
        var c := Close(cfg, v, v.position.value, e.value.0, e.value.1);
        PnlsAppend(v.trades, c.trades[|v.trades|]);
        assert c.trades == v.trades + [c.trades[|v.trades|]];
      }
    }
  }

  /**
   * The loop keeps the books: after the bars below n the balance is the
   * initial balance plus every PnL recorded, one balance sample was appended
   * per bar from index 300, and every trade closed on its take-profit or stop-loss.
   */
  lemma {:induction false} LoopBooks(cfg: TradingConfig, rows: seq<Bar>, strategy: seq<Candle> -> Option<BotSignal>,
                                     initial: real, n: nat)
    requires n <= |rows|
    ensures Booked(initial, Loop(cfg, rows, strategy, initial, n), if n <= Lookback then 0 else n - Lookback)
  {
    if n > Lookback {
      LoopBooks(cfg, rows, strategy, initial, n - 1);
      StepBooks(cfg, rows, strategy, n - 1, Loop(cfg, rows, strategy, initial, n - 1), initial,
                if n - 1 <= Lookback then 0 else n - 1 - Lookback);
    }
  }

  /**
   * The END record changes no balance: the final balance is still the initial
   * balance plus every PnL, the curve is untouched, and an END trade, if any,
   * is the last one.
   */
  lemma FinishBooks(cfg: TradingConfig, rows: seq<Bar>, strategy: seq<Candle> -> Option<BotSignal>, initial: real)
    ensures var v := Loop(cfg, rows, strategy, initial, |rows|);
      var f := Finish(v);
      && f.balance == v.balance == initial + PnlStats.Sum(Pnls(f.trades))
      && f.equityCurve == v.equityCurve && f.equityCurve[0] == initial
      && (forall k :: 0 <= k < |f.trades| - 1 ==> f.trades[k].reason != EndOfData)
      && (v.position.Some? <==> |f.trades| == |v.trades| + 1)
      && (v.position.Some? ==> f.trades[|f.trades| - 1] == ClosedTrade(0.0, 0.0, EndOfData))
  {
    var v := Loop(cfg, rows, strategy, initial, |rows|);
    LoopBooks(cfg, rows, strategy, initial, |rows|);
    if v.position.Some? {
      PnlsAppend(v.trades, ClosedTrade(0.0, 0.0, EndOfData));
    }
  }

  /**
   * What the result dictionary reports for a run whose books balance (as
   * `FinishBooks` shows they always do): the final balance is the initial one
   * plus all PnL, the return is that gain in percent of the initial balance,
   * every trade is a win or a loss, and the win rate is a percentage.
   */
  lemma ResultReports(initial: real, f: SimVars)
    requires initial > 0.0 && f.balance == initial + PnlStats.Sum(Pnls(f.trades))
    ensures var r := ResultOf(initial, f);
      var ps := Pnls(f.trades);
      && r.finalBalance == initial + PnlStats.Sum(ps)
      && r.totalReturn == ReturnPct(initial, r.finalBalance)
      && r.totalTrades == |PnlStats.Wins(ps)| + |PnlStats.Losses(ps)|
      && 0.0 <= r.winRate <= 100.0
  {
    var ps := Pnls(f.trades);
    var wins := PnlStats.Wins(ps);
    PnlStats.Partition(ps);
    var r := ResultOf(initial, f);
    assert r.winRate == PnlStats.Percent(|wins|, |f.trades|);
  }

  /**
   * The risk figures of any run: the drawdown is non-negative, and the profit
   * factor is non-negative and, when nonzero, the ratio of gross win to gross loss.
   */
  lemma ResultRisk(initial: real, f: SimVars)
    requires initial > 0.0
    ensures var r := ResultOf(initial, f);
      var ps := Pnls(f.trades);
      && r.maxDrawdown >= 0.0
      && r.profitFactor >= 0.0
      && (r.profitFactor != 0.0 ==>
            r.profitFactor == PnlStats.Sum(PnlStats.Wins(ps)) / -PnlStats.Sum(PnlStats.Losses(ps)))
  {
    var ps := Pnls(f.trades);
    var wins, losses := PnlStats.Wins(ps), PnlStats.Losses(ps);
    PnlStats.Partition(ps);
    Drawdown.MaxDdBounds(initial, f.equityCurve);
    ProfitFactorRatio(wins, losses);
    var r := ResultOf(initial, f);
    assert r.maxDrawdown == Drawdown.MaxDd(initial, f.equityCurve);
    assert r.profitFactor == ProfitFactor(wins, losses);
  }

  /** A nonzero profit factor is gross win over gross loss; it is never negative. */
  lemma ProfitFactorRatio(wins: seq<real>, losses: seq<real>)
    requires PnlStats.Sum(wins) >= 0.0 && PnlStats.Sum(losses) <= 0.0
    ensures ProfitFactor(wins, losses) >= 0.0
    ensures ProfitFactor(wins, losses) != 0.0 ==>
      ProfitFactor(wins, losses) == PnlStats.Sum(wins) / -PnlStats.Sum(losses)
  {
    var w, l := PnlStats.Sum(wins), PnlStats.Sum(losses);
    if losses != [] && l != 0.0 {
      assert l < 0.0;
      assert w / l <= 0.0;
      assert ProfitFactor(wins, losses) == -(w / l);
      NegatedDivisor(w, l);
    }
  }

  lemma NegatedDivisor(a: real, b: real)
    requires b != 0.0
    ensures -(a / b) == a / -b
  {
    var q := a / b;
    assert q * b == a;
    assert (-q) * (-b) == a;
  }

  /**
   * Exit before entry on the same bar: a position closed on bar i is replaced
   * on that bar when the strategy fires, so one bar can both record a trade
   * and open the next position.
   */
  lemma ReopenOnSameBar(cfg: TradingConfig, rows: seq<Bar>, strategy: seq<Candle> -> Option<BotSignal>,
                        i: nat, v: SimVars)
    requires Lookback <= i < |rows| && v.position.Some?
    requires CheckExit(v.position.value, rows[i]).Some? && strategy(Window(rows, i)).Some?
    ensures var w := Step(cfg, rows, strategy, i, v);
      var sig := strategy(Window(rows, i)).value;
      && |w.trades| == |v.trades| + 1
      && w.trades[|v.trades|].reason == CheckExit(v.position.value, rows[i]).value.1
      && w.position == Some(Position(SideOf(sig.kind), sig.entryPrice, sig.takeProfit, sig.stopLoss))
  {
  }

  /** While a position stays open the strategy is not consulted and the position is kept. */
  lemma HeldPositionIgnoresSignal(cfg: TradingConfig, rows: seq<Bar>, strategy: seq<Candle> -> Option<BotSignal>,
                                  i: nat, v: SimVars)
    requires Lookback <= i < |rows| && v.position.Some? && CheckExit(v.position.value, rows[i]).None?
    ensures Step(cfg, rows, strategy, i, v) == v.(equityCurve := v.equityCurve + [v.balance])
  {
  }

  /** No lookahead: the run up to bar n depends only on the rows before n. */
  lemma {:induction false} NoLookahead(cfg: TradingConfig, rows: seq<Bar>, strategy: seq<Candle> -> Option<BotSignal>,
                                       initial: real, n: nat)
    requires n <= |rows|
    ensures Loop(cfg, rows, strategy, initial, n) == Loop(cfg, rows[..n], strategy, initial, n)
  {
    if n > Lookback {
      NoLookahead(cfg, rows, strategy, initial, n - 1);
      PrefixLoop(cfg, rows, strategy, initial, n - 1, n);
      var v := Loop(cfg, rows, strategy, initial, n - 1);
      assert Window(rows, n - 1) == Window(rows[..n], n - 1);
      assert rows[n - 1] == rows[..n][n - 1];
      assert Step(cfg, rows, strategy, n - 1, v) == Step(cfg, rows[..n], strategy, n - 1, v);
    }
  }

  /** Cutting the rows at m >= n does not change the run up to n. */
  lemma {:induction false} PrefixLoop(cfg: TradingConfig, rows: seq<Bar>, strategy: seq<Candle> -> Option<BotSignal>,
                                      initial: real, n: nat, m: nat)
    requires n <= m <= |rows|
    ensures Loop(cfg, rows, strategy, initial, n) == Loop(cfg, rows[..m], strategy, initial, n)
  {
    if n > Lookback {
      PrefixLoop(cfg, rows, strategy, initial, n - 1, m);
      var v := Loop(cfg, rows, strategy, initial, n - 1);
      assert Window(rows, n - 1) == Window(rows[..m], n - 1);
      assert rows[n - 1] == rows[..m][n - 1];
      assert Step(cfg, rows, strategy, n - 1, v) == Step(cfg, rows[..m], strategy, n - 1, v);
    }
  }

  /** Fewer than 301 rows: no bar is simulated and the result is all zeros on the initial balance. */
  lemma ShortHistory(cfg: TradingConfig, rows: seq<Bar>, strategy: seq<Candle> -> Option<BotSignal>, initial: real)
    requires initial > 0.0 && |rows| <= Lookback
    ensures ResultOf(initial, Finish(Loop(cfg, rows, strategy, initial, |rows|)))
            == SimResult(0.0, 0, 0.0, 0.0, 0.0, 0.0, 0.0, initial)
  {
    assert [initial][..0] == [];
    assert Drawdown.Peak(initial, [initial]) == initial;
    assert Drawdown.FallAtEnd(initial, [initial]) == 0.0;
    assert Drawdown.MaxDd(initial, [initial]) == 0.0;
  }

  // ---------------------------------------------------------------- the sweep

  /** The (take-profit fraction, stop-loss ATR multiple) pairs the sweep tries, the original first. */
  const Combos: seq<(real, real)> := [
    (0.01, 2.5), (0.02, 2.0), (0.02, 2.5), (0.03, 2.0), (0.03, 2.5),
    (0.03, 3.0), (0.04, 2.5), (0.04, 3.0), (0.05, 2.5), (0.05, 3.0)]

  /** A default configuration with the pair's take-profit and stop-loss settings. */
  function Configure(tpPct: real, slMult: real): (c: TradingConfig)
    ensures c == Default().(tpPct := tpPct, slAtrMult := slMult)
    ensures c.leverage == Default().leverage && c.riskPerTrade == Default().riskPerTrade
  {
    Default().(tpPct := tpPct, slAtrMult := slMult)
  }

  /** A result tagged with its pair; the take-profit is stored in percent. */
  datatype ComboResult = ComboResult(tpPct: real, slMult: real, result: SimResult)

  /** The sweep's result for one pair. */
  ghost function ComboOf(candles: seq<Candle>, indicators: seq<Candle> -> seq<Option<Bar>>, combo: (real, real)): ComboResult
  {
    var cfg := Configure(combo.0, combo.1);
    var rows := DropNa(indicators(candles));
    ComboResult(combo.0 * 100.0, combo.1,
      ResultOf(DefaultInitialBalance, Finish(Loop(cfg, rows, StrategyFor(cfg, indicators), DefaultInitialBalance, |rows|))))
  }

  /** The sweep: one simulation per pair, in the order of the list. */
  method RunCombinations(candles: seq<Candle>, indicators: seq<Candle> -> seq<Option<Bar>>)
    returns (results: seq<ComboResult>)
    ensures |results| == |Combos|
    ensures forall k :: 0 <= k < |Combos| ==> results[k] == ComboOf(candles, indicators, Combos[k])
  {
    results := [];
    var k := 0;
    while k < |Combos|
      invariant 0 <= k <= |Combos| && |results| == k
      invariant forall j :: 0 <= j < k ==> results[j] == ComboOf(candles, indicators, Combos[j])
    {
      var (tpPct, slMult) := Combos[k];
      var cfg := Configure(tpPct, slMult);
      var result := Simulate(cfg, candles, indicators, DefaultInitialBalance);
      results := results + [ComboResult(tpPct * 100.0, slMult, result)];
      k := k + 1;
    }
  }

  // ---------------------------------------------------------------- ranking

  function Return(c: ComboResult): real { c.result.totalReturn }

  /** Sorted by total return, highest first. */
  ghost predicate Descending(rs: seq<ComboResult>)
  {
    forall i, j :: 0 <= i < j < |rs| ==> Return(rs[i]) >= Return(rs[j])
  }

  /** Inserts `x` after every element whose return is at least its own. */
  function Insert(x: ComboResult, rs: seq<ComboResult>): (r: seq<ComboResult>)
    ensures multiset(r) == multiset(rs) + multiset{x}
    ensures |r| == |rs| + 1
  {
    if rs == [] then [x]
    else if Return(rs[0]) >= Return(x) then
      assert rs == [rs[0]] + rs[1..];
      [rs[0]] + Insert(x, rs[1..])
    else
      [x] + rs
  }

  /** Insertion keeps the order descending. */
  lemma {:induction false} InsertDescending(x: ComboResult, rs: seq<ComboResult>)
    requires Descending(rs)
    ensures Descending(Insert(x, rs))
  {
    if rs != [] && Return(rs[0]) >= Return(x) {
      var tail := Insert(x, rs[1..]);
      InsertDescending(x, rs[1..]);
      var r := [rs[0]] + tail;
      forall j | 0 <= j < |tail| ensures Return(rs[0]) >= Return(tail[j]) {
        assert tail[j] in multiset(tail);
        assert tail[j] in multiset(rs[1..]) + multiset{x};
        if tail[j] != x {
          assert tail[j] in rs[1..];
        }
      }
      forall i, j | 0 <= i < j < |r| ensures Return(r[i]) >= Return(r[j]) {
        if i > 0 {
          assert r[i] == tail[i - 1] && r[j] == tail[j - 1];
        } else {
          assert r[j] == tail[j - 1];
        }
      }
    }
  }

  /**
   * `results.sort(key=total_return, reverse=True)`: a permutation of the
   * results in descending order of return; results with equal returns keep
   * their order (insertion after equals).
   */
  function SortByReturn(rs: seq<ComboResult>): (r: seq<ComboResult>)
    ensures Descending(r)
    ensures multiset(r) == multiset(rs) && |r| == |rs|
  {
    if rs == [] then []
    else
      var init := rs[..|rs| - 1];
      assert rs == init + [rs[|rs| - 1]];
      InsertDescending(rs[|rs| - 1], SortByReturn(init));
      Insert(rs[|rs| - 1], SortByReturn(init))
  }

  /** The first entry after sorting has the best return of all. */
  lemma BestReturnFirst(rs: seq<ComboResult>)
    requires rs != []
    ensures forall k :: 0 <= k < |rs| ==> Return(SortByReturn(rs)[0]) >= Return(rs[k])
  {
    var s := SortByReturn(rs);
    forall k | 0 <= k < |rs| ensures Return(s[0]) >= Return(rs[k]) {
      assert rs[k] in multiset(s);
      var j :| 0 <= j < |s| && s[j] == rs[k];
      assert j == 0 || Return(s[0]) >= Return(s[j]);
    }
  }

  /** `r["total_return"] / r["max_drawdown"] if r["max_drawdown"] > 0 else 0`. */
  function RiskReward(r: SimResult): (rr: real)
    ensures r.maxDrawdown > 0.0 ==> rr * r.maxDrawdown == r.totalReturn
    ensures r.maxDrawdown <= 0.0 ==> rr == 0.0
    ensures r.maxDrawdown > 0.0 ==> (rr > 0.0 <==> r.totalReturn > 0.0)
  {
    if r.maxDrawdown > 0.0 then r.totalReturn / r.maxDrawdown else 0.0
  }

  /** `min(xs, key=...)`: the first index whose key is smallest. */
  function FirstMin(keys: seq<real>): (k: nat)
    requires keys != []
    ensures k < |keys|
    ensures forall j :: 0 <= j < |keys| ==> keys[k] <= keys[j]
    ensures forall j :: 0 <= j < k ==> keys[j] > keys[k]
  {
    if |keys| == 1 then 0
    else
      var m := FirstMin(keys[..|keys| - 1]);
      if keys[|keys| - 1] < keys[m] then |keys| - 1 else m
  }

  /** `max(xs, key=...)`: the first index whose key is largest. */
  function FirstMax(keys: seq<real>): (k: nat)
    requires keys != []
    ensures k < |keys|
    ensures forall j :: 0 <= j < |keys| ==> keys[k] >= keys[j]
    ensures forall j :: 0 <= j < k ==> keys[j] < keys[k]
  {
    if |keys| == 1 then 0
    else
      var m := FirstMax(keys[..|keys| - 1]);
      if keys[|keys| - 1] > keys[m] then |keys| - 1 else m
  }

  /** The pair with the smallest drawdown (the first of equals). */
  function BestDrawdown(rs: seq<ComboResult>): (best: ComboResult)
    requires rs != []
    ensures best in rs
    ensures forall j :: 0 <= j < |rs| ==> best.result.maxDrawdown <= rs[j].result.maxDrawdown
    ensures exists m :: 0 <= m < |rs| && best == rs[m]
                        && forall j :: 0 <= j < m ==> rs[j].result.maxDrawdown > best.result.maxDrawdown
  {
    var keys := seq(|rs|, k requires 0 <= k < |rs| => rs[k].result.maxDrawdown);
    var m := FirstMin(keys);
    assert forall j :: 0 <= j < |rs| ==> keys[j] == rs[j].result.maxDrawdown && keys[m] <= keys[j];
    assert forall j :: 0 <= j < m ==> keys[j] > keys[m];
    rs[m]
  }

  /** The pair with the best return-to-drawdown ratio (the first of equals). */
  function BestBalanced(rs: seq<ComboResult>): (best: ComboResult)
    requires rs != []
    ensures best in rs
    ensures forall j :: 0 <= j < |rs| ==> RiskReward(best.result) >= RiskReward(rs[j].result)
    ensures exists m :: 0 <= m < |rs| && best == rs[m]
                        && forall j :: 0 <= j < m ==> RiskReward(rs[j].result) < RiskReward(best.result)
  {
    var keys := seq(|rs|, k requires 0 <= k < |rs| => RiskReward(rs[k].result));
    var m := FirstMax(keys);
    assert forall j :: 0 <= j < |rs| ==> keys[j] == RiskReward(rs[j].result) && keys[m] >= keys[j];
    assert forall j :: 0 <= j < m ==> keys[j] < keys[m];
    rs[m]
  }
}
