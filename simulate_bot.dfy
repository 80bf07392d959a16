/**
 * `BotSimulator`: replays the live bot's entry and exit rules over historical
 * bars. The simulator object keeps the balance, the open positions by symbol,
 * the closed trades and one balance sample per bar; `RunSimulation` updates
 * them in place. The signal for bar i is an input (`signalAt(i)`), standing
 * for the strategy's answer on that bar's window.
 */
module BotSimulation {
  import opened Common
  import opened Bars
  import opened Config
  import opened BotStrategy
  import Drawdown
  import PnlStats

  /** Bars the live bot looks back over; the simulation starts at this index. */
  const Lookback: nat := 300

  /** Bars to wait after an entry before the next one (20 fifteen-minute bars, five hours). */
  const CooldownCandles: int := 20

  datatype ExitKind = TakeProfit | StopLoss | EndOfData

  datatype SimPosition = SimPosition(
    symbol: string,
    side: Side,
    entryPrice: Price,
    quantity: real,
    takeProfit: real,
    stopLoss: real,
    entryTime: int,
    entryIndex: int)

  datatype TradeResult = TradeResult(
    symbol: string,
    side: Side,
    entryPrice: Price,
    exitPrice: real,
    quantity: real,
    pnl: real,
    pnlPct: real,
    entryTime: int,
    exitTime: int,
    exitReason: ExitKind)

  /** The simulator's fields as one value. */
  datatype SimState = SimState(
    balance: real,
    positions: map<string, SimPosition>,
    trades: seq<TradeResult>,
    equityCurve: seq<real>)

  /** The position side a signal opens; anything but LONG goes down the SHORT branches. */
  function SideOf(kind: SignalType): Side
  {
    if kind == LongSignal then Long else Short
  }

  /**
   * `calculate_position_size`: the risk budget over the stop distance, with no
   * exposure cap; 0 when the stop sits on the entry price.
   */
  function PositionSize(cfg: TradingConfig, balance: real, entry: Price, stopLoss: real): (q: real)
    ensures entry == stopLoss ==> q == 0.0
  {
    var riskAmount := balance * cfg.riskPerTrade;
    var stopDistance := Abs(entry - stopLoss) / entry;
    if stopDistance <= 0.0 then 0.0
    else
      var positionValue := riskAmount / stopDistance;
      positionValue / entry
  }

  /** Off the entry price, the size loses exactly the risk budget if the stop is hit. */
  lemma PositionSizeRisk(cfg: TradingConfig, balance: real, entry: Price, stopLoss: real)
    requires entry != stopLoss
    ensures PositionSize(cfg, balance, entry, stopLoss) * Abs(entry - stopLoss) == balance * cfg.riskPerTrade
  {
    SizeIdentity(balance * cfg.riskPerTrade, Abs(entry - stopLoss), entry);
  }

  lemma SizeIdentity(risk: real, distance: real, entry: real)
    requires distance > 0.0 && entry > 0.0
    ensures risk / (distance / entry) / entry * distance == risk
  {
    var d := distance / entry;
    assert d * entry == distance;
    assert risk / d / entry == risk / (d * entry);
  }

  /** The bar reaches the take-profit: the high for a long, the low for a short. */
  predicate TpReached(pos: SimPosition, bar: Bar)
  {
    if pos.side == Long then bar.high >= pos.takeProfit else bar.low <= pos.takeProfit
  }

  /** The bar reaches the stop-loss: the low for a long, the high for a short. */
  predicate SlReached(pos: SimPosition, bar: Bar)
  {
    if pos.side == Long then bar.low <= pos.stopLoss else bar.high >= pos.stopLoss
  }

  /** `check_position_exit`: take-profit is checked first, so it wins when one bar reaches both. */
  function CheckPositionExit(pos: SimPosition, bar: Bar): (r: Option<ExitKind>)
    ensures r.Some? <==> TpReached(pos, bar) || SlReached(pos, bar)
    ensures TpReached(pos, bar) ==> r == Some(TakeProfit)
    ensures !TpReached(pos, bar) && SlReached(pos, bar) ==> r == Some(StopLoss)
  {
    if pos.side == Long then
      if bar.high >= pos.takeProfit then Some(TakeProfit)
      else if bar.low <= pos.stopLoss then Some(StopLoss)
      else None
    else
      if bar.low <= pos.takeProfit then Some(TakeProfit)
      else if bar.high >= pos.stopLoss then Some(StopLoss)
      else None
  }

  /** Leveraged return of the position at `price`, as a fraction. */
  function LeveragedPct(cfg: TradingConfig, pos: SimPosition, price: real): real
  {
    var pct := if pos.side == Long then (price - pos.entryPrice) / pos.entryPrice
               else (pos.entryPrice - price) / pos.entryPrice;
    pct * cfg.leverage as real
  }

  /**
   * PnL of closing at `price`: the risk budget scaled by the leveraged return
   * over `sl_atr_mult` percent, less a flat 0.08% fee on the entry notional.
   */
  function ClosePnl(cfg: TradingConfig, balance: real, pos: SimPosition, price: real): real
    requires cfg.slAtrMult != 0.0
  {
    var budget := balance * cfg.riskPerTrade;
    var scale := cfg.slAtrMult * 0.01;
    budget * (LeveragedPct(cfg, pos, price) / scale) - pos.quantity * pos.entryPrice * 0.0008
  }

  /** The PnL plus the flat fee, times `sl_atr_mult` percent, is the risk budget times the leveraged return. */
  lemma ClosePnlScaled(cfg: TradingConfig, balance: real, pos: SimPosition, price: real)
    requires cfg.slAtrMult != 0.0
    ensures (ClosePnl(cfg, balance, pos, price) + pos.quantity * pos.entryPrice * 0.0008) * (cfg.slAtrMult * 0.01)
            == balance * cfg.riskPerTrade * LeveragedPct(cfg, pos, price)
  {
    var budget := balance * cfg.riskPerTrade;
    var scale := cfg.slAtrMult * 0.01;
    var pct := LeveragedPct(cfg, pos, price);
    assert budget * (pct / scale) * scale == budget * pct;
  }

  /** `close_position` on the state: book the PnL, record the trade, forget the position. */
  function Close(cfg: TradingConfig, st: SimState, symbol: string, price: real, time: int, reason: ExitKind): (r: SimState)
    requires cfg.slAtrMult != 0.0 && symbol in st.positions
    ensures r.positions == st.positions - {symbol} && r.equityCurve == st.equityCurve
    ensures |r.trades| == |st.trades| + 1 && st.trades <= r.trades
    ensures r.balance == st.balance + r.trades[|st.trades|].pnl
  {
    var pos := st.positions[symbol];
    var pnl := ClosePnl(cfg, st.balance, pos, price);
    var trade := TradeResult(symbol, pos.side, pos.entryPrice, price, pos.quantity, pnl,
                             LeveragedPct(cfg, pos, price) * 100.0, pos.entryTime, time, reason);
    SimState(st.balance + pnl, st.positions - {symbol}, st.trades + [trade], st.equityCurve)
  }

  /** The loop's variables: the simulator's fields and the index of the last entry. */
  datatype RunVars = RunVars(st: SimState, lastEntry: int)

  /** Exit phase of bar i: close the symbol's position at its take-profit or stop-loss level. */
  function ExitPhase(cfg: TradingConfig, symbol: string, bar: Bar, st: SimState): SimState
    requires cfg.slAtrMult != 0.0
  {
    if symbol !in st.positions then st
    else
      var pos := st.positions[symbol];
      match CheckPositionExit(pos, bar)
      case None => st
      case Some(reason) =>
        Close(cfg, st, symbol, if reason == TakeProfit then pos.takeProfit else pos.stopLoss, bar.timestamp, reason)
  }

  /** Entry phase of bar i, after the gates: open when the signal's size is positive. */
  function EnterOn(cfg: TradingConfig, symbol: string, bar: Bar, i: nat, signal: Option<BotSignal>, v: RunVars): RunVars
  {
    match signal
    case None => v
    case Some(sig) =>
      var quantity := PositionSize(cfg, v.st.balance, sig.entryPrice, sig.stopLoss);
      if quantity > 0.0 then
        var pos := SimPosition(symbol, SideOf(sig.kind), sig.entryPrice, quantity, sig.takeProfit, sig.stopLoss,
                               bar.timestamp, i);
        RunVars(v.st.(positions := v.st.positions[symbol := pos]), i)
      else v
  }

  /** Whether bar i may look for an entry: symbol flat, a free slot, and the cooldown over. */
  predicate EntryAllowed(cfg: TradingConfig, symbol: string, i: nat, v: RunVars)
  {
    symbol !in v.st.positions && |v.st.positions| < cfg.maxPositions && i - v.lastEntry >= CooldownCandles
  }

  /** One iteration of the loop: exit, gated entry, one balance sample. */
  function Step(cfg: TradingConfig, symbol: string, bars: seq<Bar>, signalAt: nat -> Option<BotSignal>,
                i: nat, v: RunVars): RunVars
    requires cfg.slAtrMult != 0.0 && i < |bars|
  {
    var exited := RunVars(ExitPhase(cfg, symbol, bars[i], v.st), v.lastEntry);
    var entered := if EntryAllowed(cfg, symbol, i, exited) then EnterOn(cfg, symbol, bars[i], i, signalAt(i), exited)
                   else exited;
    entered.(st := entered.st.(equityCurve := entered.st.equityCurve + [entered.st.balance]))
  }

  /** The loop variables after the bars with index below n, from the simulator's state `st0`. */
  function Loop(cfg: TradingConfig, symbol: string, bars: seq<Bar>, signalAt: nat -> Option<BotSignal>,
                st0: SimState, n: nat): RunVars
    requires cfg.slAtrMult != 0.0 && n <= |bars|
  {
    if n <= Lookback then RunVars(st0, -CooldownCandles)
    else Step(cfg, symbol, bars, signalAt, n - 1, Loop(cfg, symbol, bars, signalAt, st0, n - 1))
  }

  /** After the loop: a position still open on the symbol is closed at the last close, reason END. */
  function Finish(cfg: TradingConfig, symbol: string, bars: seq<Bar>, st: SimState): SimState
    requires cfg.slAtrMult != 0.0 && (symbol in st.positions ==> |bars| > 0)
  {
    if symbol in st.positions then
      var last := bars[|bars| - 1];
      Close(cfg, st, symbol, last.close, last.timestamp, EndOfData)
    else st
  }

  /**
   * Whether bar i gets past the gates, so that `run_simulation` asks the
   * strategy for a signal there. As written that call passes the symbol as an
   * extra argument, which neither strategy method accepts, so the first bar
   * where this holds ends the run with a `TypeError`.
   */
  predicate SignalCallReached(cfg: TradingConfig, symbol: string, bars: seq<Bar>,
                              signalAt: nat -> Option<BotSignal>, st0: SimState, i: nat)
    requires cfg.slAtrMult != 0.0 && Lookback <= i < |bars|
  {
    var v := Loop(cfg, symbol, bars, signalAt, st0, i);
    EntryAllowed(cfg, symbol, i, RunVars(ExitPhase(cfg, symbol, bars[i], v.st), v.lastEntry))
  }

  /**
   * On a fresh simulator with a free slot, the strategy is called at the very
   * first bar after the lookback: the cooldown starts expired and nothing is
   * open. As written, every run over more than 300 bars therefore fails there.
   */
  lemma FirstBarCallsStrategy(cfg: TradingConfig, symbol: string, bars: seq<Bar>,
                              signalAt: nat -> Option<BotSignal>, st0: SimState)
    requires cfg.slAtrMult != 0.0 && |bars| > Lookback
    requires st0.positions == map[] && cfg.maxPositions >= 1
    ensures SignalCallReached(cfg, symbol, bars, signalAt, st0, Lookback)
  {
    assert Loop(cfg, symbol, bars, signalAt, st0, Lookback) == RunVars(st0, -CooldownCandles);
  }

  /** Statistics `print_results` shows; `profitFactor` is shown only when the average loss is nonzero. */
  datatype SimStats = SimStats(
    totalTrades: nat,
    winningTrades: nat,
    losingTrades: nat,
    winRate: real,
    totalPnl: real,
    totalReturn: real,
    avgWin: real,
    avgLoss: real,
    maxDrawdown: real,
    profitFactor: Option<real>)

  function Pnls(trades: seq<TradeResult>): (ps: seq<real>)
    ensures |ps| == |trades| && forall k :: 0 <= k < |trades| ==> ps[k] == trades[k].pnl
  {
    seq(|trades|, k requires 0 <= k < |trades| => trades[k].pnl)
  }

  /** The statistics of a run, or `None` ("no trades") when nothing was traded. */
  function StatsOf(initial: real, balance: real, trades: seq<TradeResult>, curve: seq<real>): Option<SimStats>
    requires initial > 0.0
  {
    if trades == [] then None
    else
      var ps := Pnls(trades);
      var wins, losses := PnlStats.Wins(ps), PnlStats.Losses(ps);
      var avgLoss := PnlStats.Mean(losses);
      Some(SimStats(
        |trades|, |wins|, |losses|,
        PnlStats.Percent(|wins|, |trades|),
        PnlStats.Sum(ps),
        (balance - initial) / initial * 100.0,
        PnlStats.Mean(wins), avgLoss,
        Drawdown.MaxDd(initial, curve),
        if avgLoss != 0.0 then Some(Abs(PnlStats.Sum(wins) / PnlStats.Sum(losses))) else None))
  }

  /**
   * The statistics of a run: the winning and losing counts and averages are
   * those of the positive and non-positive PnLs and split the trades, the
   * win rate is their percentage, the drawdown is the equity curve's largest
   * (non-negative) one, and a profit factor, the ratio of the two sums, is
   * shown exactly when the losing trades sum to something nonzero.
   */
  lemma StatsProperties(initial: real, balance: real, trades: seq<TradeResult>, curve: seq<real>)
    requires initial > 0.0 && trades != []
    ensures var s := StatsOf(initial, balance, trades, curve).value;
      && s.winningTrades == |PnlStats.Wins(Pnls(trades))| && s.losingTrades == |PnlStats.Losses(Pnls(trades))|
      && s.winningTrades + s.losingTrades == s.totalTrades == |trades|
      && s.winRate == PnlStats.Percent(s.winningTrades, |trades|)
      && 0.0 <= s.winRate <= 100.0
      && s.avgWin == PnlStats.Mean(PnlStats.Wins(Pnls(trades)))
      && s.avgLoss == PnlStats.Mean(PnlStats.Losses(Pnls(trades)))
      && s.maxDrawdown == Drawdown.MaxDd(initial, curve)
      && s.maxDrawdown >= 0.0
      && (s.profitFactor.Some? <==> PnlStats.Sum(PnlStats.Losses(Pnls(trades))) != 0.0)
      && (s.profitFactor.Some? ==>
            s.profitFactor.value
              == Abs(PnlStats.Sum(PnlStats.Wins(Pnls(trades))) / PnlStats.Sum(PnlStats.Losses(Pnls(trades)))))
      && s.totalPnl == PnlStats.Sum(PnlStats.Wins(Pnls(trades))) + PnlStats.Sum(PnlStats.Losses(Pnls(trades)))
  {
    PnlStats.Partition(Pnls(trades));
    Drawdown.MaxDdBounds(initial, curve);
    PnlStats.MeanZeroIff(PnlStats.Losses(Pnls(trades)));
  }

  // ---------------------------------------------------------------- properties of the loop

  lemma PnlsAppend(ts: seq<TradeResult>, t: TradeResult)
    ensures Pnls(ts + [t]) == Pnls(ts) + [t.pnl]
    ensures PnlStats.Sum(Pnls(ts + [t])) == PnlStats.Sum(Pnls(ts)) + t.pnl
  {
    assert Pnls(ts + [t]) == Pnls(ts) + [t.pnl];
    assert (Pnls(ts) + [t.pnl])[..|Pnls(ts)|] == Pnls(ts);
  }

  /** Closing books exactly the recorded PnL and leaves the other symbols alone. */
  lemma CloseBooks(cfg: TradingConfig, st: SimState, symbol: string, price: real, time: int, reason: ExitKind)
    requires cfg.slAtrMult != 0.0 && symbol in st.positions
    ensures var r := Close(cfg, st, symbol, price, time, reason);
      && r.balance - PnlStats.Sum(Pnls(r.trades)) == st.balance - PnlStats.Sum(Pnls(st.trades))
      && |r.positions| <= |st.positions|
  {
    var r := Close(cfg, st, symbol, price, time, reason);
    assert r.trades == st.trades + [r.trades[|st.trades|]];
    PnlsAppend(st.trades, r.trades[|st.trades|]);
    MapRemoveSize(st.positions, symbol);
  }

  /** What one iteration keeps: the booking identity, one more sample equal to the balance, the slot limit. */
  lemma StepKeeps(cfg: TradingConfig, symbol: string, bars: seq<Bar>, signalAt: nat -> Option<BotSignal>,
                  i: nat, v: RunVars, bound: int)
    requires cfg.slAtrMult != 0.0 && i < |bars|
    requires bound >= cfg.maxPositions && |v.st.positions| <= bound
    ensures var w := Step(cfg, symbol, bars, signalAt, i, v);
      && w.st.balance - PnlStats.Sum(Pnls(w.st.trades)) == v.st.balance - PnlStats.Sum(Pnls(v.st.trades))
      && w.st.equityCurve == v.st.equityCurve + [w.st.balance]
      && v.st.trades <= w.st.trades
      && |w.st.positions| <= bound
      && (forall s :: s != symbol ==> (s in w.st.positions <==> s in v.st.positions))
  {
    ExitKeeps(cfg, symbol, bars[i], v.st);
  }

  /** The exit phase books what it closes, keeps the samples, and only ever removes the symbol. */
  lemma ExitKeeps(cfg: TradingConfig, symbol: string, bar: Bar, st: SimState)
    requires cfg.slAtrMult != 0.0
    ensures var e := ExitPhase(cfg, symbol, bar, st);
      && e.balance - PnlStats.Sum(Pnls(e.trades)) == st.balance - PnlStats.Sum(Pnls(st.trades))
      && e.equityCurve == st.equityCurve && st.trades <= e.trades
      && |e.positions| <= |st.positions|
      && e.positions.Keys <= st.positions.Keys
      && (forall s :: s != symbol ==> (s in e.positions <==> s in st.positions))
  {
    if symbol in st.positions && CheckPositionExit(st.positions[symbol], bar).Some? {
      var pos := st.positions[symbol];
      var reason := CheckPositionExit(pos, bar).value;
      CloseBooks(cfg, st, symbol, if reason == TakeProfit then pos.takeProfit else pos.stopLoss, bar.timestamp, reason);
    }
  }

  /**
   * `st` continues `st0`: the balance moved by exactly the PnL of the trades
   * added, `samples` balance samples were appended, the last of them equal
   * to the balance, and earlier trades and samples are kept.
   */
  ghost predicate Continues(st0: SimState, st: SimState, samples: nat)
  {
    && st.balance - PnlStats.Sum(Pnls(st.trades)) == st0.balance - PnlStats.Sum(Pnls(st0.trades))
    && |st.equityCurve| == |st0.equityCurve| + samples
    && (samples > 0 ==> st.equityCurve[|st.equityCurve| - 1] == st.balance)
    && st0.equityCurve <= st.equityCurve
    && st0.trades <= st.trades
  }

  lemma ContinuesItself(st: SimState)
    ensures Continues(st, st, 0)
  {
  }

  lemma ContinuesStep(st0: SimState, u: SimState, w: SimState, samples: nat)
    requires Continues(st0, u, samples)
    requires w.balance - PnlStats.Sum(Pnls(w.trades)) == u.balance - PnlStats.Sum(Pnls(u.trades))
    requires w.equityCurve == u.equityCurve + [w.balance]
    requires u.trades <= w.trades
    ensures Continues(st0, w, samples + 1)
  {
  }

  lemma StepContinues(cfg: TradingConfig, symbol: string, bars: seq<Bar>, signalAt: nat -> Option<BotSignal>,
                      i: nat, v: RunVars, st0: SimState, samples: nat)
    requires cfg.slAtrMult != 0.0 && i < |bars|
    requires Continues(st0, v.st, samples)
    ensures Continues(st0, Step(cfg, symbol, bars, signalAt, i, v).st, samples + 1)
  {
    var w := Step(cfg, symbol, bars, signalAt, i, v);
    StepKeeps(cfg, symbol, bars, signalAt, i, v, if |v.st.positions| >= cfg.maxPositions then |v.st.positions| else cfg.maxPositions);
    ContinuesStep(st0, v.st, w.st, samples);
  }

  /** The balance samples the loop has appended after the bars with index below n. */
  function Samples(n: nat): (r: nat)
    ensures n > Lookback ==> r == Samples(n - 1) + 1
  {
    if n <= Lookback then 0 else n - Lookback
  }

  /**
   * Over the whole loop: the run continues the simulator's state with one
   * balance sample per bar from index 300, the last one equal to the balance.
   */
  lemma {:induction false} LoopBooks(cfg: TradingConfig, symbol: string, bars: seq<Bar>,
                                     signalAt: nat -> Option<BotSignal>, st0: SimState, n: nat, v: RunVars)
    requires cfg.slAtrMult != 0.0 && n <= |bars|
    requires v == Loop(cfg, symbol, bars, signalAt, st0, n)
    ensures Continues(st0, v.st, Samples(n))
  {
    if n > Lookback {
      var u := Loop(cfg, symbol, bars, signalAt, st0, n - 1);
      LoopBooks(cfg, symbol, bars, signalAt, st0, n - 1, u);
      StepContinues(cfg, symbol, bars, signalAt, n - 1, u, st0, Samples(n - 1));
    } else {
      ContinuesItself(st0);
    }
  }

  /**
   * The slot limit: the run never holds more positions than `bound`, any
   * bound at least `max_positions` and the count the run started with, and
   * no symbol other than the simulated one enters or leaves.
   */
  lemma {:induction false} LoopSlots(cfg: TradingConfig, symbol: string, bars: seq<Bar>,
                                     signalAt: nat -> Option<BotSignal>, st0: SimState, n: nat, bound: int)
    requires cfg.slAtrMult != 0.0 && n <= |bars|
    requires bound >= cfg.maxPositions && |st0.positions| <= bound
    ensures var v := Loop(cfg, symbol, bars, signalAt, st0, n);
      && |v.st.positions| <= bound
      && (forall s :: s != symbol ==> (s in v.st.positions <==> s in st0.positions))
  {
    if n > Lookback {
      LoopSlots(cfg, symbol, bars, signalAt, st0, n - 1, bound);
      var v := Loop(cfg, symbol, bars, signalAt, st0, n - 1);
      StepKeeps(cfg, symbol, bars, signalAt, n - 1, v, bound);
    }
  }

  /**
   * The cooldown: within 20 bars of the last entry no position is opened, and
   * the last-entry index moves only when a position with positive size is
   * opened on this bar, under the symbol, after the gates passed.
   */
  lemma EntryGate(cfg: TradingConfig, symbol: string, bars: seq<Bar>, signalAt: nat -> Option<BotSignal>,
                  i: nat, v: RunVars)
    requires cfg.slAtrMult != 0.0 && i < |bars|
    ensures var w := Step(cfg, symbol, bars, signalAt, i, v);
      var e := ExitPhase(cfg, symbol, bars[i], v.st);
      && (i - v.lastEntry < CooldownCandles ==> w.lastEntry == v.lastEntry && w.st.positions == e.positions)
      && (w.lastEntry != v.lastEntry ==>
            && w.lastEntry == i && symbol !in e.positions && |e.positions| < cfg.maxPositions
            && i - v.lastEntry >= CooldownCandles
            && symbol in w.st.positions && w.st.positions[symbol].quantity > 0.0
            && w.st.positions[symbol].entryIndex == i && w.st.positions[symbol].entryTime == bars[i].timestamp)
      && (w.lastEntry == v.lastEntry ==> w.st.positions == e.positions)
  {
  }

  /**
   * Unlike the backtest engine, the simulator books the end-of-data close:
   * the final balance includes that trade's PnL.
   */
  lemma FinishBooks(cfg: TradingConfig, symbol: string, bars: seq<Bar>, st: SimState)
    requires cfg.slAtrMult != 0.0 && (symbol in st.positions ==> |bars| > 0)
    ensures var r := Finish(cfg, symbol, bars, st);
      && r.balance - PnlStats.Sum(Pnls(r.trades)) == st.balance - PnlStats.Sum(Pnls(st.trades))
      && symbol !in r.positions && r.equityCurve == st.equityCurve
      && (symbol in st.positions ==>
            |r.trades| == |st.trades| + 1 && r.trades[|st.trades|].exitReason == EndOfData
            && r.trades[|st.trades|].exitPrice == bars[|bars| - 1].close)
  {
    if symbol in st.positions {
      var last := bars[|bars| - 1];
      CloseBooks(cfg, st, symbol, last.close, last.timestamp, EndOfData);
    }
  }

  class BotSimulator {
    const config: TradingConfig
    const initialBalance: real
    var balance: real
    var positions: map<string, SimPosition>
    var trades: seq<TradeResult>
    var equityCurve: seq<real>

    function State(): SimState
      reads this
    {
      SimState(balance, positions, trades, equityCurve)
    }

    constructor (config: TradingConfig, initialBalance: real)
      ensures this.config == config && this.initialBalance == initialBalance
      ensures State() == SimState(initialBalance, map[], [], [])
    {
      this.config := config;
      this.initialBalance := initialBalance;
      balance := initialBalance;
      positions := map[];
      trades := [];
      equityCurve := [];
    }

    /** `close_position`. */
    method ClosePosition(symbol: string, exitPrice: real, exitTime: int, reason: ExitKind)
      requires config.slAtrMult != 0.0 && symbol in positions
      modifies this
      ensures State() == Close(config, old(State()), symbol, exitPrice, exitTime, reason)
    {
      var pos := positions[symbol];
      var pnl := ClosePnl(config, balance, pos, exitPrice);
      balance := balance + pnl;
      trades := trades + [TradeResult(symbol, pos.side, pos.entryPrice, exitPrice, pos.quantity, pnl,
                                      LeveragedPct(config, pos, exitPrice) * 100.0, pos.entryTime, exitTime, reason)];
      positions := positions - {symbol};
    }

    /** The exit step of one bar: close the symbol's position at the level the bar reached. */
    method CheckExit(symbol: string, bar: Bar)
      requires config.slAtrMult != 0.0
      modifies this
      ensures State() == ExitPhase(config, symbol, bar, old(State()))
    {
      if symbol in positions {
        var pos := positions[symbol];
        var exitReason := CheckPositionExit(pos, bar);
        if exitReason.Some? {
          var exitPrice := if exitReason.value == TakeProfit then pos.takeProfit else pos.stopLoss;
          ClosePosition(symbol, exitPrice, bar.timestamp, exitReason.value);
        }
      }
    }

    /** The entry step of one bar, once the gates have passed: open when the size is positive. */
    method TryEnter(symbol: string, bar: Bar, i: nat, signal: Option<BotSignal>, lastEntryIdx: int)
      returns (newLastEntryIdx: int)
      modifies this
      ensures RunVars(State(), newLastEntryIdx) == EnterOn(config, symbol, bar, i, signal, RunVars(old(State()), lastEntryIdx))
    {
      newLastEntryIdx := lastEntryIdx;
      if signal.Some? {
        var quantity := PositionSize(config, balance, signal.value.entryPrice, signal.value.stopLoss);
        if quantity > 0.0 {
          positions := positions[symbol := SimPosition(symbol, SideOf(signal.value.kind), signal.value.entryPrice,
                                                       quantity, signal.value.takeProfit, signal.value.stopLoss,
                                                       bar.timestamp, i)];
          newLastEntryIdx := i;
        }
      }
    }

    /**
     * One iteration of `run_simulation`'s loop over bar i: the exit check,
     * then (symbol flat, a free slot) the cooldown gate and the entry, then one
     * balance sample; the cooldown gate records its sample and skips the rest.
     */
    method ProcessBar(symbol: string, bars: seq<Bar>, signalAt: nat -> Option<BotSignal>, i: nat, lastEntryIdx: int)
      returns (newLastEntryIdx: int)
      requires config.slAtrMult != 0.0 && i < |bars|
      modifies this
      ensures RunVars(State(), newLastEntryIdx) == Step(config, symbol, bars, signalAt, i, RunVars(old(State()), lastEntryIdx))
    {
      var bar := bars[i];
      CheckExit(symbol, bar);
      ghost var exited := RunVars(State(), lastEntryIdx);
      newLastEntryIdx := lastEntryIdx;
      if symbol !in positions && |positions| < config.maxPositions {
        if i - lastEntryIdx < CooldownCandles {
          equityCurve := equityCurve + [balance];
          return;
        }
        newLastEntryIdx := TryEnter(symbol, bar, i, signalAt(i), lastEntryIdx);
      }
      assert RunVars(State(), newLastEntryIdx)
             == if EntryAllowed(config, symbol, i, exited) then EnterOn(config, symbol, bar, i, signalAt(i), exited)
                else exited;
      equityCurve := equityCurve + [balance];
    }

    /**
     * `run_simulation`: from index 300, exit check, then (symbol flat, a free
     * slot) the cooldown gate and the entry, then one balance sample; finally
     * the leftover position is closed at the last close.
     */
    method RunSimulation(symbol: string, bars: seq<Bar>, signalAt: nat -> Option<BotSignal>)
      requires config.slAtrMult != 0.0
      requires symbol in positions ==> |bars| > 0
      modifies this
      ensures State() == Finish(config, symbol, bars,
                                Loop(config, symbol, bars, signalAt, old(State()), |bars|).st)
    {
      ghost var st0 := State();
      var lastEntryIdx := -CooldownCandles;
      var i := Lookback;
      while i < |bars|
        invariant Lookback <= i && (i <= |bars| || |bars| < Lookback)
        invariant RunVars(State(), lastEntryIdx) == Loop(config, symbol, bars, signalAt, st0, if i <= |bars| then i else |bars|)
        invariant symbol in positions ==> |bars| > 0
      {
        lastEntryIdx := ProcessBar(symbol, bars, signalAt, i, lastEntryIdx);
        i := i + 1;
      }
      if symbol in positions {
        var last := bars[|bars| - 1];
        ClosePosition(symbol, last.close, last.timestamp, EndOfData);
      }
    }

    /** The statistics of `print_results`, computed from the fields without changing them. */
    method Results() returns (stats: Option<SimStats>)
      requires initialBalance > 0.0
      ensures stats == StatsOf(initialBalance, balance, trades, equityCurve)
    {
      if trades == [] {
        return None;
      }
      var ps := Pnls(trades);
      var wins, losses := PnlStats.Wins(ps), PnlStats.Losses(ps);
      var avgWin := if wins != [] then PnlStats.Sum(wins) / |wins| as real else 0.0;
      var avgLoss := if losses != [] then PnlStats.Sum(losses) / |losses| as real else 0.0;
      var maxDd := Drawdown.MaxDrawdown(initialBalance, equityCurve);
      var profitFactor := if avgLoss != 0.0 then Some(Abs(PnlStats.Sum(wins) / PnlStats.Sum(losses))) else None;
      stats := Some(SimStats(
        |trades|, |wins|, |losses|,
        if |trades| > 0 then |wins| as real / |trades| as real * 100.0 else 0.0,
        PnlStats.Sum(ps),
        (balance - initialBalance) / initialBalance * 100.0,
        avgWin, avgLoss, maxDd, profitFactor));
    }
  }
}
