/**
 * `BacktestEngine.run`: one pass over the bars from index 50, holding at most
 * one open trade. On every bar the exit check comes first, then (when flat)
 * the strategy is asked for a signal on the bars seen so far, then one equity
 * sample is recorded. A trade still open at the end is closed at the last
 * close, without touching the balance.
 *
 * `Loop` is the specification of the pass as a fold over the bar indices;
 * the method `Run` performs it with local state and is proved equal to it.
 */
module Engine {
  import opened Common
  import opened Bars
  import opened Trades
  import opened Metrics
  import Strategies

  /** Bars skipped at the start so that the indicators are warmed up. */
  const StartIndex: nat := 50

  /**
   * A strategy as the engine sees it: a name, and the signal it gives for the
   * bars seen so far (the source's `BaseStrategy.check_signal`).
   */
  datatype Strategy = Strategy(name: string, signal: seq<Bar> -> Option<Strategies.Signal>)

  /** One of the two backtest strategies, as the engine sees it. */
  function Of(kind: Strategies.StrategyKind): (s: Strategy)
    ensures s.name == Strategies.Name(kind)
    ensures forall w :: s.signal(w) == Strategies.CheckSignal(kind, w)
  {
    Strategy(Strategies.Name(kind), w => Strategies.CheckSignal(kind, w))
  }

  /** The variables of the pass: cash balance, the open trade, closed trades, equity history. */
  datatype RunState = RunState(
    balance: real,
    open: Option<Trade>,
    trades: seq<Trade>,
    history: seq<EquitySample>)

  function Init(cfg: EngineConfig): RunState
  {
    RunState(cfg.initialBalance, None, [], [])
  }

  /** The trade side a signal opens; the engine's `else` branch treats anything but long as short. */
  function SideOf(side: Strategies.SignalSide): Side
  {
    if side == Strategies.LongSide then Long else Short
  }

  /** Step 1 of a bar: close the open trade at its take-profit or stop-loss if the bar reaches one. */
  function ExitPhase(cfg: EngineConfig, bar: Bar, s: RunState): RunState
  {
    match s.open
    case None => s
    case Some(t) =>
      match CheckExit(t, bar)
      case None => s
      case Some((price, reason)) =>
        var closed := CloseAt(cfg, t, bar.timestamp, price, reason);
        s.(balance := s.balance + closed.pnl, open := None, trades := s.trades + [closed])
  }

  /** Step 2 of bar i: when flat, open on a signal computed from bars 0..i whose stop is off the entry. */
  function EntryPhase(cfg: EngineConfig, strategy: Strategy, symbol: string,
                      bars: seq<Bar>, i: nat, s: RunState): RunState
    requires i < |bars|
  {
    if s.open.Some? then s
    else
      match strategy.signal(bars[..i + 1])
      case None => s
      case Some(sig) =>
        if sig.side == Strategies.NoSide then s
        else
          match Size(cfg, s.balance, sig)
          case None => s
          case Some(quantity) =>
            s.(open := Some(Open(cfg, symbol, bars[i].timestamp, SideOf(sig.side), sig, quantity)))
  }

  /** Step 3 of a bar: record balance and mark-to-market equity at the bar's close. */
  function Record(cfg: EngineConfig, bar: Bar, s: RunState): RunState
  {
    s.(history := s.history + [EquitySample(bar.timestamp, s.balance, Equity(cfg, s.balance, s.open, bar.close))])
  }

  function Step(cfg: EngineConfig, strategy: Strategy, symbol: string,
                bars: seq<Bar>, i: nat, s: RunState): RunState
    requires i < |bars|
  {
    Record(cfg, bars[i], EntryPhase(cfg, strategy, symbol, bars, i, ExitPhase(cfg, bars[i], s)))
  }

  /** The state after the bars with index below n have been processed. */
  function Loop(cfg: EngineConfig, strategy: Strategy, symbol: string,
                bars: seq<Bar>, n: nat): RunState
    requires n <= |bars|
  {
    if n <= StartIndex then Init(cfg)
    else Step(cfg, strategy, symbol, bars, n - 1, Loop(cfg, strategy, symbol, bars, n - 1))
  }

  /** The trades reported: the closed ones, then the leftover trade closed at the last bar with reason End. */
  function FinalTrades(cfg: EngineConfig, bars: seq<Bar>, s: RunState): seq<Trade>
    requires s.open.Some? ==> |bars| > 0
  {
    match s.open
    case None => s.trades
    case Some(t) =>
      var last := bars[|bars| - 1];
      s.trades + [CloseAt(cfg, t, last.timestamp, last.close, End)]
  }

  /**
   * The result of a run; `None` where the source divides by a zero initial
   * balance (a zero balance that still produced a trade).
   */
  function Backtest(cfg: EngineConfig, strategy: Strategy, symbol: string,
                    bars: seq<Bar>): Option<BacktestResult>
  {
    var s := Loop(cfg, strategy, symbol, bars, |bars|);
    OpenOnlyAfterStart(cfg, strategy, symbol, bars, |bars|);
    var trades := FinalTrades(cfg, bars, s);
    if trades != [] && cfg.initialBalance == 0.0 then None
    else Some(Calculate(cfg, strategy.name, symbol, trades, s.history, bars))
  }

  /** Nothing is open, closed or recorded before the first processed bar. */
  lemma {:induction false} OpenOnlyAfterStart(cfg: EngineConfig, strategy: Strategy, symbol: string,
                                              bars: seq<Bar>, n: nat)
    requires n <= |bars|
    ensures var s := Loop(cfg, strategy, symbol, bars, n);
      (s.open.Some? || s.trades != [] || s.history != []) ==> n > StartIndex
  {
  }

  /**
   * `run`: the same pass with the source's local variables, proved equal to
   * the fold and the metrics over its outcome.
   */
  method Run(cfg: EngineConfig, strategy: Strategy, symbol: string, bars: seq<Bar>)
    returns (result: Option<BacktestResult>)
    ensures result == Backtest(cfg, strategy, symbol, bars)
  {
    var balance := cfg.initialBalance;
    var open: Option<Trade> := None;
    var trades: seq<Trade> := [];
    var history: seq<EquitySample> := [];
    var i := StartIndex;
    while i < |bars|
      invariant StartIndex <= i && (i <= |bars| || |bars| < StartIndex)
      invariant RunState(balance, open, trades, history)
                == Loop(cfg, strategy, symbol, bars, if i <= |bars| then i else |bars|)
    {
      var bar := bars[i];
      balance, open, trades := ExitBar(cfg, bar, balance, open, trades, history);
      open := EnterBar(cfg, strategy, symbol, bars, i, balance, open, trades, history);
      history := history + [EquitySample(bar.timestamp, balance, Equity(cfg, balance, open, bar.close))];
      i := i + 1;
    }
    OpenOnlyAfterStart(cfg, strategy, symbol, bars, |bars|);
    if open.Some? {
      var last := bars[|bars| - 1];
      trades := trades + [CloseAt(cfg, open.value, last.timestamp, last.close, End)];
    }
    if trades != [] && cfg.initialBalance == 0.0 {
      result := None;
    } else {
      result := Some(Calculate(cfg, strategy.name, symbol, trades, history, bars));
    }
  }

  /** Step 1 of `run`'s loop body on local variables. */
  method ExitBar(cfg: EngineConfig, bar: Bar, balance: real, open: Option<Trade>, trades: seq<Trade>,
                 ghost history: seq<EquitySample>)
    returns (balance': real, open': Option<Trade>, trades': seq<Trade>)
    ensures RunState(balance', open', trades', history) == ExitPhase(cfg, bar, RunState(balance, open, trades, history))
  {
    balance', open', trades' := balance, open, trades;
    if open.Some? {
      var exit := CheckExit(open.value, bar);
      if exit.Some? {
        var closed := CloseAt(cfg, open.value, bar.timestamp, exit.value.0, exit.value.1);
        trades' := trades + [closed];
        balance' := balance + closed.pnl;
        open' := None;
      }
    }
  }

  /** Step 2 of `run`'s loop body on local variables: the new open trade, if any. */
  method EnterBar(cfg: EngineConfig, strategy: Strategy, symbol: string, bars: seq<Bar>, i: nat,
                  balance: real, open: Option<Trade>, trades: seq<Trade>, ghost history: seq<EquitySample>)
    returns (open': Option<Trade>)
    requires i < |bars|
    ensures RunState(balance, open', trades, history)
            == EntryPhase(cfg, strategy, symbol, bars, i, RunState(balance, open, trades, history))
  {
    open' := open;
    if open.None? {
      var signal := strategy.signal(bars[..i + 1]);
      if signal.Some? && signal.value.side != Strategies.NoSide {
        var quantity := Size(cfg, balance, signal.value);
        if quantity.Some? {
          open' := Some(Open(cfg, symbol, bars[i].timestamp, SideOf(signal.value.side), signal.value, quantity.value));
        }
      }
    }
  }

  /** `compare_strategies`: one run per strategy over the same bars, in the given order. */
  method CompareStrategies(cfg: EngineConfig, strategies: seq<Strategy>, symbol: string, bars: seq<Bar>)
    returns (results: seq<Option<BacktestResult>>)
    ensures |results| == |strategies|
    ensures forall k :: 0 <= k < |strategies| ==> results[k] == Backtest(cfg, strategies[k], symbol, bars)
  {
    results := [];
    var j := 0;
    while j < |strategies|
      invariant j <= |strategies| && |results| == j
      invariant forall k :: 0 <= k < j ==> results[k] == Backtest(cfg, strategies[k], symbol, bars)
    {
      var r := Run(cfg, strategies[j], symbol, bars);
      ghost var done := results;
      results := results + [r];
      assert results[..j] == done;
      j := j + 1;
    }
  }

  // ---------------------------------------------------------------- properties

  /** The accounting invariant of the pass. */
  predicate Booked(cfg: EngineConfig, s: RunState)
  {
    && s.balance == cfg.initialBalance + SumPnl(s.trades)
    && (forall k :: 0 <= k < |s.trades| ==> IsClosed(s.trades[k]) && s.trades[k].exitReason != Some(End))
    && (s.open.Some? ==> !IsClosed(s.open.value))
  }

  lemma ExitPhaseBooks(cfg: EngineConfig, bar: Bar, s: RunState)
    requires Booked(cfg, s)
    ensures Booked(cfg, ExitPhase(cfg, bar, s)) && ExitPhase(cfg, bar, s).history == s.history
  {
    if s.open.Some? && CheckExit(s.open.value, bar).Some? {
      var x := CheckExit(s.open.value, bar).value;
      var closed := CloseAt(cfg, s.open.value, bar.timestamp, x.0, x.1);
      SumPnlAppend(s.trades, [closed]);
      assert ExitPhase(cfg, bar, s).trades == s.trades + [closed];
    }
  }

  lemma StepBooks(cfg: EngineConfig, strategy: Strategy, symbol: string,
                  bars: seq<Bar>, i: nat, s: RunState)
    requires i < |bars| && Booked(cfg, s)
    ensures var after := Step(cfg, strategy, symbol, bars, i, s);
      Booked(cfg, after) && after.history == s.history + [after.history[|s.history|]]
      && after.history[|s.history|].timestamp == bars[i].timestamp
  {
    ExitPhaseBooks(cfg, bars[i], s);
    var e := ExitPhase(cfg, bars[i], s);
    var en := EntryPhase(cfg, strategy, symbol, bars, i, e);
    assert en.trades == e.trades && en.balance == e.balance && en.history == e.history;
  }

  /** One equity sample per bar processed since index 50, each stamped with its bar's time. */
  ghost predicate Sampled(bars: seq<Bar>, s: RunState, n: nat)
  {
    && |s.history| == (if n <= StartIndex then 0 else n - StartIndex)
    && forall k :: 0 <= k < |s.history| ==>
         StartIndex + k < |bars| && s.history[k].timestamp == bars[StartIndex + k].timestamp
  }

  lemma StepInvariant(cfg: EngineConfig, strategy: Strategy, symbol: string, bars: seq<Bar>, i: nat, p: RunState,
                      s: RunState)
    requires StartIndex <= i < |bars| && Booked(cfg, p) && Sampled(bars, p, i)
    requires s == Step(cfg, strategy, symbol, bars, i, p)
    ensures Booked(cfg, s) && Sampled(bars, s, i + 1)
  {
    StepBooks(cfg, strategy, symbol, bars, i, p);
    forall k | 0 <= k < |s.history|
      ensures StartIndex + k < |bars| && s.history[k].timestamp == bars[StartIndex + k].timestamp
    {
      if k < |p.history| {
        assert s.history[k] == p.history[k];
      }
    }
  }

  /**
   * What the pass maintains: the balance is the initial balance plus the PnL of
   * the closed trades; there is one equity sample per processed bar, stamped
   * with that bar's time; every closed trade left on take-profit or stop-loss;
   * the open trade, if any, is not closed.
   */
  lemma {:induction false} LoopInvariant(cfg: EngineConfig, strategy: Strategy, symbol: string,
                                         bars: seq<Bar>, n: nat)
    requires n <= |bars|
    ensures var s := Loop(cfg, strategy, symbol, bars, n);
      && Booked(cfg, s)
      && |s.history| == (if n <= StartIndex then 0 else n - StartIndex)
      && (forall k :: 0 <= k < |s.history| ==> s.history[k].timestamp == bars[StartIndex + k].timestamp)
  {
    LoopSampled(cfg, strategy, symbol, bars, n, Loop(cfg, strategy, symbol, bars, n));
  }

  lemma {:induction false} LoopSampled(cfg: EngineConfig, strategy: Strategy, symbol: string, bars: seq<Bar>, n: nat,
                                       v: RunState)
    requires n <= |bars| && v == Loop(cfg, strategy, symbol, bars, n)
    ensures Booked(cfg, v) && Sampled(bars, v, n)
  {
    if n > StartIndex {
      var u := Loop(cfg, strategy, symbol, bars, n - 1);
      LoopSampled(cfg, strategy, symbol, bars, n - 1, u);
      LoopStepInvariant(cfg, strategy, symbol, bars, n, u, v);
    }
  }

  lemma LoopStepInvariant(cfg: EngineConfig, strategy: Strategy, symbol: string, bars: seq<Bar>, n: nat,
                          u: RunState, v: RunState)
    requires StartIndex < n <= |bars|
    requires u == Loop(cfg, strategy, symbol, bars, n - 1) && v == Loop(cfg, strategy, symbol, bars, n)
    requires Booked(cfg, u) && Sampled(bars, u, n - 1)
    ensures Booked(cfg, v) && Sampled(bars, v, n)
  {
    StepInvariant(cfg, strategy, symbol, bars, n - 1, u, v);
  }

  /** Decisions up to bar n depend only on bars 0..n-1: the strategy never sees the future. */
  lemma {:induction false} NoLookahead(cfg: EngineConfig, strategy: Strategy, symbol: string,
                                       bars1: seq<Bar>, bars2: seq<Bar>, n: nat)
    requires n <= |bars1| && n <= |bars2| && bars1[..n] == bars2[..n]
    ensures Loop(cfg, strategy, symbol, bars1, n) == Loop(cfg, strategy, symbol, bars2, n)
  {
    if n > StartIndex {
      assert bars1[..n - 1] == bars1[..n][..n - 1];
      assert bars2[..n - 1] == bars2[..n][..n - 1];
      NoLookahead(cfg, strategy, symbol, bars1, bars2, n - 1);
      assert bars1[n - 1] == bars1[..n][n - 1];
      assert bars2[n - 1] == bars2[..n][n - 1];
    }
  }

  /** With no more than 50 bars nothing is traded or recorded: the all-default result. */
  lemma ShortInputGivesDefaults(cfg: EngineConfig, strategy: Strategy, symbol: string, bars: seq<Bar>)
    requires |bars| <= StartIndex
    ensures Backtest(cfg, strategy, symbol, bars) == Some(Empty(strategy.name, symbol, []))
  {
  }

  /**
   * The forced close at the end of data is reported but never booked: the
   * reported total return is the balance's gain plus that last trade's PnL, and
   * it is the only trade with reason End, always in last place.
   */
  lemma ForcedCloseNotBooked(cfg: EngineConfig, strategy: Strategy, symbol: string, bars: seq<Bar>)
    requires cfg.initialBalance != 0.0
    ensures var s := Loop(cfg, strategy, symbol, bars, |bars|);
      var trades := FinalTrades(cfg, bars, s);
      var r := Backtest(cfg, strategy, symbol, bars);
      && r.Some?
      && r.value.totalReturn
         == s.balance - cfg.initialBalance + (if s.open.Some? then trades[|trades| - 1].pnl else 0.0)
      && (forall k :: 0 <= k < |trades| ==>
            (trades[k].exitReason == Some(End) <==> (s.open.Some? && k == |trades| - 1)))
  {
    var s := Loop(cfg, strategy, symbol, bars, |bars|);
    OpenOnlyAfterStart(cfg, strategy, symbol, bars, |bars|);
    LoopInvariant(cfg, strategy, symbol, bars, |bars|);
    FinalTradesBooked(cfg, bars, s);
    CountsPartition(cfg, strategy.name, symbol, FinalTrades(cfg, bars, s), s.history, bars);
  }

  /** The reported trades of a booked state: their PnL is the balance's gain plus the forced close's, which alone has reason End. */
  lemma FinalTradesBooked(cfg: EngineConfig, bars: seq<Bar>, s: RunState)
    requires s.open.Some? ==> |bars| > 0
    requires Booked(cfg, s)
    ensures var trades := FinalTrades(cfg, bars, s);
      && SumPnl(trades) == s.balance - cfg.initialBalance + (if s.open.Some? then trades[|trades| - 1].pnl else 0.0)
      && (forall k :: 0 <= k < |trades| ==>
            (trades[k].exitReason == Some(End) <==> (s.open.Some? && k == |trades| - 1)))
  {
    var trades := FinalTrades(cfg, bars, s);
    if s.open.Some? {
      SumPnlAppend(s.trades, [trades[|trades| - 1]]);
      assert trades == s.trades + [trades[|trades| - 1]];
    }
  }

  /**
   * Exit is checked before entry, so a trade closed on bar i is replaced on
   * the same bar when the strategy signals there.
   */
  lemma ReopenOnSameBar(cfg: EngineConfig, strategy: Strategy, symbol: string,
                        bars: seq<Bar>, i: nat, s: RunState, sig: Strategies.Signal)
    requires i < |bars| && s.open.Some? && CheckExit(s.open.value, bars[i]).Some?
    requires strategy.signal(bars[..i + 1]) == Some(sig)
    requires sig.side != Strategies.NoSide && sig.entryPrice != sig.slPrice
    ensures var after := Step(cfg, strategy, symbol, bars, i, s);
      && |after.trades| == |s.trades| + 1
      && after.trades[|s.trades|].exitTime == Some(bars[i].timestamp)
      && after.open.Some? && after.open.value.entryTime == bars[i].timestamp
      && after.open.value.entryPrice == sig.entryPrice
  {
  }

  /** A trade is never closed on the bar it was opened on: a flat bar closes nothing. */
  lemma FlatBarClosesNothing(cfg: EngineConfig, strategy: Strategy, symbol: string,
                             bars: seq<Bar>, i: nat, s: RunState)
    requires i < |bars| && s.open.None?
    ensures var after := Step(cfg, strategy, symbol, bars, i, s);
      after.trades == s.trades && after.balance == s.balance
      && after.history[|after.history| - 1].equity
         == (if after.open.None? then s.balance else Equity(cfg, s.balance, after.open, bars[i].close))
  {
  }
}
