/**
 * `WebSocketTradingBot`: the live bot driven by market-data callbacks. A
 * closed candle triggers the ordinary signal check; a price update triggers
 * the realtime check, throttled to one
 * check per 10 seconds per symbol and held back for 300 seconds after an
 * entry on that symbol. Both paths need 200 closed candles. The realtime
 * check appends the in-progress candle to a frame built from the kline
 * buffer, and that row is dropped as incomplete, so both paths decide on the
 * closed candles.
 *
 * The exchange (balance, rounding, order outcome) and the clock come in as
 * parameters; the indicator computation is the function `indicators`.
 */
module LiveBot {
  import opened Common
  import opened Bars
  import opened Config
  import opened BotStrategy
  import opened PositionManagement
  import opened MarketStream

  /** Seconds between two realtime checks of the same symbol (`realtime_check_interval`). */
  const RealtimeCheckInterval: real := 10.0
  /** Seconds after an entry before the same symbol is checked again (`signal_cooldown`). */
  const SignalCooldown: real := 300.0
  /** Closed candles needed before a signal is evaluated. */
  const MinKlines: nat := 200

  /** What the exchange answers while a position is opened: the balance, the rounding rules, the orders, the entry time. */
  datatype ExchangeReply = ExchangeReply(
    balance: real,
    roundQuantity: real -> real,
    roundPrice: real -> real,
    outcome: OrderOutcome,
    openedAt: int)

  /** One symbol's initial download: its candles, or `None` when the request raised. */
  datatype Download = Download(symbol: string, candles: Option<seq<Candle>>)

  /** The two timestamp maps of the gate: last realtime check and last realtime entry per symbol. */
  datatype Timers = Timers(lastSignalCheck: map<string, real>, lastEntryTime: map<string, real>)

  /** Which gate of `_on_price_update` stops it, or `CheckNow` when all pass. */
  datatype Gate = NotLoaded | AlreadyHeld | SlotsFull | CoolingDown | Throttled | CheckNow

  // ---------------------------------------------------------------- the initial load

  /** The buffers after `_load_initial_data` has appended every successful download in order. */
  function Preloaded(klines: map<string, seq<Candle>>, downloads: seq<Download>): (r: map<string, seq<Candle>>)
    requires Bounded(klines)
    ensures Bounded(r)
  {
    if downloads == [] then klines
    else
      var before := Preloaded(klines, downloads[..|downloads| - 1]);
      var d := downloads[|downloads| - 1];
      match d.candles
      case None => before
      case Some(cs) => LoadInto(before, d.symbol, cs)
  }

  /** A symbol with no successful download keeps its buffer, or stays without one. */
  lemma {:induction false} PreloadedOthers(klines: map<string, seq<Candle>>, downloads: seq<Download>, s: string)
    requires Bounded(klines)
    requires forall k :: 0 <= k < |downloads| && downloads[k].symbol == s ==> downloads[k].candles.None?
    ensures s in Preloaded(klines, downloads) <==> s in klines
    ensures s in klines ==> Preloaded(klines, downloads)[s] == klines[s]
  {
    if downloads != [] {
      PreloadedOthers(klines, downloads[..|downloads| - 1], s);
    }
  }

  // ---------------------------------------------------------------- the two signal paths

  /**
   * `_on_kline_close`: nothing before the initial load, for a held symbol,
   * with every slot taken, or with fewer than 200 closed candles; otherwise
   * the ordinary signal check and, when it fires, `open_position`.
   */
  function KlineCloseEntry(cfg: TradingConfig, loaded: bool, m: map<string, Position>, klines: seq<Candle>,
                           indicators: seq<Candle> -> seq<Option<Bar>>, symbol: string, ex: ExchangeReply)
    : (result: (Option<Position>, map<string, Position>))
  {
    if !loaded || symbol in m || |m| >= cfg.maxPositions || |klines| < MinKlines then (None, m)
    else match CheckSignal(cfg, klines, indicators)
      case None => (None, m)
      case Some(signal) =>
        Open(cfg, m, symbol, signal, ex.balance, ex.roundQuantity, ex.roundPrice, ex.outcome, ex.openedAt)
  }

  /**
   * `_check_realtime_signal`: nothing with fewer than 200 closed candles or
   * without an in-progress candle; otherwise the realtime signal check on the
   * frame of the kline buffer and, when it fires, `open_position`.
   */
  function RealtimeEntry(cfg: TradingConfig, m: map<string, Position>, klines: seq<Candle>, current: Option<Candle>,
                         indicators: seq<Candle> -> seq<Option<Bar>>, symbol: string, ex: ExchangeReply)
    : (result: (Option<Position>, map<string, Position>))
  {
    if |klines| < MinKlines then (None, m)
    else match current
      case None => (None, m)
      case Some(candle) =>
        match CheckSignalRealtimeOnBuffer(cfg, klines, candle, indicators)
        case None => (None, m)
        case Some(signal) =>
          Open(cfg, m, symbol, signal, ex.balance, ex.roundQuantity, ex.roundPrice, ex.outcome, ex.openedAt)
  }

  /** The symbol's stamp, if any, is at least `wait` seconds old. */
  predicate Rested(stamps: map<string, real>, symbol: string, now: real, wait: real)
  {
    symbol in stamps ==> now - stamps[symbol] >= wait
  }

  /** The gates of `_on_price_update`, in the source's order. */
  function PriceGate(cfg: TradingConfig, loaded: bool, m: map<string, Position>, t: Timers, symbol: string, now: real)
    : (g: Gate)
    ensures g == CheckNow <==>
      && loaded && symbol !in m && |m| < cfg.maxPositions
      && Rested(t.lastEntryTime, symbol, now, SignalCooldown)
      && Rested(t.lastSignalCheck, symbol, now, RealtimeCheckInterval)
  {
    if !loaded then NotLoaded
    else if symbol in m then AlreadyHeld
    else if |m| >= cfg.maxPositions then SlotsFull
    else if symbol in t.lastEntryTime && now - t.lastEntryTime[symbol] < SignalCooldown then CoolingDown
    else if symbol in t.lastSignalCheck && now - t.lastSignalCheck[symbol] < RealtimeCheckInterval then Throttled
    else CheckNow
  }

  /**
   * `_on_price_update` at time `now`: when every gate passes, the check time
   * is recorded and the realtime check runs; a realtime entry stamps
   * `entryClock`, the clock read after the orders went through.
   */
  function PriceUpdate(cfg: TradingConfig, loaded: bool, m: map<string, Position>, t: Timers, klines: seq<Candle>,
                       current: Option<Candle>, indicators: seq<Candle> -> seq<Option<Bar>>, symbol: string,
                       now: real, entryClock: real, ex: ExchangeReply)
    : (result: (Timers, map<string, Position>))
  {
    if PriceGate(cfg, loaded, m, t, symbol, now) != CheckNow then (t, m)
    else
      var (entered, m') := RealtimeEntry(cfg, m, klines, current, indicators, symbol, ex);
      var entries := if entered.Some? then t.lastEntryTime[symbol := entryClock] else t.lastEntryTime;
      (Timers(t.lastSignalCheck[symbol := now], entries), m')
  }

  // ---------------------------------------------------------------- properties

  /**
   * A closed candle opens a position exactly when the bot is loaded, the
   * symbol is free, a slot is free, 200 closed candles exist, the signal
   * fires and `open_position` succeeds; it never touches another symbol.
   */
  lemma KlineCloseCases(cfg: TradingConfig, loaded: bool, m: map<string, Position>, klines: seq<Candle>,
                        indicators: seq<Candle> -> seq<Option<Bar>>, symbol: string, ex: ExchangeReply)
    ensures var (r, m') := KlineCloseEntry(cfg, loaded, m, klines, indicators, symbol, ex);
      && (r.Some? ==> loaded && symbol !in m && |m| < cfg.maxPositions && |klines| >= MinKlines
                      && CheckSignal(cfg, klines, indicators).Some?)
      && (r.None? ==> m' == m)
      && (r.Some? ==> m' == m[symbol := r.value] && r.value.symbol == symbol)
  {
    var (r, m') := KlineCloseEntry(cfg, loaded, m, klines, indicators, symbol, ex);
    if loaded && symbol !in m && |m| < cfg.maxPositions && |klines| >= MinKlines {
      var s := CheckSignal(cfg, klines, indicators);
      if s.Some? {
        OpenCases(cfg, m, symbol, s.value, ex.balance, ex.roundQuantity, ex.roundPrice, ex.outcome, ex.openedAt);
      }
    }
  }

  /**
   * The check record changes exactly when every gate passes; the entry record
   * changes, to `entryClock`, exactly when the realtime check opened a
   * position for the symbol, and positions change only then.
   */
  lemma PriceUpdateStamps(cfg: TradingConfig, loaded: bool, m: map<string, Position>, t: Timers, klines: seq<Candle>,
                          current: Option<Candle>, indicators: seq<Candle> -> seq<Option<Bar>>, symbol: string,
                          now: real, entryClock: real, ex: ExchangeReply)
    ensures var (t', m') := PriceUpdate(cfg, loaded, m, t, klines, current, indicators, symbol, now, entryClock, ex);
      var pass := PriceGate(cfg, loaded, m, t, symbol, now) == CheckNow;
      var entered := symbol !in m && symbol in m';
      && t'.lastSignalCheck == (if pass then t.lastSignalCheck[symbol := now] else t.lastSignalCheck)
      && t'.lastEntryTime == (if entered then t.lastEntryTime[symbol := entryClock] else t.lastEntryTime)
      && (entered ==> pass && m'.Keys == m.Keys + {symbol})
      && (!entered ==> m' == m)
  {
    RealtimeEntryCases(cfg, m, klines, current, indicators, symbol, ex);
  }

  /** The realtime path either leaves the positions alone or adds the opened one under its symbol. */
  lemma RealtimeEntryCases(cfg: TradingConfig, m: map<string, Position>, klines: seq<Candle>, current: Option<Candle>,
                           indicators: seq<Candle> -> seq<Option<Bar>>, symbol: string, ex: ExchangeReply)
    ensures var (r, m') := RealtimeEntry(cfg, m, klines, current, indicators, symbol, ex);
      && (r.None? ==> m' == m)
      && (r.Some? ==> symbol !in m && m' == m[symbol := r.value])
  {
    if |klines| >= MinKlines && current.Some? {
      var s := CheckSignalRealtimeOnBuffer(cfg, klines, current.value, indicators);
      if s.Some? {
        OpenCases(cfg, m, symbol, s.value, ex.balance, ex.roundQuantity, ex.roundPrice, ex.outcome, ex.openedAt);
      }
    }
  }

  /**
   * After a passing update at `now`, any update of the same symbol less than
   * 10 seconds later changes nothing, whatever happened to the positions
   * in between.
   */
  lemma ThrottleAfterCheck(cfg: TradingConfig, loaded: bool, m: map<string, Position>, t: Timers, klines: seq<Candle>,
                           current: Option<Candle>, indicators: seq<Candle> -> seq<Option<Bar>>, symbol: string,
                           now: real, entryClock: real, ex: ExchangeReply,
                           m2: map<string, Position>, klines2: seq<Candle>, current2: Option<Candle>,
                           later: real, entryClock2: real, ex2: ExchangeReply)
    requires PriceGate(cfg, loaded, m, t, symbol, now) == CheckNow
    requires later - now < RealtimeCheckInterval
    ensures var t' := PriceUpdate(cfg, loaded, m, t, klines, current, indicators, symbol, now, entryClock, ex).0;
      PriceUpdate(cfg, loaded, m2, t', klines2, current2, indicators, symbol, later, entryClock2, ex2) == (t', m2)
  {
    PriceUpdateStamps(cfg, loaded, m, t, klines, current, indicators, symbol, now, entryClock, ex);
  }

  /**
   * After a realtime entry stamped at `entryClock`, even once the position is
   * closed again, updates of that symbol less than 300 seconds later change
   * nothing.
   */
  lemma CooldownAfterEntry(cfg: TradingConfig, loaded: bool, m: map<string, Position>, t: Timers, klines: seq<Candle>,
                           current: Option<Candle>, indicators: seq<Candle> -> seq<Option<Bar>>, symbol: string,
                           now: real, entryClock: real, ex: ExchangeReply,
                           m2: map<string, Position>, klines2: seq<Candle>, current2: Option<Candle>,
                           later: real, entryClock2: real, ex2: ExchangeReply)
    requires symbol in PriceUpdate(cfg, loaded, m, t, klines, current, indicators, symbol, now, entryClock, ex).1
    requires symbol !in m
    requires later - entryClock < SignalCooldown
    ensures var t' := PriceUpdate(cfg, loaded, m, t, klines, current, indicators, symbol, now, entryClock, ex).0;
      PriceUpdate(cfg, loaded, m2, t', klines2, current2, indicators, symbol, later, entryClock2, ex2) == (t', m2)
  {
    PriceUpdateStamps(cfg, loaded, m, t, klines, current, indicators, symbol, now, entryClock, ex);
  }

  /** With fewer than 200 closed candles neither path opens anything or stamps an entry. */
  lemma HistoryGuard(cfg: TradingConfig, loaded: bool, m: map<string, Position>, t: Timers, klines: seq<Candle>,
                     current: Option<Candle>, indicators: seq<Candle> -> seq<Option<Bar>>, symbol: string,
                     now: real, entryClock: real, ex: ExchangeReply)
    requires |klines| < MinKlines
    ensures KlineCloseEntry(cfg, loaded, m, klines, indicators, symbol, ex) == (None, m)
    ensures var (t', m') := PriceUpdate(cfg, loaded, m, t, klines, current, indicators, symbol, now, entryClock, ex);
      m' == m && t'.lastEntryTime == t.lastEntryTime
  {
  }

  /** Neither path can take the positions past `max_positions`. */
  lemma EntriesKeepLimit(cfg: TradingConfig, loaded: bool, m: map<string, Position>, t: Timers, klines: seq<Candle>,
                         current: Option<Candle>, indicators: seq<Candle> -> seq<Option<Bar>>, symbol: string,
                         now: real, entryClock: real, ex: ExchangeReply)
    requires WithinLimit(cfg, m) && KeyedBySymbol(m)
    ensures var m' := KlineCloseEntry(cfg, loaded, m, klines, indicators, symbol, ex).1;
      WithinLimit(cfg, m') && KeyedBySymbol(m')
    ensures var m' := PriceUpdate(cfg, loaded, m, t, klines, current, indicators, symbol, now, entryClock, ex).1;
      WithinLimit(cfg, m') && KeyedBySymbol(m')
  {
    KlineCloseKeepsLimit(cfg, loaded, m, klines, indicators, symbol, ex);
    RealtimeKeepsLimit(cfg, m, klines, current, indicators, symbol, ex);
  }

  /** The kline-close path keeps the position limit and the keying by symbol. */
  lemma KlineCloseKeepsLimit(cfg: TradingConfig, loaded: bool, m: map<string, Position>, klines: seq<Candle>,
                             indicators: seq<Candle> -> seq<Option<Bar>>, symbol: string, ex: ExchangeReply)
    requires WithinLimit(cfg, m) && KeyedBySymbol(m)
    ensures var m' := KlineCloseEntry(cfg, loaded, m, klines, indicators, symbol, ex).1;
      WithinLimit(cfg, m') && KeyedBySymbol(m')
  {
    var s := CheckSignal(cfg, klines, indicators);
    if s.Some? {
      OpenKeepsInvariant(cfg, m, symbol, s.value, ex.balance, ex.roundQuantity, ex.roundPrice, ex.outcome, ex.openedAt);
    }
  }

  /**
   * Past its gates (a free symbol, a free slot) the realtime path enters
   * exactly as the closed-candle path would on the same buffer, whatever the
   * in-progress candle, as long as the indicator rows of the closed candles
   * do not depend on a later candle.
   */
  lemma RealtimeEntryAsOnClose(cfg: TradingConfig, m: map<string, Position>, klines: seq<Candle>, current: Candle,
                               indicators: seq<Candle> -> seq<Option<Bar>>, symbol: string, ex: ExchangeReply)
    requires symbol !in m && |m| < cfg.maxPositions
    requires |indicators(klines + [current])| == |klines| + 1
    requires indicators(klines + [current])[..|klines|] == indicators(klines)
    ensures RealtimeEntry(cfg, m, klines, Some(current), indicators, symbol, ex)
         == KlineCloseEntry(cfg, true, m, klines, indicators, symbol, ex)
  {
    BufferRealtimeDecidesOnClosed(cfg, klines, current, indicators);
  }

  /** The realtime path keeps the position limit and the keying by symbol. */
  lemma RealtimeKeepsLimit(cfg: TradingConfig, m: map<string, Position>, klines: seq<Candle>, current: Option<Candle>,
                           indicators: seq<Candle> -> seq<Option<Bar>>, symbol: string, ex: ExchangeReply)
    requires WithinLimit(cfg, m) && KeyedBySymbol(m)
    ensures var m' := RealtimeEntry(cfg, m, klines, current, indicators, symbol, ex).1;
      WithinLimit(cfg, m') && KeyedBySymbol(m')
  {
    if current.Some? {
      var s := CheckSignalRealtimeOnBuffer(cfg, klines, current.value, indicators);
      if s.Some? {
        OpenKeepsInvariant(cfg, m, symbol, s.value, ex.balance, ex.roundQuantity, ex.roundPrice, ex.outcome, ex.openedAt);
      }
    }
  }

  // ---------------------------------------------------------------- the bot object

  class WsTradingBot {
    const config: TradingConfig
    const indicators: seq<Candle> -> seq<Option<Bar>>
    const market: MarketDataClient
    const manager: PositionManager
    var initialDataLoaded: bool
    var lastSignalCheck: map<string, real>
    var lastEntryTime: map<string, real>

    ghost predicate Valid()
      reads this, market, manager
    {
      market.Valid() && manager.Valid() && manager.config == config
    }

    constructor(config: TradingConfig, indicators: seq<Candle> -> seq<Option<Bar>>)
      ensures Valid() && fresh(market) && fresh(manager)
      ensures this.config == config && this.indicators == indicators
      ensures market.klines == map[] && manager.positions == map[]
      ensures !initialDataLoaded && lastSignalCheck == map[] && lastEntryTime == map[]
    {
      this.config := config;
      this.indicators := indicators;
      market := new MarketDataClient(config);
      manager := new PositionManager(config);
      initialDataLoaded := false;
      lastSignalCheck := map[];
      lastEntryTime := map[];
    }

    /** `_load_initial_data`: append every successful download, then mark the bot loaded. */
    method LoadInitialData(downloads: seq<Download>)
      requires Valid()
      modifies this, market
      ensures Valid() && initialDataLoaded
      ensures market.klines == Preloaded(old(market.klines), downloads)
      ensures market.currentCandles == old(market.currentCandles) && market.currentPrices == old(market.currentPrices)
      ensures lastSignalCheck == old(lastSignalCheck) && lastEntryTime == old(lastEntryTime)
    {
      var k := 0;
      while k < |downloads|
        invariant 0 <= k <= |downloads|
        invariant Valid()
        invariant market.klines == Preloaded(old(market.klines), downloads[..k])
        invariant market.currentCandles == old(market.currentCandles) && market.currentPrices == old(market.currentPrices)
        invariant lastSignalCheck == old(lastSignalCheck) && lastEntryTime == old(lastEntryTime)
      {
        assert downloads[..k + 1][..k] == downloads[..k];
        match downloads[k].candles {
          case None =>
          case Some(cs) =>
            market.Preload(downloads[k].symbol, cs);
        }
        k := k + 1;
      }
      assert downloads[..k] == downloads;
      initialDataLoaded := true;
    }

    /** `_on_kline_close`: the entry timers are never touched on this path. */
    method OnKlineClose(symbol: string, ex: ExchangeReply) returns (entered: Option<Position>)
      requires Valid()
      modifies manager
      ensures Valid()
      ensures (entered, manager.positions)
        == KlineCloseEntry(config, initialDataLoaded, old(manager.positions), market.GetKlines(symbol), indicators, symbol, ex)
      ensures lastEntryTime == old(lastEntryTime) && lastSignalCheck == old(lastSignalCheck)
    {
      entered := None;
      if !initialDataLoaded {
        return;
      }
      if manager.HasPosition(symbol) {
        return;
      }
      if manager.PositionCount() >= config.maxPositions {
        return;
      }
      var klines := market.GetKlines(symbol);
      if |klines| < MinKlines {
        return;
      }
      var signal := CheckSignal(config, klines, indicators);
      if signal.Some? {
        entered := manager.OpenPosition(symbol, signal.value, ex.balance, ex.roundQuantity, ex.roundPrice,
                                       ex.outcome, ex.openedAt);
      }
    }

    /** `_on_price_update` at time `now`; `entryClock` is the clock read after a realtime entry. */
    method OnPriceUpdate(symbol: string, now: real, entryClock: real, ex: ExchangeReply)
      requires Valid()
      modifies this, manager
      ensures Valid()
      ensures (Timers(lastSignalCheck, lastEntryTime), manager.positions)
        == PriceUpdate(config, initialDataLoaded, old(manager.positions), old(Timers(lastSignalCheck, lastEntryTime)),
                       market.GetKlines(symbol), market.GetCurrentCandle(symbol), indicators, symbol, now, entryClock, ex)
      ensures initialDataLoaded == old(initialDataLoaded)
    {
      if !initialDataLoaded {
        return;
      }
      if manager.HasPosition(symbol) {
        return;
      }
      if manager.PositionCount() >= config.maxPositions {
        return;
      }
      if symbol in lastEntryTime && now - lastEntryTime[symbol] < SignalCooldown {
        return;
      }
      if symbol in lastSignalCheck && now - lastSignalCheck[symbol] < RealtimeCheckInterval {
        return;
      }
      lastSignalCheck := lastSignalCheck[symbol := now];
      var _ := CheckRealtimeSignal(symbol, entryClock, ex);
    }

    /** `_check_realtime_signal`: a successful entry starts the symbol's cooldown. */
    method CheckRealtimeSignal(symbol: string, entryClock: real, ex: ExchangeReply) returns (entered: Option<Position>)
      requires Valid()
      modifies this, manager
      ensures Valid()
      ensures (entered, manager.positions)
        == RealtimeEntry(config, old(manager.positions), market.GetKlines(symbol), market.GetCurrentCandle(symbol),
                         indicators, symbol, ex)
      ensures lastEntryTime == if entered.Some? then old(lastEntryTime)[symbol := entryClock] else old(lastEntryTime)
      ensures lastSignalCheck == old(lastSignalCheck) && initialDataLoaded == old(initialDataLoaded)
    {
      entered := None;
      var klines := market.GetKlines(symbol);
      if |klines| < MinKlines {
        return;
      }
      var current := market.GetCurrentCandle(symbol);
      if current.None? {
        return;
      }
      var signal := CheckSignalRealtimeOnBuffer(config, klines, current.value, indicators);
      if signal.Some? {
        entered := manager.OpenPosition(symbol, signal.value, ex.balance, ex.roundQuantity, ex.roundPrice,
                                       ex.outcome, ex.openedAt);
        if entered.Some? {
          lastEntryTime := lastEntryTime[symbol := entryClock];
        }
      }
    }
  }
}
