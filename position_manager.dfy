/**
 * `PositionManager`: the live bot's record of its open positions, one per
 * symbol. Opening checks the symbol, the slot limit and the risk-based size
 * before placing orders; closing and exchange reconciliation only remove
 * entries or overwrite their price and size.
 *
 * The exchange is not modelled: the USDT balance, the exchange's rounding of
 * quantities and prices, whether the order calls succeed, the order ids and
 * the clock are inputs.
 */
module PositionManagement {
  import opened Common
  import opened Config
  import opened BotStrategy

  /** One tracked position; `side` is the type of the signal that opened it. */
  datatype Position = Position(
    symbol: string,
    side: SignalType,
    entryPrice: real,
    quantity: real,
    takeProfit: real,
    stopLoss: real,
    entryTime: int,
    tpOrderId: string,
    slOrderId: string)

  /** What the order calls of `open_position` came to: the TP/SL order ids, or an exception. */
  datatype OrderOutcome = Placed(tpOrderId: string, slOrderId: string) | Failed

  /** One entry of the exchange's position list. */
  datatype ExchangePosition = ExchangePosition(symbol: string, entryPrice: real, size: real)

  /** The part of a position `get_status` shows. */
  datatype PositionView = PositionView(
    side: SignalType, entryPrice: real, quantity: real, takeProfit: real, stopLoss: real, entryTime: int)

  /** The dictionary `get_status` returns. */
  datatype Status = Status(positionCount: nat, maxPositions: int, positions: map<string, PositionView>)

  // ---------------------------------------------------------------- sizing

  /**
   * The size that risks `balance * risk_per_trade` between entry and stop,
   * before the exchange rounds it: the source divides the risk by the stop
   * distance as a fraction of the entry, then by the entry again.
   */
  function RawQuantity(cfg: TradingConfig, balance: real, entry: Price, stopLoss: real): (q: real)
    requires entry != stopLoss
    ensures q * Abs(entry - stopLoss) == balance * cfg.riskPerTrade
  {
    var stopDistance := Abs(entry - stopLoss) / entry;
    var positionValue := balance * cfg.riskPerTrade / stopDistance;
    positionValue / entry
  }

  /**
   * `calculate_position_size`: 0 when the balance is not positive, when the
   * stop sits on the entry, or when the rounded size is not positive;
   * otherwise the rounded risk-based size.
   */
  function PositionSize(cfg: TradingConfig, balance: real, entry: Price, stopLoss: real,
                        roundQuantity: real -> real): (q: real)
    ensures q >= 0.0
    ensures balance <= 0.0 || entry == stopLoss ==> q == 0.0
    ensures q > 0.0 <==> balance > 0.0 && entry != stopLoss
                         && roundQuantity(RawQuantity(cfg, balance, entry, stopLoss)) > 0.0
    ensures q > 0.0 ==> q == roundQuantity(RawQuantity(cfg, balance, entry, stopLoss))
  {
    if balance <= 0.0 then 0.0
    else
      var stopDistance := Abs(entry - stopLoss) / entry;
      if stopDistance <= 0.0 then 0.0
      else
        var quantity := roundQuantity(RawQuantity(cfg, balance, entry, stopLoss));
        if quantity <= 0.0 then 0.0 else quantity
  }

  // ---------------------------------------------------------------- the map operations as functions

  /**
   * `open_position` on the map `m`: the guards in order (symbol held, slots
   * full, size not positive), then the orders; on success the new position
   * with the exchange-rounded TP/SL is stored under the symbol.
   */
  function Open(cfg: TradingConfig, m: map<string, Position>, symbol: string, signal: BotSignal, balance: real,
                roundQuantity: real -> real, roundPrice: real -> real, outcome: OrderOutcome, now: int)
    : (result: (Option<Position>, map<string, Position>))
  {
    if symbol in m then (None, m)
    else if |m| >= cfg.maxPositions then (None, m)
    else
      var quantity := PositionSize(cfg, balance, signal.entryPrice, signal.stopLoss, roundQuantity);
      if quantity <= 0.0 then (None, m)
      else match outcome
        case Failed => (None, m)
        case Placed(tpId, slId) =>
          var position := Position(symbol, signal.kind, signal.entryPrice, quantity,
                                   roundPrice(signal.takeProfit), roundPrice(signal.stopLoss), now, tpId, slId);
          (Some(position), m[symbol := position])
  }

  /** `close_position` on the map: the symbol's entry is dropped only when it exists and the orders went through. */
  function Close(m: map<string, Position>, symbol: string, ordersSucceed: bool): (bool, map<string, Position>)
  {
    if symbol !in m then (false, m)
    else if ordersSucceed then (true, m - {symbol})
    else (false, m)
  }

  /** Whether the exchange lists a position for `symbol`. */
  predicate Listed(eps: seq<ExchangePosition>, symbol: string)
  {
    exists k :: 0 <= k < |eps| && eps[k].symbol == symbol
  }

  /** The tracked positions the exchange still lists. */
  function KeepListed(m: map<string, Position>, eps: seq<ExchangePosition>): (r: map<string, Position>)
    ensures forall s :: s in r <==> s in m && Listed(eps, s)
    ensures forall s :: s in r ==> r[s] == m[s]
  {
    map s | s in m && Listed(eps, s) :: m[s]
  }

  /** The update loop of `sync_positions`: each listed position overwrites a tracked entry's price and size. */
  function ApplyUpdates(m: map<string, Position>, eps: seq<ExchangePosition>): (r: map<string, Position>)
    ensures r.Keys == m.Keys
  {
    if eps == [] then m
    else
      var r := ApplyUpdates(m, eps[..|eps| - 1]);
      var ep := eps[|eps| - 1];
      if ep.symbol in r then r[ep.symbol := r[ep.symbol].(entryPrice := ep.entryPrice, quantity := ep.size)]
      else r
  }

  /** `sync_positions`: `None` stands for the exception `get_positions` may raise, which changes nothing. */
  function Sync(m: map<string, Position>, exchange: Option<seq<ExchangePosition>>): map<string, Position>
  {
    match exchange
    case None => m
    case Some(eps) => ApplyUpdates(KeepListed(m, eps), eps)
  }

  /** Each position is stored under its own symbol. */
  ghost predicate KeyedBySymbol(m: map<string, Position>)
  {
    forall s :: s in m ==> m[s].symbol == s
  }

  /** The slot limit: never more tracked positions than `max_positions` allows. */
  ghost predicate WithinLimit(cfg: TradingConfig, m: map<string, Position>)
  {
    |m| == 0 || |m| <= cfg.maxPositions
  }

  // ---------------------------------------------------------------- properties

  /**
   * `open_position` returns a position exactly when the symbol is free, a slot
   * is free, the size is positive and the orders went through; then it adds
   * exactly that position under the symbol. Otherwise nothing changes.
   */
  lemma OpenCases(cfg: TradingConfig, m: map<string, Position>, symbol: string, signal: BotSignal, balance: real,
                  roundQuantity: real -> real, roundPrice: real -> real, outcome: OrderOutcome, now: int)
    ensures var (r, m') := Open(cfg, m, symbol, signal, balance, roundQuantity, roundPrice, outcome, now);
      var quantity := PositionSize(cfg, balance, signal.entryPrice, signal.stopLoss, roundQuantity);
      && (r.Some? <==> symbol !in m && |m| < cfg.maxPositions && quantity > 0.0 && outcome.Placed?)
      && (r.None? ==> m' == m)
      && (r.Some? ==>
            && m' == m[symbol := r.value]
            && |m'| == |m| + 1
            && r.value.symbol == symbol && r.value.side == signal.kind
            && r.value.entryPrice == signal.entryPrice && r.value.quantity == quantity
            && r.value.takeProfit == roundPrice(signal.takeProfit)
            && r.value.stopLoss == roundPrice(signal.stopLoss)
            && r.value.entryTime == now)
  {
  }

  /**
   * `close_position` reports success exactly when the symbol was tracked and
   * the orders went through, and then removes that key alone.
   */
  lemma CloseCases(m: map<string, Position>, symbol: string, ordersSucceed: bool)
    ensures var (ok, m') := Close(m, symbol, ordersSucceed);
      && (ok <==> symbol in m && ordersSucceed)
      && (ok ==> m'.Keys == m.Keys - {symbol} && forall s :: s in m' ==> m'[s] == m[s])
      && (!ok ==> m' == m)
  {
  }

  /** The update loop leaves every field of a position but price and size alone. */
  lemma {:induction false} ApplyUpdatesFields(m: map<string, Position>, eps: seq<ExchangePosition>)
    ensures forall s :: s in m ==>
      ApplyUpdates(m, eps)[s] == m[s].(entryPrice := ApplyUpdates(m, eps)[s].entryPrice,
                                       quantity := ApplyUpdates(m, eps)[s].quantity)
  {
    if eps != [] {
      ApplyUpdatesFields(m, eps[..|eps| - 1]);
    }
  }

  /** The last position the exchange lists for `symbol`. */
  function LastListing(eps: seq<ExchangePosition>, symbol: string): (k: nat)
    requires Listed(eps, symbol)
    ensures k < |eps| && eps[k].symbol == symbol
    ensures forall j :: k < j < |eps| ==> eps[j].symbol != symbol
  {
    if eps[|eps| - 1].symbol == symbol then |eps| - 1
    else
      assert Listed(eps[..|eps| - 1], symbol) by {
        var k :| 0 <= k < |eps| && eps[k].symbol == symbol;
        assert eps[..|eps| - 1][k].symbol == symbol;
      }
      LastListing(eps[..|eps| - 1], symbol)
  }

  /** After the update loop a listed symbol carries the price and size of its last listing; others are untouched. */
  lemma {:induction false} ApplyUpdatesValues(m: map<string, Position>, eps: seq<ExchangePosition>, s: string)
    requires s in m
    ensures Listed(eps, s) ==> ApplyUpdates(m, eps)[s].entryPrice == eps[LastListing(eps, s)].entryPrice
                                && ApplyUpdates(m, eps)[s].quantity == eps[LastListing(eps, s)].size
    ensures !Listed(eps, s) ==> ApplyUpdates(m, eps)[s] == m[s]
  {
    if eps != [] {
      var init := eps[..|eps| - 1];
      ApplyUpdatesValues(m, init, s);
      if eps[|eps| - 1].symbol != s {
        if Listed(eps, s) {
          var k :| 0 <= k < |eps| && eps[k].symbol == s;
          assert init[k].symbol == s;
          assert LastListing(eps, s) == LastListing(init, s);
        } else {
          assert !Listed(init, s);
        }
      }
    }
  }

  /**
   * `sync_positions` keeps exactly the tracked symbols the exchange lists (it
   * never adds one), gives each the price and size of its last listing, keeps
   * every other field, and changes nothing when the exchange call fails.
   */
  lemma SyncCases(m: map<string, Position>, exchange: Option<seq<ExchangePosition>>)
    ensures exchange.None? ==> Sync(m, exchange) == m
    ensures exchange.Some? ==>
      var r := Sync(m, exchange);
      var eps := exchange.value;
      && r.Keys == set s | s in m && Listed(eps, s)
      && forall s :: s in r ==>
           r[s] == m[s].(entryPrice := eps[LastListing(eps, s)].entryPrice, quantity := eps[LastListing(eps, s)].size)
  {
    if exchange.Some? {
      var eps := exchange.value;
      var kept := KeepListed(m, eps);
      forall s | s in Sync(m, exchange)
        ensures Sync(m, exchange)[s] == m[s].(entryPrice := eps[LastListing(eps, s)].entryPrice,
                                              quantity := eps[LastListing(eps, s)].size)
      {
        assert s in kept && Listed(eps, s) && kept[s] == m[s];
        ApplyUpdatesValues(kept, eps, s);
        ApplyUpdatesFields(kept, eps);
      }
    }
  }

  /** Opening checks the limit before it adds, and stores the position under its symbol. */
  lemma OpenKeepsInvariant(cfg: TradingConfig, m: map<string, Position>, symbol: string, signal: BotSignal,
                           balance: real, roundQuantity: real -> real, roundPrice: real -> real,
                           outcome: OrderOutcome, now: int)
    requires WithinLimit(cfg, m) && KeyedBySymbol(m)
    ensures var m' := Open(cfg, m, symbol, signal, balance, roundQuantity, roundPrice, outcome, now).1;
      WithinLimit(cfg, m') && KeyedBySymbol(m')
  {
  }

  /** Closing only removes a key. */
  lemma CloseKeepsInvariant(cfg: TradingConfig, m: map<string, Position>, symbol: string, ordersSucceed: bool)
    requires WithinLimit(cfg, m) && KeyedBySymbol(m)
    ensures var m' := Close(m, symbol, ordersSucceed).1; WithinLimit(cfg, m') && KeyedBySymbol(m')
  {
    MapRemoveSize(m, symbol);
  }

  /** Syncing only removes keys and overwrites prices and sizes, so the count never grows. */
  lemma SyncKeepsInvariant(cfg: TradingConfig, m: map<string, Position>, exchange: Option<seq<ExchangePosition>>)
    requires WithinLimit(cfg, m) && KeyedBySymbol(m)
    ensures var m' := Sync(m, exchange); WithinLimit(cfg, m') && KeyedBySymbol(m') && |m'| <= |m|
  {
    if exchange.Some? {
      var eps := exchange.value;
      var kept := KeepListed(m, eps);
      ApplyUpdatesFields(kept, eps);
      SubsetSize(kept.Keys, m.Keys);
      assert |Sync(m, exchange).Keys| == |kept.Keys|;
    }
  }

  /** `get_status` of the map. */
  function StatusOf(cfg: TradingConfig, m: map<string, Position>): (s: Status)
    ensures s.positionCount == |m| && s.maxPositions == cfg.maxPositions
    ensures s.positions.Keys == m.Keys
    ensures forall k :: k in m ==>
      (s.positions[k] ==
         PositionView(m[k].side, m[k].entryPrice, m[k].quantity, m[k].takeProfit, m[k].stopLoss, m[k].entryTime))
  {
    var views := map k | k in m :: PositionView(m[k].side, m[k].entryPrice, m[k].quantity, m[k].takeProfit,
                                                m[k].stopLoss, m[k].entryTime);
    assert views.Keys == m.Keys;
    Status(|m|, cfg.maxPositions, views)
  }

  // ---------------------------------------------------------------- the manager object

  class PositionManager {
    const config: TradingConfig
    var positions: map<string, Position>

    ghost predicate Valid()
      reads this
    {
      WithinLimit(config, positions) && KeyedBySymbol(positions)
    }

    constructor(config: TradingConfig)
      ensures Valid() && this.config == config && positions == map[]
    {
      this.config := config;
      positions := map[];
    }

    /** `get_position_count`. */
    function PositionCount(): (n: nat)
      reads this
      ensures n == |positions|
    {
      |positions|
    }

    /** `has_position`. */
    predicate HasPosition(symbol: string)
      reads this
      ensures HasPosition(symbol) <==> symbol in positions
    {
      symbol in positions
    }

    /** `open_position`, with the balance, the rounding, the order outcome and the clock as inputs. */
    method OpenPosition(symbol: string, signal: BotSignal, balance: real, roundQuantity: real -> real,
                        roundPrice: real -> real, outcome: OrderOutcome, now: int)
      returns (r: Option<Position>)
      requires Valid()
      modifies this
      ensures Valid()
      ensures (r, positions) == Open(config, old(positions), symbol, signal, balance, roundQuantity, roundPrice, outcome, now)
    {
      OpenKeepsInvariant(config, positions, symbol, signal, balance, roundQuantity, roundPrice, outcome, now);
      if HasPosition(symbol) {
        return None;
      }
      if PositionCount() >= config.maxPositions {
        return None;
      }
      var quantity := PositionSize(config, balance, signal.entryPrice, signal.stopLoss, roundQuantity);
      if quantity <= 0.0 {
        return None;
      }
      match outcome {
        case Failed =>
          return None;
        case Placed(tpId, slId) =>
          var position := Position(symbol, signal.kind, signal.entryPrice, quantity,
                                   roundPrice(signal.takeProfit), roundPrice(signal.stopLoss), now, tpId, slId);
          positions := positions[symbol := position];
          return Some(position);
      }
    }

    /** `close_position`; `ordersSucceed` is false when cancelling or the closing order raises. */
    method ClosePosition(symbol: string, ordersSucceed: bool) returns (ok: bool)
      requires Valid()
      modifies this
      ensures Valid()
      ensures (ok, positions) == Close(old(positions), symbol, ordersSucceed)
    {
      CloseKeepsInvariant(config, positions, symbol, ordersSucceed);
      if !HasPosition(symbol) {
        return false;
      }
      if !ordersSucceed {
        return false;
      }
      positions := positions - {symbol};
      return true;
    }

    /**
     * `sync_positions`: drop the tracked symbols the exchange does not list,
     * then walk the exchange list overwriting price and size of tracked ones.
     */
    method SyncPositions(exchange: Option<seq<ExchangePosition>>)
      requires Valid()
      modifies this
      ensures Valid()
      ensures positions == Sync(old(positions), exchange)
    {
      SyncKeepsInvariant(config, positions, exchange);
      if exchange.None? {
        return;
      }
      var eps := exchange.value;
      positions := KeepListed(positions, eps);
      UpdateFromExchange(eps);
    }

    /** The second loop of `sync_positions`: overwrite price and size of every tracked symbol listed. */
    method UpdateFromExchange(eps: seq<ExchangePosition>)
      modifies this
      ensures positions == ApplyUpdates(old(positions), eps)
    {
      var k := 0;
      while k < |eps|
        invariant 0 <= k <= |eps|
        invariant positions == ApplyUpdates(old(positions), eps[..k])
      {
        var ep := eps[k];
        assert eps[..k + 1][..k] == eps[..k] && eps[..k + 1][k] == ep;
        if ep.symbol in positions {
          positions := positions[ep.symbol := positions[ep.symbol].(entryPrice := ep.entryPrice, quantity := ep.size)];
        }
        k := k + 1;
      }
      assert eps[..k] == eps;
    }

    /** `get_status`. */
    function GetStatus(): (s: Status)
      reads this
      ensures s == StatusOf(config, positions)
    {
      StatusOf(config, positions)
    }
  }
}
