/**
 * The backtest engine's trade record and the per-trade rules of `BacktestEngine`:
 * take-profit / stop-loss detection, leveraged PnL with commission on both legs,
 * and risk-based sizing with an exposure cap.
 */
module Trades {
  import opened Common
  import opened Bars
  import Strategies

  /** Engine parameters; the defaults are 10000, 5x, 2% risk, 0.04% commission. */
  datatype EngineConfig = EngineConfig(
    initialBalance: real,
    leverage: int,
    riskPerTrade: real,
    commissionRate: real)

  const DefaultConfig: EngineConfig := EngineConfig(10000.0, 5, 0.02, 0.0004)

  /** Share of balance (times leverage) a single position may be worth. */
  const MaxExposure: real := 0.3

  /** Why a trade was closed: take-profit, stop-loss, or end of data. */
  datatype ExitReason = Tp | Sl | End

  /** A trade; the exit fields stay `None` while it is open. */
  datatype Trade = Trade(
    symbol: string,
    side: Side,
    entryTime: int,
    entryPrice: Price,
    exitTime: Option<int>,
    exitPrice: Option<real>,
    quantity: real,
    tpPrice: real,
    slPrice: real,
    pnl: real,
    pnlPct: real,
    exitReason: Option<ExitReason>,
    commission: real,
    reasons: seq<Reason>)

  predicate IsClosed(t: Trade)
  {
    t.exitTime.Some? && t.exitPrice.Some? && t.exitReason.Some?
  }

  /** The bar's range reaches the take-profit: the high for a long, the low for a short. */
  predicate TpHit(t: Trade, bar: Bar)
  {
    if t.side == Long then bar.high >= t.tpPrice else bar.low <= t.tpPrice
  }

  /** The bar's range reaches the stop-loss: the low for a long, the high for a short. */
  predicate SlHit(t: Trade, bar: Bar)
  {
    if t.side == Long then bar.low <= t.slPrice else bar.high >= t.slPrice
  }

  /**
   * `_check_exit`: when one bar reaches both levels the take-profit wins; the
   * exit price is the level itself, not the bar's price.
   */
  function CheckExit(t: Trade, bar: Bar): (r: Option<(real, ExitReason)>)
    ensures r.Some? <==> TpHit(t, bar) || SlHit(t, bar)
    ensures TpHit(t, bar) ==> r == Some((t.tpPrice, Tp))
    ensures !TpHit(t, bar) && SlHit(t, bar) ==> r == Some((t.slPrice, Sl))
  {
    if t.side == Long then
      if bar.high >= t.tpPrice then Some((t.tpPrice, Tp))
      else if bar.low <= t.slPrice then Some((t.slPrice, Sl))
      else None
    else
      if bar.low <= t.tpPrice then Some((t.tpPrice, Tp))
      else if bar.high >= t.slPrice then Some((t.slPrice, Sl))
      else None
  }

  /** +1 for a long, -1 for a short. */
  function Direction(side: Side): real
  {
    if side == Long then 1.0 else -1.0
  }

  /** Unlevered return of moving from `entry` to `price`, signed by the side. */
  function SignedPct(side: Side, entry: Price, price: real): real
  {
    if side == Long then (price - entry) / entry else (entry - price) / entry
  }

  /** The signed return times the entry price is the signed price move. */
  lemma SignedPctMove(side: Side, entry: Price, price: real)
    ensures SignedPct(side, entry, price) * entry == Direction(side) * (price - entry)
  {
  }

  /**
   * Marks an open trade closed at `price`: the stored pct is the leveraged
   * pct, the exit leg's commission is added to the entry leg's, and the PnL is
   * the leveraged move on the entry notional minus both commissions.
   */
  function CloseAt(cfg: EngineConfig, t: Trade, time: int, price: real, reason: ExitReason): (c: Trade)
    ensures IsClosed(c) && c.exitTime == Some(time) && c.exitPrice == Some(price) && c.exitReason == Some(reason)
  {
    var pct := SignedPct(t.side, t.entryPrice, price) * cfg.leverage as real;
    var exitCommission := t.quantity * price * cfg.commissionRate;
    var notional := t.quantity * t.entryPrice;
    t.(exitTime := Some(time), exitPrice := Some(price),
       pnl := notional * pct - t.commission - exitCommission,
       pnlPct := pct, exitReason := Some(reason),
       commission := t.commission + exitCommission)
  }

  /**
   * The closed trade's pct is the leveraged signed move over the entry price,
   * the exit leg's commission is charged on the exit notional, and the PnL is
   * the leveraged price move times the quantity, less everything paid in
   * commission over both legs; the rest of the trade is as it was opened.
   */
  lemma CloseAtPnl(cfg: EngineConfig, t: Trade, time: int, price: real, reason: ExitReason)
    ensures var c := CloseAt(cfg, t, time, price, reason);
      && c.pnlPct * t.entryPrice == Direction(t.side) * (price - t.entryPrice) * cfg.leverage as real
      && c.commission == t.commission + t.quantity * price * cfg.commissionRate
      && c.pnl == Direction(t.side) * t.quantity * (price - t.entryPrice) * cfg.leverage as real - c.commission
      && c.(exitTime := t.exitTime, exitPrice := t.exitPrice, pnl := t.pnl, pnlPct := t.pnlPct,
            exitReason := t.exitReason, commission := t.commission) == t
  {
    var lev := cfg.leverage as real;
    var pct := SignedPct(t.side, t.entryPrice, price);
    SignedPctMove(t.side, t.entryPrice, price);
    calc {
      t.quantity * t.entryPrice * (pct * lev);
      t.quantity * lev * (pct * t.entryPrice);
      t.quantity * lev * (Direction(t.side) * (price - t.entryPrice));
      Direction(t.side) * t.quantity * (price - t.entryPrice) * lev;
    }
  }

  /**
   * Quantity for a new position: `None` when the stop sits on the entry price;
   * otherwise the risk budget over the stop distance, capped so that the
   * notional stays within 30% of balance times leverage.
   */
  function Size(cfg: EngineConfig, balance: real, sig: Strategies.Signal): (r: Option<real>)
    ensures r.Some? <==> sig.entryPrice != sig.slPrice
  {
    var priceRisk := Abs(sig.entryPrice - sig.slPrice);
    if priceRisk > 0.0 then
      var quantity := balance * cfg.riskPerTrade / priceRisk;
      var maxQuantity := balance * MaxExposure * cfg.leverage as real / sig.entryPrice;
      Some(Min(quantity, maxQuantity))
    else
      None
  }

  /**
   * A sized position risks at most the risk budget at its stop and is worth at
   * most 30% of balance times leverage, and one of the two bounds is met exactly.
   */
  lemma SizeBounds(cfg: EngineConfig, balance: real, sig: Strategies.Signal)
    requires Size(cfg, balance, sig).Some?
    ensures var q := Size(cfg, balance, sig).value;
      && q * sig.entryPrice <= balance * MaxExposure * cfg.leverage as real
      && q * Abs(sig.entryPrice - sig.slPrice) <= balance * cfg.riskPerTrade
      && (|| q * Abs(sig.entryPrice - sig.slPrice) == balance * cfg.riskPerTrade
          || q * sig.entryPrice == balance * MaxExposure * cfg.leverage as real)
  {
  }

  /** The trade opened from a signal, with the entry leg's commission already charged. */
  function Open(cfg: EngineConfig, symbol: string, time: int, side: Side, sig: Strategies.Signal, quantity: real): (t: Trade)
    ensures !IsClosed(t) && t.side == side && t.entryTime == time && t.entryPrice == sig.entryPrice
    ensures t.quantity == quantity && t.tpPrice == sig.tpPrice && t.slPrice == sig.slPrice
    ensures t.commission == quantity * sig.entryPrice * cfg.commissionRate && t.reasons == sig.reasons
  {
    Trade(symbol, side, time, sig.entryPrice, None, None, quantity, sig.tpPrice, sig.slPrice,
          0.0, 0.0, None, quantity * sig.entryPrice * cfg.commissionRate, sig.reasons)
  }

  /** Mark-to-market equity: balance plus the open trade's leveraged move, with no commission. */
  function Equity(cfg: EngineConfig, balance: real, open: Option<Trade>, close: Price): (r: real)
    ensures open.None? ==> r == balance
  {
    match open
    case None => balance
    case Some(t) =>
      var pct := SignedPct(t.side, t.entryPrice, close);
      balance + t.quantity * t.entryPrice * pct * cfg.leverage as real
  }

  /** With a trade open, equity is balance plus the trade's leveraged move times its quantity. */
  lemma EquityMarked(cfg: EngineConfig, balance: real, t: Trade, close: Price)
    ensures Equity(cfg, balance, Some(t), close)
            == balance + Direction(t.side) * t.quantity * (close - t.entryPrice) * cfg.leverage as real
  {
    var pct := SignedPct(t.side, t.entryPrice, close);
    SignedPctMove(t.side, t.entryPrice, close);
    assert t.quantity * t.entryPrice * pct == t.quantity * (pct * t.entryPrice);
  }
}
