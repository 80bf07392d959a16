/**
 * The two backtest strategies (option A, conservative; option B, balanced).
 * Each side is a pure predicate over the last two bars of the window it is given.
 */
module Strategies {
  import opened Common
  import opened Bars

  /** `Signal.side`: the strategies only build 'long' and 'short'; 'none' is part of the type. */
  datatype SignalSide = LongSide | ShortSide | NoSide

  datatype Signal = Signal(
    side: SignalSide,
    strength: real,
    entryPrice: Price,
    tpPrice: real,
    slPrice: real,
    reasons: seq<Reason>)

  /** The two concrete strategies (the source's subclasses of BaseStrategy). */
  datatype StrategyKind = OptionA | OptionB

  /** Bars of history `check_signal` needs before it evaluates anything. */
  const MinWindow: nat := 50

  // The class constants of the two options, written as literals in the conditions below:
  //   Option A: long RSI < 35, BB touch 1.01, volume 1.3x; short RSI > 65,
  //             BB touch 0.99; take-profit 1%; stop-loss 2.5 ATR.
  //   Option B: long RSI < 40, stochastic oversold 35, BB touch 1.02, volume
  //             1.2x; short RSI > 60, stochastic overbought 65, BB touch 0.98;
  //             at least 2 confirmations; take-profit 1%; stop-loss 1.5 ATR.

  /** Confirmations option B needs beyond its two required conditions. */
  const ConfirmMin: nat := 2

  function Name(kind: StrategyKind): string
  {
    match kind
    case OptionA => "Option_A_Conservative"
    case OptionB => "Option_B_Balanced"
  }

  function Last(w: seq<Bar>): Bar
    requires |w| >= 1
  {
    w[|w| - 1]
  }

  function Prev(w: seq<Bar>): Bar
    requires |w| >= 2
  {
    w[|w| - 2]
  }

  // ---------------------------------------------------------------- option A

  /** Option A long: every one of the four conditions must hold; strength is 1.0. */
  function OptionALong(w: seq<Bar>): (r: Option<Signal>)
    requires |w| >= 2
    ensures r.Some? ==> Last(w).rsi < 35.0
    ensures r.Some? ==> r.value.side == LongSide && r.value.strength == 1.0
    ensures r.Some? ==> r.value.entryPrice == Last(w).close
    ensures r.Some? ==> r.value.tpPrice > r.value.entryPrice
    ensures r.Some? && Last(w).atr > 0.0 ==> r.value.slPrice < r.value.entryPrice
  {
    var last, prev := Last(w), Prev(w);
    var condRsi := last.rsi < 35.0 && last.rsi > prev.rsi;
    var condStoch := GoldenCross(last, prev);
    var condBbTouch := last.low <= last.bbLower * 1.01;
    var condBbBounce := last.close > last.bbLower;
    var condVolume := last.volume > last.volumeMa * 1.3;
    var reasons :=
      (if condRsi then [RsiOversoldBounce(last.rsi)] else [])
      + (if condStoch then [StochGoldenCross(last.stochK)] else [])
      + (if condBbTouch && condBbBounce then [BbLowerBounce] else [])
      + (if condVolume then [VolumeSurge(last.volume, last.volumeMa)] else []);
    if condRsi && condStoch && condBbTouch && condBbBounce && condVolume then
      var entry := last.close;
      Some(Signal(LongSide, 1.0, entry, entry * (1.0 + 0.01), entry - last.atr * 2.5, reasons))
    else
      None
  }

  /** Option A short: the mirror image; the volume test reuses the long multiplier. */
  function OptionAShort(w: seq<Bar>): (r: Option<Signal>)
    requires |w| >= 2
    ensures r.Some? ==> Last(w).rsi > 65.0
    ensures r.Some? ==> r.value.side == ShortSide && r.value.strength == 1.0
    ensures r.Some? ==> r.value.entryPrice == Last(w).close
    ensures r.Some? ==> r.value.tpPrice < r.value.entryPrice
    ensures r.Some? && Last(w).atr > 0.0 ==> r.value.slPrice > r.value.entryPrice
  {
    var last, prev := Last(w), Prev(w);
    var condRsi := last.rsi > 65.0 && last.rsi < prev.rsi;
    var condStoch := DeadCross(last, prev);
    var condBbTouch := last.high >= last.bbUpper * 0.99;
    var condBbReject := last.close < last.bbUpper;
    var condVolume := last.volume > last.volumeMa * 1.3;
    var reasons :=
      (if condRsi then [RsiOverboughtDrop(last.rsi)] else [])
      + (if condStoch then [StochDeadCross(last.stochK)] else [])
      + (if condBbTouch && condBbReject then [BbUpperResistance] else [])
      + (if condVolume then [VolumeSurge(last.volume, last.volumeMa)] else []);
    if condRsi && condStoch && condBbTouch && condBbReject && condVolume then
      var entry := last.close;
      Some(Signal(ShortSide, 1.0, entry, entry * (1.0 - 0.01), entry + last.atr * 2.5, reasons))
    else
      None
  }

  /** Option A long fires exactly when all four conditions hold, with all four reasons in check order. */
  lemma OptionALongFiresIff(w: seq<Bar>)
    requires |w| >= 2
    ensures OptionALong(w).Some? <==>
      && Last(w).rsi < 35.0 && Last(w).rsi > Prev(w).rsi
      && GoldenCross(Last(w), Prev(w))
      && Last(w).low <= Last(w).bbLower * 1.01 && Last(w).close > Last(w).bbLower
      && Last(w).volume > Last(w).volumeMa * 1.3
    ensures OptionALong(w).Some? ==>
      && OptionALong(w).value.reasons == [RsiOversoldBounce(Last(w).rsi), StochGoldenCross(Last(w).stochK),
                                          BbLowerBounce, VolumeSurge(Last(w).volume, Last(w).volumeMa)]
      && OptionALong(w).value.tpPrice == Last(w).close * 1.01
      && OptionALong(w).value.slPrice == Last(w).close - 2.5 * Last(w).atr
  {
  }

  /** Option A short fires exactly when its four mirrored conditions hold. */
  lemma OptionAShortFiresIff(w: seq<Bar>)
    requires |w| >= 2
    ensures OptionAShort(w).Some? <==>
      && Last(w).rsi > 65.0 && Last(w).rsi < Prev(w).rsi
      && DeadCross(Last(w), Prev(w))
      && Last(w).high >= Last(w).bbUpper * 0.99 && Last(w).close < Last(w).bbUpper
      && Last(w).volume > Last(w).volumeMa * 1.3
    ensures OptionAShort(w).Some? ==>
      && OptionAShort(w).value.reasons == [RsiOverboughtDrop(Last(w).rsi), StochDeadCross(Last(w).stochK),
                                           BbUpperResistance, VolumeSurge(Last(w).volume, Last(w).volumeMa)]
      && OptionAShort(w).value.tpPrice == Last(w).close * 0.99
      && OptionAShort(w).value.slPrice == Last(w).close + 2.5 * Last(w).atr
  {
  }

  // ---------------------------------------------------------------- option B

  /** Confirmation strength: 0.5 plus 0.1 per confirmation, capped at 1.0. */
  function Strength(count: nat): real
  {
    Min(0.5 + count as real * 0.1, 1.0)
  }

  /** The confirmations option B's long side counts, in check order. */
  function LongConfirmations(last: Bar, prev: Bar): seq<Reason>
  {
    (if last.rsi > prev.rsi then [RsiTurnUp] else [])
    + (if GoldenCross(last, prev) then [GoldenCrossConfirmed] else [])
    + (if last.stochK < 35.0 then [StochOversold(last.stochK)] else [])
    + (if last.low <= last.bbLower * 1.02 then [NearBbLower] else [])
    + (if last.volume > last.volumeMa * 1.2 then [VolumeUp] else [])
  }

  /** The confirmations option B's short side counts, in check order. */
  function ShortConfirmations(last: Bar, prev: Bar): seq<Reason>
  {
    (if last.rsi < prev.rsi then [RsiTurnDown] else [])
    + (if DeadCross(last, prev) then [DeadCrossConfirmed] else [])
    + (if last.stochK > 65.0 then [StochOverbought(last.stochK)] else [])
    + (if last.high >= last.bbUpper * 0.98 then [NearBbUpper] else [])
    + (if last.volume > last.volumeMa * 1.2 then [VolumeUp] else [])
  }

  /** Option B long: two required conditions, then at least two of five confirmations. */
  function OptionBLong(w: seq<Bar>): (r: Option<Signal>)
    requires |w| >= 2
    ensures r.Some? ==> Last(w).rsi < 40.0 && Last(w).close < Last(w).bbMiddle
    ensures r.Some? ==> r.value.side == LongSide && 0.7 <= r.value.strength <= 1.0
    ensures r.Some? ==> r.value.entryPrice == Last(w).close
    ensures r.Some? ==> r.value.tpPrice > r.value.entryPrice
    ensures r.Some? && Last(w).atr > 0.0 ==> r.value.slPrice < r.value.entryPrice
  {
    var last, prev := Last(w), Prev(w);
    var reqRsi := last.rsi < 40.0;
    var reqBb := last.close < last.bbMiddle;
    var required :=
      (if reqRsi then [RsiBelow(40.0, last.rsi)] else [])
      + (if reqBb then [BelowBbMiddle] else []);
    if !(reqRsi && reqBb) then None
    else
      var confirms := LongConfirmations(last, prev);
      if |confirms| >= ConfirmMin then
        var entry := last.close;
        Some(Signal(LongSide, Strength(|confirms|), entry, entry * (1.0 + 0.01),
                    entry - last.atr * 1.5, required + confirms))
      else
        None
  }

  /** Option B short: the mirror image of the long side. */
  function OptionBShort(w: seq<Bar>): (r: Option<Signal>)
    requires |w| >= 2
    ensures r.Some? ==> Last(w).rsi > 60.0 && Last(w).close > Last(w).bbMiddle
    ensures r.Some? ==> r.value.side == ShortSide && 0.7 <= r.value.strength <= 1.0
    ensures r.Some? ==> r.value.entryPrice == Last(w).close
    ensures r.Some? ==> r.value.tpPrice < r.value.entryPrice
    ensures r.Some? && Last(w).atr > 0.0 ==> r.value.slPrice > r.value.entryPrice
  {
    var last, prev := Last(w), Prev(w);
    var reqRsi := last.rsi > 60.0;
    var reqBb := last.close > last.bbMiddle;
    var required :=
      (if reqRsi then [RsiAbove(60.0, last.rsi)] else [])
      + (if reqBb then [AboveBbMiddle] else []);
    if !(reqRsi && reqBb) then None
    else
      var confirms := ShortConfirmations(last, prev);
      if |confirms| >= ConfirmMin then
        var entry := last.close;
        Some(Signal(ShortSide, Strength(|confirms|), entry, entry * (1.0 - 0.01),
                    entry + last.atr * 1.5, required + confirms))
      else
        None
  }

  /**
   * Option B long fires exactly when both required conditions and at least two
   * confirmations hold; its strength is 0.5 + 0.1 per confirmation (never capped,
   * since there are only five) and its reasons are the required ones, then the
   * confirmations, in check order.
   */
  lemma OptionBLongFiresIff(w: seq<Bar>)
    requires |w| >= 2
    ensures |LongConfirmations(Last(w), Prev(w))| <= 5
    ensures OptionBLong(w).Some? <==>
      Last(w).rsi < 40.0 && Last(w).close < Last(w).bbMiddle
      && |LongConfirmations(Last(w), Prev(w))| >= 2
    ensures OptionBLong(w).Some? ==>
      var n := |LongConfirmations(Last(w), Prev(w))|;
      && OptionBLong(w).value.strength == 0.5 + 0.1 * n as real
      && OptionBLong(w).value.reasons
         == [RsiBelow(40.0, Last(w).rsi), BelowBbMiddle] + LongConfirmations(Last(w), Prev(w))
  {
  }

  /** Option B short fires exactly when its mirrored required conditions and two confirmations hold. */
  lemma OptionBShortFiresIff(w: seq<Bar>)
    requires |w| >= 2
    ensures |ShortConfirmations(Last(w), Prev(w))| <= 5
    ensures OptionBShort(w).Some? <==>
      Last(w).rsi > 60.0 && Last(w).close > Last(w).bbMiddle
      && |ShortConfirmations(Last(w), Prev(w))| >= 2
    ensures OptionBShort(w).Some? ==>
      var n := |ShortConfirmations(Last(w), Prev(w))|;
      && OptionBShort(w).value.strength == 0.5 + 0.1 * n as real
      && OptionBShort(w).value.reasons
         == [RsiAbove(60.0, Last(w).rsi), AboveBbMiddle] + ShortConfirmations(Last(w), Prev(w))
  {
  }

  // ---------------------------------------------------------------- dispatch

  function CheckLongEntry(kind: StrategyKind, w: seq<Bar>): Option<Signal>
    requires |w| >= 2
  {
    match kind
    case OptionA => OptionALong(w)
    case OptionB => OptionBLong(w)
  }

  function CheckShortEntry(kind: StrategyKind, w: seq<Bar>): Option<Signal>
    requires |w| >= 2
  {
    match kind
    case OptionA => OptionAShort(w)
    case OptionB => OptionBShort(w)
  }

  /**
   * `BaseStrategy.check_signal`: nothing below 50 bars; when both sides fire the
   * long wins only with strictly greater strength; otherwise whichever fired.
   */
  function CheckSignal(kind: StrategyKind, w: seq<Bar>): (r: Option<Signal>)
    ensures |w| < MinWindow ==> r.None?
    ensures r.Some? ==> r.value.side != NoSide && r.value.entryPrice == Last(w).close
    ensures r.Some? ==> (r == CheckLongEntry(kind, w) || r == CheckShortEntry(kind, w))
  {
    if |w| < MinWindow then None
    else
      var long := CheckLongEntry(kind, w);
      var short := CheckShortEntry(kind, w);
      match (long, short)
      case (Some(l), Some(s)) => if l.strength > s.strength then long else short
      case (Some(_), None) => long
      case (None, _) => short
  }

  /** The long and short RSI gates of each option are disjoint, so at most one side fires. */
  lemma AtMostOneSide(kind: StrategyKind, w: seq<Bar>)
    requires |w| >= 2
    ensures !(CheckLongEntry(kind, w).Some? && CheckShortEntry(kind, w).Some?)
  {
  }

  /** A signal is the long one exactly when the long side fires, else the short one. */
  lemma CheckSignalPicksFiringSide(kind: StrategyKind, w: seq<Bar>)
    requires |w| >= MinWindow
    ensures CheckLongEntry(kind, w).Some? ==> CheckSignal(kind, w) == CheckLongEntry(kind, w)
    ensures CheckLongEntry(kind, w).None? ==> CheckSignal(kind, w) == CheckShortEntry(kind, w)
  {
    AtMostOneSide(kind, w);
  }

  /** Decisions read only the last two bars of the window. */
  lemma {:induction false} LastTwoBarsDecide(kind: StrategyKind, w1: seq<Bar>, w2: seq<Bar>)
    requires |w1| >= MinWindow && |w2| >= MinWindow
    requires Last(w1) == Last(w2) && Prev(w1) == Prev(w2)
    ensures CheckSignal(kind, w1) == CheckSignal(kind, w2)
  {
  }
}
