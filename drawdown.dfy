/**
 * The running-peak drawdown loop the two bot simulators share: the peak
 * starts at the initial balance, and the result is the largest fall below
 * the peak, in percent.
 */
module Drawdown {

  function Max(a: real, b: real): real { if a >= b then a else b }

  /** The running peak after the whole curve. */
  function Peak(initial: real, curve: seq<real>): (r: real)
    ensures r >= initial
    ensures forall k :: 0 <= k < |curve| ==> curve[k] <= r
  {
    if curve == [] then initial else Max(Peak(initial, curve[..|curve| - 1]), curve[|curve| - 1])
  }

  /** The fall below the running peak at the end of `curve`, in percent. */
  function FallAtEnd(initial: real, curve: seq<real>): real
    requires initial > 0.0 && curve != []
  {
    var peak := Peak(initial, curve);
    (peak - curve[|curve| - 1]) / peak * 100.0
  }

  /** The largest fall below the running peak over the curve, in percent (0 for an empty curve). */
  function MaxDd(initial: real, curve: seq<real>): real
    requires initial > 0.0
  {
    if curve == [] then 0.0 else Max(MaxDd(initial, curve[..|curve| - 1]), FallAtEnd(initial, curve))
  }

  /**
   * The drawdown loop: walks the curve once, raising the peak and keeping the
   * largest fall.
   */
  method MaxDrawdown(initial: real, curve: seq<real>) returns (maxDd: real)
    requires initial > 0.0
    ensures maxDd == MaxDd(initial, curve)
  {
    var peak := initial;
    maxDd := 0.0;
    var k := 0;
    while k < |curve|
      invariant 0 <= k <= |curve|
      invariant peak == Peak(initial, curve[..k])
      invariant maxDd == MaxDd(initial, curve[..k])
    {
      var equity := curve[k];
      if equity > peak {
        peak := equity;
      }
      var dd := (peak - equity) / peak * 100.0;
      if dd > maxDd {
        maxDd := dd;
      }
      assert curve[..k + 1][..k] == curve[..k];
      k := k + 1;
    }
    assert curve[..k] == curve;
  }

  /** A point never stands above the running peak, so its fall is non-negative. */
  lemma FallNonNegative(initial: real, curve: seq<real>)
    requires initial > 0.0 && curve != []
    ensures 0.0 <= FallAtEnd(initial, curve)
  {
    var peak := Peak(initial, curve);
    assert peak > 0.0 && peak - curve[|curve| - 1] >= 0.0;
  }

  /**
   * The maximum drawdown is non-negative, bounds the fall at every point of the
   * curve, and stays below 100% while the curve stays positive.
   */
  lemma {:induction false} MaxDdBounds(initial: real, curve: seq<real>)
    requires initial > 0.0
    ensures MaxDd(initial, curve) >= 0.0
    ensures forall k :: 0 < k <= |curve| ==> FallAtEnd(initial, curve[..k]) <= MaxDd(initial, curve)
    ensures (forall k :: 0 <= k < |curve| ==> curve[k] > 0.0) ==> MaxDd(initial, curve) < 100.0
  {
    if curve != [] {
      var init := curve[..|curve| - 1];
      MaxDdBounds(initial, init);
      FallNonNegative(initial, curve);
      forall k | 0 < k <= |curve|
        ensures FallAtEnd(initial, curve[..k]) <= MaxDd(initial, curve)
      {
        if k < |curve| {
          assert curve[..k] == init[..k];
        } else {
          assert curve[..k] == curve;
        }
      }
      if forall k :: 0 <= k < |curve| ==> curve[k] > 0.0 {
        assert forall k :: 0 <= k < |init| ==> init[k] > 0.0;
        FallBelowHundred(Peak(initial, curve), curve[|curve| - 1]);
      }
    }
  }

  lemma FallBelowHundred(peak: real, e: real)
    requires 0.0 < e <= peak
    ensures (peak - e) / peak * 100.0 < 100.0
  {
  }

  /** A curve that never falls below the initial balance and never dips below its peak has no drawdown. */
  lemma {:induction false} RisingCurveNoDrawdown(initial: real, curve: seq<real>)
    requires initial > 0.0
    requires forall k :: 0 <= k < |curve| ==> curve[k] == Peak(initial, curve[..k + 1])
    ensures MaxDd(initial, curve) == 0.0
  {
    if curve != [] {
      var init := curve[..|curve| - 1];
      forall k | 0 <= k < |init| ensures init[k] == Peak(initial, init[..k + 1]) {
        assert init[..k + 1] == curve[..k + 1];
      }
      RisingCurveNoDrawdown(initial, init);
      assert curve[..|curve|] == curve;
      AtPeakNoFall(initial, curve);
    }
  }

  /** A curve ending on its running peak has no fall at the end. */
  lemma AtPeakNoFall(initial: real, curve: seq<real>)
    requires initial > 0.0 && curve != []
    requires curve[|curve| - 1] == Peak(initial, curve)
    ensures FallAtEnd(initial, curve) == 0.0
  {
  }
}
