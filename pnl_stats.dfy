/**
 * Win/loss statistics over a list of trade PnLs, as the two bot simulators
 * compute them: a trade wins when its PnL is positive and loses otherwise.
 */
module PnlStats {

  function Sum(ps: seq<real>): real
  {
    if ps == [] then 0.0 else Sum(ps[..|ps| - 1]) + ps[|ps| - 1]
  }

  /** The winning PnLs (`pnl > 0`), in order. */
  function Wins(ps: seq<real>): (r: seq<real>)
    ensures forall k :: 0 <= k < |r| ==> r[k] > 0.0
  {
    if ps == [] then [] else Wins(ps[..|ps| - 1]) + (if ps[|ps| - 1] > 0.0 then [ps[|ps| - 1]] else [])
  }

  /** The losing PnLs (`pnl <= 0`), in order. */
  function Losses(ps: seq<real>): (r: seq<real>)
    ensures forall k :: 0 <= k < |r| ==> r[k] <= 0.0
  {
    if ps == [] then [] else Losses(ps[..|ps| - 1]) + (if ps[|ps| - 1] <= 0.0 then [ps[|ps| - 1]] else [])
  }

  lemma {:induction false} SumAppend(a: seq<real>, b: seq<real>)
    ensures Sum(a + b) == Sum(a) + Sum(b)
    decreases |b|
  {
    if b == [] {
      assert a + b == a;
    } else {
      assert (a + b)[..|a + b| - 1] == a + b[..|b| - 1];
      SumAppend(a, b[..|b| - 1]);
    }
  }

  /**
   * Wins and losses split the list: their counts and their sums add up to the
   * whole, wins sum to a positive amount when there is one, losses to at most 0.
   */
  lemma {:induction false} Partition(ps: seq<real>)
    ensures |Wins(ps)| + |Losses(ps)| == |ps|
    ensures Sum(Wins(ps)) + Sum(Losses(ps)) == Sum(ps)
    ensures Sum(Wins(ps)) >= 0.0 && (Wins(ps) != [] ==> Sum(Wins(ps)) > 0.0)
    ensures Sum(Losses(ps)) <= 0.0
  {
    if ps != [] {
      var init, p := ps[..|ps| - 1], ps[|ps| - 1];
      Partition(init);
      SumAppend(Wins(init), if p > 0.0 then [p] else []);
      SumAppend(Losses(init), if p <= 0.0 then [p] else []);
    }
  }

  /** `sum(xs) / len(xs) if xs else 0`. */
  function Mean(ps: seq<real>): (r: real)
    ensures ps != [] ==> r * |ps| as real == Sum(ps)
    ensures ps == [] ==> r == 0.0
  {
    if ps == [] then 0.0 else Sum(ps) / |ps| as real
  }

  /** The mean is zero exactly when the sum is. */
  lemma MeanZeroIff(ps: seq<real>)
    ensures Mean(ps) == 0.0 <==> Sum(ps) == 0.0
  {
    if ps != [] {
      assert Mean(ps) * |ps| as real == Sum(ps);
    }
  }

  /** `n / total * 100 if total > 0 else 0`: a percentage. */
  function Percent(n: nat, total: nat): (r: real)
    ensures total == 0 ==> r == 0.0
    ensures n <= total ==> 0.0 <= r <= 100.0
    ensures total > 0 ==> r * total as real == n as real * 100.0
  {
    if total > 0 then n as real / total as real * 100.0 else 0.0
  }
}
