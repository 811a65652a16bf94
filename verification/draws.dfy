/**
 Uniform draws and the traffic mixer. Every `Math.random()` call of the
 scripts becomes an explicit `real` in [0, 1); a behaviour is chosen by
 comparing one draw against successive cumulative thresholds, the last
 behaviour absorbing whatever remains above the final threshold. Draws,
 thresholds and products are exact reals, not IEEE doubles.
 */
module Draws {

  predicate IsDraw(u: real) {
    0.0 <= u < 1.0
  }

  /** The floor of the exact product `u * n`: a draw scaled to one of `n` equally likely integers. */
  function Scaled(u: real, n: nat): (k: nat)
    requires IsDraw(u) && n > 0
    ensures k < n
    ensures k as real <= u * n as real < k as real + 1.0
  {
    ScaleBounds(u, n);
    (u * n as real).Floor
  }

  /** A draw scaled by `n` lies in [0, n), by induction on `n`. */
  lemma {:induction false} ScaleBounds(u: real, n: nat)
    requires IsDraw(u)
    ensures 0.0 <= u * n as real
    ensures n > 0 ==> u * n as real < n as real
    decreases n
  {
    if n > 0 {
      ScaleBounds(u, n - 1);
      assert u * n as real == u * (n - 1) as real + u;
    }
  }

  /** Every integer below `n` is reached by some draw. */
  lemma ScaledReachesAll(k: nat, n: nat)
    requires k < n
    ensures IsDraw(k as real / n as real)
    ensures Scaled(k as real / n as real, n) == k
  {
    var u := k as real / n as real;
    assert u * n as real == k as real;
  }

  /** The retrospect id `floor(u * 5) + 1` of the scripts, over the exact product: the seeded ids 1..5. */
  function RetroId(u: real): (id: nat)
    requires IsDraw(u)
    ensures 1 <= id <= 5
  {
    Scaled(u, 5) + 1
  }

  /**
   The index of the behaviour a draw selects: the first threshold the draw lies
   strictly below, or one past the last threshold when it lies below none.
   */
  function Pick(cuts: seq<real>, u: real): (k: nat)
    ensures k <= |cuts|
    ensures forall j :: 0 <= j < k ==> cuts[j] <= u
    ensures k < |cuts| ==> u < cuts[k]
    decreases |cuts|
  {
    if |cuts| == 0 then 0
    else if u < cuts[0] then 0
    else 1 + Pick(cuts[1..], u)
  }

  /** A larger draw never selects an earlier behaviour. */
  lemma PickMonotone(cuts: seq<real>, u: real, v: real)
    requires u <= v
    ensures Pick(cuts, u) <= Pick(cuts, v)
  {
  }

  predicate Ascending(cuts: seq<real>) {
    forall i, j :: 0 <= i < j < |cuts| ==> cuts[i] < cuts[j]
  }

  /**
   For ascending thresholds, behaviour `k` is selected exactly when the draw
   lies in the half-open interval between threshold `k - 1` and threshold `k`.
   */
  lemma PickInterval(cuts: seq<real>, u: real, k: nat)
    requires Ascending(cuts) && k <= |cuts|
    ensures Pick(cuts, u) == k <==>
              (k == 0 || cuts[k - 1] <= u) && (k == |cuts| || u < cuts[k])
  {
  }
}
