/**
 Stage profiles of the `ramping-vus` executor: each stage names a duration
 and the VU target reached at its end, starting from zero VUs. Durations such
 as `'2m40s'` are written here in seconds. The executor itself (interpolation
 and VU lifecycle) belongs to the k6 runtime.
 */
module Stages {

  datatype Stage = Stage(seconds: nat, target: nat)

  function TotalSeconds(stages: seq<Stage>): (total: nat)
    ensures |stages| > 0 ==> total >= stages[0].seconds
    decreases |stages|
  {
    if |stages| == 0 then 0 else stages[0].seconds + TotalSeconds(stages[1..])
  }

  /** The largest VU target of the profile (0 for an empty profile). */
  function Peak(stages: seq<Stage>): (p: nat)
    ensures forall i :: 0 <= i < |stages| ==> stages[i].target <= p
    ensures |stages| > 0 ==> exists i :: 0 <= i < |stages| && stages[i].target == p
    decreases |stages|
  {
    if |stages| == 0 then 0
    else
      var rest := Peak(stages[1..]);
      if |stages| > 1 && stages[0].target < rest then
        assert exists i :: 1 <= i < |stages| && stages[i].target == rest by {
          var j :| 0 <= j < |stages[1..]| && stages[1..][j].target == rest;
          assert stages[j + 1].target == rest;
        }
        rest
      else stages[0].target
  }

  /** Ramp up from zero to a plateau, hold it, ramp down to zero. */
  predicate RampHoldRampDown(stages: seq<Stage>) {
    && |stages| == 3
    && stages[0].target == stages[1].target
    && stages[2].target == 0
  }
}
