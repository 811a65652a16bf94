/**
 The baseline scenario (`load-tests/scenarios/baseline.js`): two independent
 draws decide whether an iteration lists the retro rooms (70 %) and whether it
 reads one retrospect (30 %), so an iteration sends zero, one or two requests,
 all with the VU's own forwarded identity.
 */
module Baseline {
  import opened Http
  import opened Draws
  import opened Auth
  import opened Stages
  import MixedLoad

  const ListShare: real := 0.7
  const DetailShare: real := 0.3

  /** The three draws an iteration may consume: list, detail, retrospect id. */
  datatype BaselineDraws = BaselineDraws(list: real, detail: real, retro: real)

  predicate ValidDraws(d: BaselineDraws) {
    IsDraw(d.list) && IsDraw(d.detail) && IsDraw(d.retro)
  }

  /** The detail check: `status 200 or 404`. */
  function DetailCheck(status: Status): (passed: bool)
    ensures passed <==> status in {200, 404}
  {
    status == 200 || status == 404
  }

  /** The baseline and mixed-load scenarios accept the same statuses for a retrospect detail read. */
  lemma DetailCheckAgreesWithMixedLoad(status: Status)
    ensures DetailCheck(status) == MixedLoad.ReadDetailVerdict(status).checkPassed
  {
  }

  /** The requests of one iteration for VU `vu`, in order. */
  function Iteration(token: string, vu: nat, d: BaselineDraws): (rs: seq<Request>)
    requires ValidDraws(d)
    ensures |rs| == (if d.list < ListShare then 1 else 0) + (if d.detail < DetailShare then 1 else 0)
    ensures d.list < ListShare ==> rs[0] == Get(RetroRoomsPath, AuthHeaders(token, Some(vu)))
    ensures d.detail < DetailShare ==>
              rs[|rs| - 1] == Get(RetrospectPath(RetroId(d.retro)), AuthHeaders(token, Some(vu)))
    ensures forall i :: 0 <= i < |rs| ==> rs[i].Get? && rs[i].params == AuthHeaders(token, Some(vu))
  {
    var params := AuthHeaders(token, Some(vu));
    var list := if d.list < ListShare then [Get(RetroRoomsPath, params)] else [];
    var detail := if d.detail < DetailShare then [Get(RetrospectPath(RetroId(d.retro)), params)] else [];
    list + detail
  }

  /** Every request of an iteration carries the VU's `10.100.*` identity, whatever the draws. */
  lemma IterationUsesVuIdentity(token: string, vu: nat, d: BaselineDraws, i: nat)
    requires ValidDraws(d) && i < |Iteration(token, vu, d)|
    ensures HeaderOf(Iteration(token, vu, d)[i], "X-Forwarded-For") == Some(Identity.Address(Identity.AuthBlock, vu))
  {
  }

  /** The detail request only ever names one of the five seeded retrospects. */
  lemma DetailTargetsSeededRetro(token: string, vu: nat, d: BaselineDraws)
    requires ValidDraws(d) && d.detail < DetailShare
    ensures exists id :: 1 <= id <= 5 && Iteration(token, vu, d)[|Iteration(token, vu, d)| - 1].path == RetrospectPath(id)
  {
    var rs := Iteration(token, vu, d);
    assert rs[|rs| - 1].path == RetrospectPath(RetroId(d.retro));
  }

  /** Thirty seconds up to 100 VUs, four minutes at 100, thirty seconds down. */
  const BaselineStages: seq<Stage> := [Stage(30, 100), Stage(240, 100), Stage(30, 0)]

  /** The peak is the sustain target, and the profile starts and ends at zero VUs. */
  lemma BaselineProfile()
    ensures RampHoldRampDown(BaselineStages)
    ensures Peak(BaselineStages) == BaselineStages[1].target == 100
    ensures TotalSeconds(BaselineStages) == 300
  {
    assert BaselineStages[1..] == [Stage(240, 100), Stage(30, 0)];
    assert BaselineStages[1..][1..] == [Stage(30, 0)];
  }
}
