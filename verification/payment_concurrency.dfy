/**
 The payment-concurrency scenario (`load-tests/scenarios/payment-concurrency.js`):
 each iteration is one idempotency trial, two sequential subscription POSTs
 that carry the same freshly drawn key. The second response decides whether
 a duplicate payment happened; unexpected statuses of 500 or above count as failures.
 */
module PaymentConcurrency {
  import opened Http
  import opened Draws
  import opened Auth
  import opened Uuid
  import opened Stages

  /** The statuses both checks of a trial accept. */
  const CheckedStatuses: set<Status> := {200, 201, 400, 409, 502}

  /** A status of 500 or above other than 502 (the unreachable payment provider): `payment_failed`. */
  predicate UnexpectedServerError(status: Status) {
    status >= 500 && status != 502
  }

  /** What one trial adds to `payment_success`, `payment_duplicate` and `payment_failed`. */
  datatype TrialCounts = TrialCounts(success: nat, duplicate: nat, failed: nat)

  /** The counts of a trial whose calls answered `first` and then `second`. */
  function CountsOf(first: Status, second: Status): (c: TrialCounts)
    ensures c.success <= 1 && c.duplicate <= 1 && c.failed <= 2
    ensures c.success == 1 <==> first in {200, 201}
    ensures c.duplicate == 1 <==> second == 201
    ensures c.failed == 0 <==> !UnexpectedServerError(first) && !UnexpectedServerError(second)
    ensures c.failed == 2 <==> UnexpectedServerError(first) && UnexpectedServerError(second)
  {
    TrialCounts(if first == 200 || first == 201 then 1 else 0,
                if second == 201 then 1 else 0,
                (if UnexpectedServerError(first) then 1 else 0) + (if UnexpectedServerError(second) then 1 else 0))
  }

  /**
   The subscription POST of a trial: the PRO plan, the VU's headers with the
   `Idempotency-Key` added, and the VU's timeout.
   */
  function Subscribe(params: Params, key: string): (r: Request)
    ensures r.Post? && r.path == SubscriptionsPath && r.body == ProPlanBody
    ensures r.params.timeout == params.timeout
    ensures HeaderOf(r, "Idempotency-Key") == Some(key)
    ensures forall h :: h in params.headers && h != "Idempotency-Key" ==> HeaderOf(r, h) == Some(params.headers[h])
  {
    Post(SubscriptionsPath, ProPlanBody, WithHeader(params, "Idempotency-Key", key))
  }

  datatype TrialResult = TrialResult(requests: seq<Request>, counts: TrialCounts, checks: seq<bool>)

  /**
   The trial loop: for `i` in 0, 1 send the same POST and classify the
   `i`-th response; only the first call can count a success and only the
   second a duplicate.
   */
  method SendTwice(request: Request, statuses: seq<Status>) returns (r: TrialResult)
    requires |statuses| == 2
    ensures r.requests == [request, request]
    ensures r.counts == CountsOf(statuses[0], statuses[1])
    ensures |r.checks| == 2
    ensures forall i :: 0 <= i < 2 ==> (r.checks[i] <==> statuses[i] in CheckedStatuses)
  {
    var requests: seq<Request> := [];
    var checks: seq<bool> := [];
    var success, duplicate, failed := 0, 0, 0;
    for i := 0 to 2
      invariant |requests| == i && |checks| == i
      invariant forall j :: 0 <= j < i ==> requests[j] == request
      invariant forall j :: 0 <= j < i ==> (checks[j] <==> statuses[j] in CheckedStatuses)
      invariant success == (if i > 0 && statuses[0] in {200, 201} then 1 else 0)
      invariant duplicate == (if i > 1 && statuses[1] == 201 then 1 else 0)
      invariant failed == (if i > 0 && UnexpectedServerError(statuses[0]) then 1 else 0)
                          + (if i > 1 && UnexpectedServerError(statuses[1]) then 1 else 0)
    {
      var status := statuses[i];
      requests := requests + [request];
      checks := checks + [status in CheckedStatuses];
      if i == 0 && (status == 200 || status == 201) {
        success := success + 1;
      }
      if i == 1 && status == 201 {
        duplicate := duplicate + 1;
      }
      if status >= 500 && status != 502 {
        failed := failed + 1;
      }
    }
    r := TrialResult(requests, TrialCounts(success, duplicate, failed), checks);
  }

  /** One iteration for VU `vu`: draw a key, then run the trial with it. */
  method RunTrial(token: string, vu: nat, keyDraws: seq<real>, statuses: seq<Status>) returns (r: TrialResult)
    requires |keyDraws| == 31 && forall i :: 0 <= i < 31 ==> IsDraw(keyDraws[i])
    requires |statuses| == 2
    ensures |r.requests| == 2 && r.requests[0] == r.requests[1]
    ensures r.requests[0] == Subscribe(AuthHeaders(token, Some(vu)), Uuidv4(keyDraws))
    ensures HeaderOf(r.requests[0], "Idempotency-Key") == Some(Uuidv4(keyDraws))
    ensures IsV4Key(HeaderOf(r.requests[0], "Idempotency-Key").value)
    ensures r.counts == CountsOf(statuses[0], statuses[1])
    ensures |r.checks| == 2
    ensures forall i :: 0 <= i < 2 ==> (r.checks[i] <==> statuses[i] in CheckedStatuses)
  {
    var key := Uuidv4(keyDraws);
    r := SendTwice(Subscribe(AuthHeaders(token, Some(vu)), key), statuses);
  }

  /** The code counts a duplicate on any second-call 201, even when the first call did not succeed. */
  lemma DuplicateIgnoresFirstCall(first: Status)
    ensures CountsOf(first, 201).duplicate == 1
    ensures CountsOf(502, 201) == TrialCounts(0, 1, 0)
  {
  }

  /** Totals over a run of trials, each given by its two statuses. */
  function Totals(trials: seq<(Status, Status)>): (t: TrialCounts)
    decreases |trials|
  {
    if |trials| == 0 then TrialCounts(0, 0, 0)
    else
      var c := CountsOf(trials[0].0, trials[0].1);
      var rest := Totals(trials[1..]);
      TrialCounts(c.success + rest.success, c.duplicate + rest.duplicate, c.failed + rest.failed)
  }

  /** The thresholds `payment_duplicate: count==0` and `payment_failed: count==0`. */
  predicate ThresholdsMet(t: TrialCounts) {
    t.duplicate == 0 && t.failed == 0
  }

  /** A trial that breaks neither threshold on its own. */
  predicate CleanTrial(trial: (Status, Status)) {
    trial.1 != 201 && !UnexpectedServerError(trial.0) && !UnexpectedServerError(trial.1)
  }

  /** The run passes exactly when no trial saw a second-call 201 or an unexpected status of 500 or above. */
  lemma {:induction false} ThresholdsMetIffAllClean(trials: seq<(Status, Status)>)
    ensures ThresholdsMet(Totals(trials)) <==> forall i :: 0 <= i < |trials| ==> CleanTrial(trials[i])
    decreases |trials|
  {
    if |trials| > 0 {
      ThresholdsMetIffAllClean(trials[1..]);
      assert forall i :: 1 <= i < |trials| ==> trials[i] == trials[1..][i - 1];
    }
  }

  /** A second call that creates a new resource fails the run. */
  lemma CreatedTwiceFailsRun(trials: seq<(Status, Status)>, i: nat)
    requires i < |trials| && trials[i].1 == 201
    ensures !ThresholdsMet(Totals(trials))
  {
    ThresholdsMetIffAllClean(trials);
  }

  /** Trials whose draws differ after the variant masking use different keys. */
  lemma DistinctDrawsDistinctKeys(d1: seq<real>, d2: seq<real>)
    requires |d1| == 31 && forall i :: 0 <= i < 31 ==> IsDraw(d1[i])
    requires |d2| == 31 && forall i :: 0 <= i < 31 ==> IsDraw(d2[i])
    requires Masked(NibblesOf(d1)) != Masked(NibblesOf(d2))
    ensures Uuidv4(d1) != Uuidv4(d2)
  {
    KeyOfInjective(NibblesOf(d1), NibblesOf(d2));
  }

  /** Ten seconds up to 20 VUs, one minute forty at 20, ten seconds down. */
  const PaymentStages: seq<Stage> := [Stage(10, 20), Stage(100, 20), Stage(10, 0)]

  lemma PaymentProfile()
    ensures RampHoldRampDown(PaymentStages)
    ensures Peak(PaymentStages) == 20
    ensures TotalSeconds(PaymentStages) == 120
  {
    assert PaymentStages[1..] == [Stage(100, 20), Stage(10, 0)];
    assert PaymentStages[1..][1..] == [Stage(10, 0)];
  }
}
