/**
 The rate-limiter scenario (`load-tests/scenarios/rate-limiter.js`): every VU
 posts AI-analysis requests from the same address (no forwarded identity),
 and each response is counted as rate limited, successful or a server error.
 The run passes when at least one request was rate limited.
 */
module RateLimiter {
  import opened Http
  import opened Draws
  import opened Auth
  import opened Stages

  datatype RlCounter = RateLimited | Success | ServerError

  /** The `if / else if / else if` over the status: 429, then 2xx, then status 500 or above; anything else is not counted. */
  function Classify(status: Status): (c: Option<RlCounter>)
    ensures c == Some(RateLimited) <==> status == 429
    ensures c == Some(Success) <==> 200 <= status < 300
    ensures c == Some(ServerError) <==> status >= 500
    ensures c.None? <==> status < 200 || (300 <= status < 500 && status != 429)
  {
    if status == 429 then Some(RateLimited)
    else if 200 <= status < 300 then Some(Success)
    else if status >= 500 then Some(ServerError)
    else None
  }

  /** What one iteration sends and records. */
  datatype RlStep = RlStep(request: Request, counter: Option<RlCounter>, checked: bool, retryAfter: Option<string>)

  /**
   The default function: one analysis POST for a random retrospect, with the
   library headers but no `X-Forwarded-For`, so every VU shares one address.
   A check is recorded for 429 and for 2xx; on a 429 a non-empty `Retry-After`
   header is kept (its numeric parsing is not modelled).
   */
  function Iteration(token: string, retroDraw: real, status: Status, retryAfter: Option<string>): (s: RlStep)
    requires IsDraw(retroDraw)
    ensures s.request == Post(AnalysisPath(RetroId(retroDraw)), EmptyJsonBody, AuthHeaders(token, None))
    ensures HeaderOf(s.request, "X-Forwarded-For").None?
    ensures s.counter == Classify(status)
    ensures s.checked <==> status == 429 || 200 <= status < 300
    ensures s.retryAfter.Some? <==> status == 429 && Truthy(retryAfter)
    ensures s.retryAfter.Some? ==> s.retryAfter == retryAfter
  {
    var request := Post(AnalysisPath(RetroId(retroDraw)), EmptyJsonBody, AuthHeaders(token, None));
    if status == 429 then
      RlStep(request, Some(RateLimited), true, if Truthy(retryAfter) then retryAfter else None)
    else if 200 <= status < 300 then
      RlStep(request, Some(Success), true, None)
    else if status >= 500 then
      RlStep(request, Some(ServerError), false, None)
    else
      RlStep(request, None, false, None)
  }

  /** `rate_limited_count` after a run of responses. */
  function RateLimitedCount(statuses: seq<Status>): nat
    decreases |statuses|
  {
    if |statuses| == 0 then 0
    else (if Classify(statuses[0]) == Some(RateLimited) then 1 else 0) + RateLimitedCount(statuses[1..])
  }

  /** The threshold `rate_limited_count: count>0`. */
  predicate ThresholdMet(statuses: seq<Status>) {
    RateLimitedCount(statuses) > 0
  }

  /** The run passes exactly when some response was a 429. */
  lemma {:induction false} ThresholdMetIffSome429(statuses: seq<Status>)
    ensures ThresholdMet(statuses) <==> exists i :: 0 <= i < |statuses| && statuses[i] == 429
    decreases |statuses|
  {
    if |statuses| > 0 {
      ThresholdMetIffSome429(statuses[1..]);
      if statuses[0] != 429 && exists i :: 0 <= i < |statuses| && statuses[i] == 429 {
        var i :| 0 <= i < |statuses| && statuses[i] == 429;
        assert statuses[1..][i - 1] == 429;
      }
      if exists i :: 0 <= i < |statuses[1..]| && statuses[1..][i] == 429 {
        var i :| 0 <= i < |statuses[1..]| && statuses[1..][i] == 429;
        assert statuses[i + 1] == 429;
      }
    }
  }

  /** Fifteen seconds up to 50 VUs, two and a half minutes at 50, fifteen seconds down. */
  const RateLimiterStages: seq<Stage> := [Stage(15, 50), Stage(150, 50), Stage(15, 0)]

  lemma RateLimiterProfile()
    ensures RampHoldRampDown(RateLimiterStages)
    ensures Peak(RateLimiterStages) == 50
    ensures TotalSeconds(RateLimiterStages) == 180
  {
    assert RateLimiterStages[1..] == [Stage(150, 50), Stage(15, 0)];
    assert RateLimiterStages[1..][1..] == [Stage(15, 0)];
  }
}
