/**
 The circuit-breaker (fail-open) scenario (`load-tests/scenarios/circuit-breaker.js`):
 every VU sends the same forwarded address so that an active rate limiter
 answers 429; each response is tagged with the run phase derived from the
 elapsed time (1: limiter up, 2: limiter stopped, 3: limiter restored).
 */
module CircuitBreaker {
  import opened Decimal
  import opened Http
  import opened Identity
  import opened Stages

  const CbTimeout: string := "10s"
  /** Phase 1 covers elapsed seconds below this bound. */
  const PhaseOneEnd: int := 60
  /** Phase 2 covers elapsed seconds below this bound; phase 3 the rest. */
  const PhaseTwoEnd: int := 120

  /** The request parameters of every VU: the same `X-Forwarded-For` for all of them. */
  function SharedParams(token: string): (p: Params)
    ensures p.timeout == CbTimeout
    ensures p.headers.Keys == {"Content-Type", "Authorization", "X-Forwarded-For"}
    ensures p.headers["Content-Type"] == JsonContentType
    ensures p.headers["Authorization"] == "Bearer " + token
    ensures p.headers["X-Forwarded-For"] == SharedAddress
  {
    Params(map["Content-Type" := JsonContentType,
               "Authorization" := BearerValue(token),
               "X-Forwarded-For" := SharedAddress],
           CbTimeout)
  }

  /** The shared address lies outside every per-VU bucket of the other scenarios. */
  lemma SharedAddressNotPerVu(token: string, vu: nat)
    ensures SharedParams(token).headers["X-Forwarded-For"] != Address(AuthBlock, vu)
    ensures SharedParams(token).headers["X-Forwarded-For"] != Address(ChaosBlock, vu)
  {
    SharedAddressIsolated(vu);
  }

  /** `Math.floor((now - startTime) / 1000)`: whole seconds since the run started. */
  function ElapsedSeconds(startMs: int, nowMs: int): (e: int)
    ensures e * 1000 <= nowMs - startMs < (e + 1) * 1000
  {
    (nowMs - startMs) / 1000
  }

  /** `elapsed < 60 ? 1 : elapsed < 120 ? 2 : 3` */
  function PhaseOf(elapsed: int): (p: nat)
    ensures 1 <= p <= 3
    ensures p == 1 <==> elapsed < PhaseOneEnd
    ensures p == 2 <==> PhaseOneEnd <= elapsed < PhaseTwoEnd
    ensures p == 3 <==> PhaseTwoEnd <= elapsed
  {
    if elapsed < PhaseOneEnd then 1 else if elapsed < PhaseTwoEnd then 2 else 3
  }

  /**
   The phase at `nowMs` of a run started at `startMs`. In milliseconds the
   phases are the half-open windows [.., 60000), [60000, 120000), [120000, ..).
   */
  function Phase(startMs: int, nowMs: int): (p: nat)
    ensures 1 <= p <= 3
    ensures p == 1 <==> nowMs - startMs < 60000
    ensures p == 2 <==> 60000 <= nowMs - startMs < 120000
    ensures p == 3 <==> 120000 <= nowMs - startMs
  {
    PhaseOf(ElapsedSeconds(startMs, nowMs))
  }

  /** The phase never goes back as time passes. */
  lemma PhaseMonotone(startMs: int, now1: int, now2: int)
    requires now1 <= now2
    ensures Phase(startMs, now1) <= Phase(startMs, now2)
  {
  }

  /** Each boundary second belongs to the later phase. */
  lemma PhaseBoundaries()
    ensures PhaseOf(59) == 1 && PhaseOf(60) == 2 && PhaseOf(119) == 2 && PhaseOf(120) == 3
  {
  }

  datatype CbCounter = RateLimitHits | RequestsPassed | RequestsFailed

  /** Which counter a response moves. */
  function CounterOf(status: Status): (c: CbCounter)
    ensures c == RateLimitHits <==> status == 429
    ensures c == RequestsPassed <==> status == 200
    ensures c == RequestsFailed <==> status !in {200, 429}
  {
    if status == 429 then RateLimitHits else if status == 200 then RequestsPassed else RequestsFailed
  }

  datatype Check = Check(name: string, passed: bool)

  /** The phase-tagged check recorded for a response. */
  function CheckOf(phase: nat, status: Status): (c: Check)
    ensures c.passed <==> status in {200, 429}
    ensures ("phase" + FromNat(phase) + ": ") <= c.name
  {
    var tag := "phase" + FromNat(phase) + ": ";
    if status == 429 then Check(tag + "rate limited (429)", true)
    else if status == 200 then Check(tag + "request passed (200)", true)
    else Check(tag + "unexpected status " + FromNat(status), false)
  }

  /** The check passes exactly when the response is not counted as failed. */
  lemma CheckPassesIffNotFailed(phase: nat, status: Status)
    ensures CheckOf(phase, status).passed <==> CounterOf(status) != RequestsFailed
  {
  }

  /** What one iteration sends and records. */
  datatype CbStep = CbStep(requests: seq<Request>, counter: Option<CbCounter>, check: Option<Check>)

  /**
   One iteration: without a token nothing is sent or counted; otherwise one
   request, one counter and one check tagged with the phase at `nowMs`.
   */
  function Iteration(token: Option<string>, startMs: int, nowMs: int, status: Status): (s: CbStep)
    ensures !Truthy(token) ==> s.requests == [] && s.counter.None? && s.check.None?
    ensures Truthy(token) ==> s.requests == [Get(RetroRoomsPath, SharedParams(token.value))]
    ensures Truthy(token) ==> s.counter == Some(CounterOf(status))
    ensures Truthy(token) ==> s.check.Some? && (s.check.value.passed <==> status in {200, 429})
    ensures Truthy(token) ==> ("phase" + FromNat(Phase(startMs, nowMs)) + ": ") <= s.check.value.name
  {
    if !Truthy(token) then CbStep([], None, None)
    else
      var request := Get(RetroRoomsPath, SharedParams(token.value));
      CbStep([request], Some(CounterOf(status)), Some(CheckOf(Phase(startMs, nowMs), status)))
  }

  /** Ten seconds up to 30 VUs, two minutes forty at 30, ten seconds down. */
  const CircuitBreakerStages: seq<Stage> := [Stage(10, 30), Stage(160, 30), Stage(10, 0)]

  /** The profile lasts 180 s: exactly the three 60 s phases. */
  lemma CircuitBreakerProfile()
    ensures RampHoldRampDown(CircuitBreakerStages)
    ensures TotalSeconds(CircuitBreakerStages) == 180 == PhaseTwoEnd + (PhaseTwoEnd - PhaseOneEnd)
    ensures Peak(CircuitBreakerStages) == 30
  {
    assert CircuitBreakerStages[1..] == [Stage(160, 30), Stage(10, 0)];
    assert CircuitBreakerStages[1..][1..] == [Stage(10, 0)];
  }
}
