/**
 The chaos traffic scenario (`load-tests/scenarios/chaos/k6-chaos-traffic.js`):
 a `TRAFFIC_TYPE` selects read, payment or a 70/30 mix; every response is
 tracked in one of six status buckets and, from status 400 on, as an error.
 */
module Chaos {
  import opened Http
  import opened Identity
  import opened Draws
  import opened Stages

  const ChaosTimeout: string := "10s"

  /** `makeHeaders(token)` for the VU with ordinal `vu`. */
  function MakeHeaders(token: string, vu: nat): (p: Params)
    ensures p.timeout == ChaosTimeout
    ensures p.headers.Keys == {"Content-Type", "Authorization", "X-Forwarded-For"}
    ensures p.headers["Content-Type"] == JsonContentType
    ensures p.headers["Authorization"] == "Bearer " + token
    ensures p.headers["X-Forwarded-For"] == Address(ChaosBlock, vu)
  {
    Params(map["Content-Type" := JsonContentType,
               "Authorization" := BearerValue(token),
               "X-Forwarded-For" := Address(ChaosBlock, vu)],
           ChaosTimeout)
  }

  /** Distinct VUs of the chaos scenario never share a forwarded identity. */
  lemma MakeHeadersSeparateVus(token: string, vu1: nat, vu2: nat)
    requires vu1 != vu2
    ensures MakeHeaders(token, vu1).headers["X-Forwarded-For"] != MakeHeaders(token, vu2).headers["X-Forwarded-For"]
  {
    if Address(ChaosBlock, vu1) == Address(ChaosBlock, vu2) {
      AddressInjective(ChaosBlock, vu1, ChaosBlock, vu2);
    }
  }

  /** The chaos identities never coincide with the library's `10.100.*` identities. */
  lemma ChaosIdentitiesDisjointFromLibrary(vu: nat, other: nat)
    ensures Address(ChaosBlock, vu) != Address(AuthBlock, other)
  {
    if Address(ChaosBlock, vu) == Address(AuthBlock, other) {
      AddressInjective(ChaosBlock, vu, AuthBlock, other);
    }
  }

  datatype Bucket = S200 | S429 | S500 | S502 | S503 | SOther

  /** The `switch (res.status)` of `trackResponse`. */
  function BucketOf(status: Status): (b: Bucket)
    ensures b == S200 <==> status == 200
    ensures b == S429 <==> status == 429
    ensures b == S500 <==> status == 500
    ensures b == S502 <==> status == 502
    ensures b == S503 <==> status == 503
    ensures b == SOther <==> status !in {200, 429, 500, 502, 503}
  {
    match status
    case 200 => S200
    case 429 => S429
    case 500 => S500
    case 502 => S502
    case 503 => S503
    case _ => SOther
  }

  /** The scenario's counters: one per status bucket, plus `chaos_errors`. */
  datatype Tally = Tally(s200: nat, s429: nat, s500: nat, s502: nat, s503: nat, sOther: nat, errors: nat)

  const NoResponses: Tally := Tally(0, 0, 0, 0, 0, 0, 0)

  function Count(t: Tally, b: Bucket): nat {
    match b
    case S200 => t.s200
    case S429 => t.s429
    case S500 => t.s500
    case S502 => t.s502
    case S503 => t.s503
    case SOther => t.sOther
  }

  function BucketSum(t: Tally): nat {
    t.s200 + t.s429 + t.s500 + t.s502 + t.s503 + t.sOther
  }

  /** The tally with bucket `b` moved up by one. */
  function Bump(t: Tally, b: Bucket): (u: Tally)
    ensures Count(u, b) == Count(t, b) + 1
    ensures forall c :: c != b ==> Count(u, c) == Count(t, c)
    ensures BucketSum(u) == BucketSum(t) + 1
    ensures u.errors == t.errors
  {
    match b
    case S200 => t.(s200 := t.s200 + 1)
    case S429 => t.(s429 := t.s429 + 1)
    case S500 => t.(s500 := t.s500 + 1)
    case S502 => t.(s502 := t.s502 + 1)
    case S503 => t.(s503 := t.s503 + 1)
    case SOther => t.(sOther := t.sOther + 1)
  }

  /** `trackResponse(res)` (the latency trend is left out). */
  function TrackResponse(t: Tally, status: Status): (u: Tally)
    ensures Count(u, BucketOf(status)) == Count(t, BucketOf(status)) + 1
    ensures forall b :: b != BucketOf(status) ==> Count(u, b) == Count(t, b)
    ensures BucketSum(u) == BucketSum(t) + 1
    ensures u.errors == t.errors + (if status >= 400 then 1 else 0)
  {
    var u := Bump(t, BucketOf(status));
    if status >= 400 then u.(errors := u.errors + 1) else u
  }

  /** 2xx other than 200 and 3xx land in the other bucket without an error; 4xx other than 429 land there as errors. */
  lemma OtherBucketSplitsOnErrors(status: Status)
    requires BucketOf(status) == SOther
    ensures TrackResponse(NoResponses, status).errors == 1 <==> status >= 400
    ensures 200 <= status < 400 ==> TrackResponse(NoResponses, status).errors == 0
  {
  }

  /** Every bucket but 200 and "other" is an error bucket. */
  lemma NamedFailureBucketsAreErrors(status: Status)
    requires BucketOf(status) in {S429, S500, S502, S503}
    ensures TrackResponse(NoResponses, status).errors == 1
  {
  }

  /** Tracking a whole run of responses, in order. */
  function TrackAll(t: Tally, statuses: seq<Status>): Tally
    decreases |statuses|
  {
    if |statuses| == 0 then t else TrackAll(TrackResponse(t, statuses[0]), statuses[1..])
  }

  /** How many of the responses fall in bucket `b`. */
  function InBucket(statuses: seq<Status>, b: Bucket): nat
    decreases |statuses|
  {
    if |statuses| == 0 then 0
    else (if BucketOf(statuses[0]) == b then 1 else 0) + InBucket(statuses[1..], b)
  }

  /** How many of the responses have status 400 or above. */
  function AtLeast400(statuses: seq<Status>): nat
    decreases |statuses|
  {
    if |statuses| == 0 then 0
    else (if statuses[0] >= 400 then 1 else 0) + AtLeast400(statuses[1..])
  }

  /**
   After any run of responses the buckets partition them: each bucket holds
   exactly its responses, the buckets add up to the number of responses, and
   the error counter holds the responses with status 400 or above.
   */
  lemma {:induction false} TrackAllPartitions(t: Tally, statuses: seq<Status>)
    ensures forall b :: Count(TrackAll(t, statuses), b) == Count(t, b) + InBucket(statuses, b)
    ensures BucketSum(TrackAll(t, statuses)) == BucketSum(t) + |statuses|
    ensures TrackAll(t, statuses).errors == t.errors + AtLeast400(statuses)
    decreases |statuses|
  {
    if |statuses| > 0 {
      TrackAllPartitions(TrackResponse(t, statuses[0]), statuses[1..]);
    }
  }

  datatype Behaviour = ReadTraffic | PaymentTraffic

  const MixedReadShare: real := 0.7

  /** `mixedTraffic`: one draw, read below 0.7, payment otherwise. */
  function MixedTraffic(u: real): (b: Behaviour)
    ensures b == ReadTraffic <==> u < MixedReadShare
  {
    if u < MixedReadShare then ReadTraffic else PaymentTraffic
  }

  /** The mix is the weighted selector over the single threshold 0.7. */
  lemma MixedTrafficIsPick(u: real)
    ensures MixedTraffic(u) == [ReadTraffic, PaymentTraffic][Pick([MixedReadShare], u)]
  {
  }

  /** The `switch (TRAFFIC_TYPE)` of the main function; `u` is consumed only by the mix. */
  function Dispatch(trafficType: string, u: real): (b: Behaviour)
    ensures trafficType == "payment" ==> b == PaymentTraffic
    ensures trafficType == "mixed" ==> b == MixedTraffic(u)
    ensures trafficType != "payment" && trafficType != "mixed" ==> b == ReadTraffic
  {
    match trafficType
    case "payment" => PaymentTraffic
    case "mixed" => MixedTraffic(u)
    case _ => ReadTraffic
  }

  /**
   The request a behaviour issues. The payment key is built from the clock and
   a base-36 random string; it enters here as `key`.
   */
  function Issue(b: Behaviour, params: Params, key: string): (r: Request)
    ensures b == ReadTraffic ==> r == Get(RetroRoomsPath, params)
    ensures b == PaymentTraffic ==> r.Post? && r.path == SubscriptionsPath
    ensures b == PaymentTraffic ==> r.body == ProPlanBody && r.params.timeout == params.timeout
    ensures b == PaymentTraffic ==> HeaderOf(r, "X-Idempotency-Key") == Some(key)
    ensures forall h :: h in params.headers && h != "X-Idempotency-Key" ==> HeaderOf(r, h) == Some(params.headers[h])
  {
    match b
    case ReadTraffic => Get(RetroRoomsPath, params)
    case PaymentTraffic => Post(SubscriptionsPath, ProPlanBody, WithHeader(params, "X-Idempotency-Key", key))
  }

  /**
   One iteration of the main function: without a token nothing is sent; with
   one, exactly one request goes out, carrying the VU's `10.200.*` identity.
   */
  function Iteration(token: Option<string>, trafficType: string, vu: nat, u: real, key: string): (rs: seq<Request>)
    ensures !Truthy(token) ==> rs == []
    ensures Truthy(token) ==> |rs| == 1
    ensures Truthy(token) ==> HeaderOf(rs[0], "X-Forwarded-For") == Some(Address(ChaosBlock, vu))
    ensures Truthy(token) ==> (rs[0].Post? <==> Dispatch(trafficType, u) == PaymentTraffic)
    ensures Truthy(token) && Dispatch(trafficType, u) == ReadTraffic ==>
              rs[0] == Get(RetroRoomsPath, MakeHeaders(token.value, vu))
    ensures Truthy(token) && Dispatch(trafficType, u) == PaymentTraffic ==>
              rs[0].path == SubscriptionsPath && rs[0].body == ProPlanBody
              && rs[0].params.timeout == ChaosTimeout
              && HeaderOf(rs[0], "Authorization") == Some("Bearer " + token.value)
              && HeaderOf(rs[0], "X-Idempotency-Key") == Some(key)
  {
    if !Truthy(token) then []
    else [Issue(Dispatch(trafficType, u), MakeHeaders(token.value, vu), key)]
  }

  /** The counters after one iteration whose request (if any) answered `status`. */
  function Step(t: Tally, token: Option<string>, trafficType: string, vu: nat, u: real, key: string, status: Status): (u': Tally)
    ensures !Truthy(token) ==> u' == t
    ensures Truthy(token) ==> u' == TrackResponse(t, status)
    ensures Truthy(token) ==> Count(u', BucketOf(status)) == Count(t, BucketOf(status)) + 1
    ensures Truthy(token) ==> forall b :: b != BucketOf(status) ==> Count(u', b) == Count(t, b)
    ensures Truthy(token) ==> u'.errors == t.errors + (if status >= 400 then 1 else 0)
    ensures Truthy(token) ==> BucketSum(u') == BucketSum(t) + 1
  {
    var sent := Iteration(token, trafficType, vu, u, key);
    if |sent| == 0 then t else TrackResponse(t, status)
  }

  /** Five seconds up to `CHAOS_VUS`, `CHAOS_DURATION` at that level, five seconds down. */
  function ChaosStages(vus: nat, sustainSeconds: nat): (stages: seq<Stage>)
    ensures RampHoldRampDown(stages)
    ensures Peak(stages) == vus
    ensures TotalSeconds(stages) == sustainSeconds + 10
  {
    var stages := [Stage(5, vus), Stage(sustainSeconds, vus), Stage(5, 0)];
    assert stages[1..] == [Stage(sustainSeconds, vus), Stage(5, 0)];
    assert stages[1..][1..] == [Stage(5, 0)];
    assert TotalSeconds(stages[1..][1..]) == 5;
    stages
  }

  /** With no environment overrides: 20 VUs for 30 s, 40 s in all. */
  lemma DefaultChaosProfile()
    ensures Peak(ChaosStages(20, 30)) == 20 && TotalSeconds(ChaosStages(20, 30)) == 40
  {
  }
}
