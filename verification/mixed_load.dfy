/**
 The mixed-load scenario (`load-tests/scenarios/mixed-load.js`): one draw
 splits the traffic 70 / 20 / 10 into reads, AI analyses and payments; each
 behaviour issues one request and classifies its status both for the custom
 error rate and for its check.
 */
module MixedLoad {
  import opened Http
  import opened Draws
  import opened Auth
  import opened Uuid
  import opened Stages

  datatype Category = Read | Analysis | Payment

  /** Cumulative thresholds of the 70 / 20 / 10 split. */
  const CategoryCuts: seq<real> := [0.7, 0.9]
  /** Within reads, the share of list requests (the rest are detail requests). */
  const ListShare: real := 0.6

  /** The top-level `if (rand < 0.7) … else if (rand < 0.9) … else …`. */
  function CategoryOf(u: real): (c: Category)
    ensures c == Read <==> u < 0.7
    ensures c == Analysis <==> 0.7 <= u < 0.9
    ensures c == Payment <==> 0.9 <= u
  {
    if u < 0.7 then Read else if u < 0.9 then Analysis else Payment
  }

  /** The if-chain is the weighted selector over the cumulative thresholds 0.7 and 0.9. */
  lemma CategoryIsPick(u: real)
    ensures CategoryOf(u) == [Read, Analysis, Payment][Pick(CategoryCuts, u)]
  {
    assert CategoryCuts[1..] == [0.9];
  }

  /** A larger draw never selects an earlier category (read, then AI, then payment). */
  lemma CategoryMonotone(u: real, v: real)
    requires u <= v
    ensures CategoryOf(u) == Analysis ==> CategoryOf(v) != Read
    ensures CategoryOf(u) == Payment ==> CategoryOf(v) == Payment
  {
  }

  /** How a status counts: a sample for `custom_error_rate`, and the check's verdict. */
  datatype Verdict = Verdict(error: bool, checkPassed: bool)

  /** Room list: `ok = 200`; 429 is not an error. */
  function ReadListVerdict(status: Status): (v: Verdict)
    ensures v.error <==> status !in {200, 429}
    ensures v.checkPassed <==> status == 200
  {
    var ok := status == 200;
    Verdict(!ok && status != 429, status == 200)
  }

  /** Retrospect detail: `ok = 200 or 404`; 429 is not an error. */
  function ReadDetailVerdict(status: Status): (v: Verdict)
    ensures v.error <==> status !in {200, 404, 429}
    ensures v.checkPassed <==> status in {200, 404}
  {
    var ok := status == 200 || status == 404;
    Verdict(!ok && status != 429, status == 200 || status == 404)
  }

  /** AI analysis: `ok = 200 or 429`. */
  function AnalysisVerdict(status: Status): (v: Verdict)
    ensures v.error <==> status !in {200, 429}
    ensures v.checkPassed <==> status in {200, 429}
  {
    var ok := status == 200 || status == 429;
    Verdict(!ok, status == 200 || status == 429)
  }

  /** Payment: `ok = 200, 201 or 502`; 429 is not an error; the check also accepts 400 and 409. */
  function PaymentVerdict(status: Status): (v: Verdict)
    ensures v.error <==> status !in {200, 201, 429, 502}
    ensures v.checkPassed <==> status in {200, 201, 400, 409, 429, 502}
  {
    var ok := status == 200 || status == 201 || status == 502;
    Verdict(!ok && status != 429,
            status == 200 || status == 201 || status == 409 || status == 400 || status == 429 || status == 502)
  }

  /** The analysis classifications agree: an error exactly when the check fails. */
  lemma AnalysisErrorIsFailedCheck(status: Status)
    ensures AnalysisVerdict(status).error <==> !AnalysisVerdict(status).checkPassed
  {
  }

  /** For reads an error always fails the check; 429 fails the check without counting as an error. */
  lemma ReadErrorsFailChecks(status: Status)
    ensures ReadListVerdict(status).error ==> !ReadListVerdict(status).checkPassed
    ensures ReadDetailVerdict(status).error ==> !ReadDetailVerdict(status).checkPassed
    ensures status == 429 ==> !ReadListVerdict(status).error && !ReadListVerdict(status).checkPassed
    ensures status == 429 ==> !ReadDetailVerdict(status).error && !ReadDetailVerdict(status).checkPassed
  {
  }

  /** The payment classifications disagree exactly on 400 and 409: the check passes, the error rate counts them. */
  lemma PaymentCheckedErrors(status: Status)
    ensures (PaymentVerdict(status).checkPassed && PaymentVerdict(status).error) <==> status in {400, 409}
    ensures PaymentVerdict(status).error ==> status in {400, 409} || !PaymentVerdict(status).checkPassed
  {
  }

  /** The draws one iteration may consume, by use. */
  datatype MixedDraws = MixedDraws(category: real, readKind: real, retro: real, key: seq<real>)

  predicate ValidDraws(d: MixedDraws) {
    && IsDraw(d.category) && IsDraw(d.readKind) && IsDraw(d.retro)
    && |d.key| == 31 && forall i :: 0 <= i < 31 ==> IsDraw(d.key[i])
  }

  /** The one request of an iteration and how its response counts. */
  datatype MixedStep = MixedStep(category: Category, requests: seq<Request>, verdict: Verdict)

  /** The request a category sends; `key` is used only by payments. */
  function Issue(category: Category, readKind: real, retroId: nat, params: Params, key: string): (r: Request)
    ensures category == Read && readKind < ListShare ==> r == Get(RetroRoomsPath, params)
    ensures category == Read && ListShare <= readKind ==> r == Get(RetrospectPath(retroId), params)
    ensures category == Analysis ==> r == Post(AnalysisPath(retroId), EmptyJsonBody, params)
    ensures category == Payment ==> r.Post? && r.path == SubscriptionsPath && r.body == ProPlanBody
    ensures category == Payment ==> HeaderOf(r, "Idempotency-Key") == Some(key) && r.params.timeout == params.timeout
    ensures forall h :: h in params.headers && h != "Idempotency-Key" ==> HeaderOf(r, h) == Some(params.headers[h])
  {
    match category
    case Read =>
      if readKind < ListShare then Get(RetroRoomsPath, params) else Get(RetrospectPath(retroId), params)
    case Analysis => Post(AnalysisPath(retroId), EmptyJsonBody, params)
    case Payment => Post(SubscriptionsPath, ProPlanBody, WithHeader(params, "Idempotency-Key", key))
  }

  /** How the response of a category's request counts. */
  function VerdictOf(category: Category, readKind: real, status: Status): Verdict {
    match category
    case Read => if readKind < ListShare then ReadListVerdict(status) else ReadDetailVerdict(status)
    case Analysis => AnalysisVerdict(status)
    case Payment => PaymentVerdict(status)
  }

  /** The default function for VU `vu`, whose one request answered `status`. */
  function Iteration(token: string, vu: nat, d: MixedDraws, status: Status): (s: MixedStep)
    requires ValidDraws(d)
    ensures s.category == CategoryOf(d.category)
    ensures |s.requests| == 1
    ensures s.category == Read && d.readKind < ListShare ==>
              s.requests[0] == Get(RetroRoomsPath, AuthHeaders(token, Some(vu))) && s.verdict == ReadListVerdict(status)
    ensures s.category == Read && ListShare <= d.readKind ==>
              s.requests[0] == Get(RetrospectPath(RetroId(d.retro)), AuthHeaders(token, Some(vu)))
              && s.verdict == ReadDetailVerdict(status)
    ensures s.category == Analysis ==>
              s.requests[0] == Post(AnalysisPath(RetroId(d.retro)), EmptyJsonBody, AuthHeaders(token, Some(vu)))
              && s.verdict == AnalysisVerdict(status)
    ensures s.category == Payment ==>
              s.requests[0].Post? && s.requests[0].path == SubscriptionsPath
              && s.requests[0].body == ProPlanBody && s.requests[0].params.timeout == LibraryTimeout
              && HeaderOf(s.requests[0], "Idempotency-Key") == Some(Uuidv4(d.key))
              && s.verdict == PaymentVerdict(status)
  {
    var category := CategoryOf(d.category);
    var request := Issue(category, d.readKind, RetroId(d.retro), AuthHeaders(token, Some(vu)), Uuidv4(d.key));
    MixedStep(category, [request], VerdictOf(category, d.readKind, status))
  }

  /** Whatever the category, the request carries every library header of the VU, its identity included. */
  lemma IterationKeepsAuthHeaders(token: string, vu: nat, d: MixedDraws, status: Status, h: string)
    requires ValidDraws(d) && h in AuthHeaders(token, Some(vu)).headers
    ensures HeaderOf(Iteration(token, vu, d, status).requests[0], h) == Some(AuthHeaders(token, Some(vu)).headers[h])
  {
    assert h in {"Content-Type", "Authorization", "X-Forwarded-For"};
  }

  /** `read_requests`, `ai_requests`, `payment_requests`. */
  datatype CategoryCounts = CategoryCounts(read: nat, ai: nat, payment: nat)

  function Total(c: CategoryCounts): nat {
    c.read + c.ai + c.payment
  }

  /** The counter an iteration adds to. */
  function Record(c: CategoryCounts, category: Category): (c': CategoryCounts)
    ensures Total(c') == Total(c) + 1
    ensures c'.read == c.read + (if category == Read then 1 else 0)
    ensures c'.ai == c.ai + (if category == Analysis then 1 else 0)
    ensures c'.payment == c.payment + (if category == Payment then 1 else 0)
  {
    match category
    case Read => c.(read := c.read + 1)
    case Analysis => c.(ai := c.ai + 1)
    case Payment => c.(payment := c.payment + 1)
  }

  /** The ramp: one minute to 200 VUs, eight minutes at 200, one minute down. */
  const MixedLoadStages: seq<Stage> := [Stage(60, 200), Stage(480, 200), Stage(60, 0)]

  lemma MixedLoadProfile()
    ensures RampHoldRampDown(MixedLoadStages)
    ensures Peak(MixedLoadStages) == 200
    ensures TotalSeconds(MixedLoadStages) == 600
  {
    assert MixedLoadStages[1..] == [Stage(480, 200), Stage(60, 0)];
    assert MixedLoadStages[1..][1..] == [Stage(60, 0)];
  }
}
