/**
 The shapes the scripts hand to k6's HTTP client: request parameters (headers
 and timeout) and the requests themselves. Sending is not modelled; a scenario
 iteration returns the list of requests it issues, and each response enters
 the model only as its status code (plus the headers a classifier reads).
 */
module Http {
  import opened Decimal

  datatype Option<T> = None | Some(value: T)

  /** An HTTP status code; k6 reports 0 when no response arrived. */
  type Status = nat

  datatype Params = Params(headers: map<string, string>, timeout: string)

  datatype Request =
    | Get(path: string, params: Params)
    | Post(path: string, body: string, params: Params)

  const JsonContentType: string := "application/json"
  const EmptyJsonBody: string := "{}"
  const ProPlanBody: string := "{\"planName\":\"PRO\"}"

  const RetroRoomsPath: string := "/api/v1/retro-rooms"
  const SubscriptionsPath: string := "/api/v1/subscriptions"

  function RetrospectPath(retroId: nat): string {
    "/api/v1/retrospects/" + FromNat(retroId)
  }

  function AnalysisPath(retroId: nat): string {
    RetrospectPath(retroId) + "/analysis"
  }

  function BearerValue(token: string): string {
    "Bearer " + token
  }

  /** JavaScript truthiness of a string that may be null: null and "" are falsy. */
  predicate Truthy(s: Option<string>) {
    s.Some? && s.value != ""
  }

  /** The same parameters with one more header, as `{...params.headers, name: value}` builds them. */
  function WithHeader(p: Params, name: string, value: string): Params {
    Params(p.headers[name := value], p.timeout)
  }

  /** The value a header carries, if it is set. */
  function HeaderOf(r: Request, name: string): Option<string> {
    if name in r.params.headers then Some(r.params.headers[name]) else None
  }
}
