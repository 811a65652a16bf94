# k6 load-test decision rules in Dafny

The load tests drive an HTTP API with k6 virtual users (VUs) in six
scenarios: baseline, rate limiter, payment concurrency, mixed load, circuit
breaker and chaos traffic. The first four share one small library for login
and request headers; the circuit-breaker and chaos scenarios carry their own
token helper and headers. This project models the parts of those scripts
that are pure decisions:

- how a VU ordinal becomes a synthetic `X-Forwarded-For` identity;
- how a login response yields the bearer token, through the cookie jar or
  the `Set-Cookie` fallback with its `access_token=([^;]+)` pattern;
- how a uniform draw in `[0, 1)` selects the behaviour of an iteration;
- how a random UUID v4 idempotency key is written;
- how the two calls of an idempotency trial are classified into success,
  duplicate and failure counts, and when the run's thresholds hold;
- how each scenario classifies a response status into counters and checks;
- which run phase a moment falls into in the circuit-breaker scenario;
- the stage profiles of the ramping executor.

Each random number the script draws is a named `real` parameter in
`[0, 1)`. The clock is an integer number of milliseconds. A response enters
the model only as its status code, plus the headers or cookies a rule reads.
An iteration returns the requests it would send and the counter increments
it would make. Sending them is k6's job and lies outside the model.

Modules: `Decimal` (decimal rendering of numbers), `Identity` (synthetic
addresses), `Http` (requests, parameters, paths), `Draws` (scaling a draw,
weighted selection), `TokenPattern` (the cookie pattern), `Auth` (the shared
library and the inline token helper), `Uuid`, `Stages`, and one module per
scenario: `Baseline`, `RateLimiter`, `PaymentConcurrency`, `MixedLoad`,
`CircuitBreaker`, `Chaos`.

In the idempotency trial a duplicate is counted on every second-call 201,
whatever the first call answered, 502 included (`PaymentConcurrency.CountsOf`,
`PaymentConcurrency.DuplicateIgnoresFirstCall`).

## Model

| member | source | states |
|---|---|---|
| Decimal.FromNat | load-tests/lib/auth.js:63 | The decimal text of a number used inside an address is non-empty, all digits, and has no leading zero |
| Decimal.ToNatFromNat | load-tests/lib/auth.js:63 | Reading the decimal text back gives the number: the rendering loses nothing |
| Decimal.FromNatInjective | load-tests/lib/auth.js:63 | Different numbers render as different decimal texts |
| Identity.Dotted | load-tests/lib/auth.js:63 | The rendering starts with the first number's numeral, followed by a dot exactly when more numbers follow, and holds only digits and dots |
| Identity.Address | load-tests/lib/auth.js:60-64 | An identity starts with `10.`, the block's numeral and a dot, and holds only digits and dots |
| Identity.Octets | load-tests/lib/auth.js:61-62 | The two low octets satisfy ordinal = hi * 256 + lo with lo < 256, and hi < 256 for ordinals below 65536 |
| Identity.DottedInjective | load-tests/lib/auth.js:63 | Joining equally many numbers with dots is injective: the same text means the same numbers |
| Identity.AddressInjective | load-tests/lib/auth.js:60-64 | Two identities are equal only when their block (100, 200, 99) and VU ordinal are equal |
| Identity.AddressIsIPv4 | load-tests/lib/auth.js:61-63 | For ordinals below 65536 both low octets are in 0..255 |
| Identity.SharedAddressIsBlock99 | load-tests/scenarios/circuit-breaker.js:88 | The shared circuit-breaker address is the identity of ordinal 1 in block 99 |
| Identity.SharedAddressIsolated | load-tests/scenarios/circuit-breaker.js:88 | The shared address never equals a per-VU identity of the library or the chaos scenario |
| Identity.AddressPrefix | load-tests/lib/auth.js:63 | Library identities start with `10.100.` and chaos identities with `10.200.` |
| Draws.Scaled | load-tests/scenarios/rate-limiter.js:55 | The floor of the exact product `u * n` for a draw u in [0, 1): below n, and the k with k <= u * n < k + 1 |
| Draws.ScaledReachesAll | load-tests/scenarios/rate-limiter.js:55 | Every value below n is reached by some draw |
| Draws.RetroId | load-tests/scenarios/rate-limiter.js:55 | The retrospect id is always in 1..5 |
| Draws.Pick | load-tests/scenarios/mixed-load.js:58-102 | The weighted selector picks the first cumulative threshold the draw is below: all earlier thresholds are at most the draw |
| Draws.PickMonotone | load-tests/scenarios/mixed-load.js:58-102 | A larger draw never selects an earlier behaviour |
| Draws.PickInterval | load-tests/scenarios/mixed-load.js:58-102 | With ascending thresholds, behaviour k is selected exactly when the draw lies in its half-open interval |
| TokenPattern.RunFrom | load-tests/lib/auth.js:37 | The captured group is the maximal run of non-`;` characters at that position |
| TokenPattern.FirstMatchFrom | load-tests/lib/auth.js:37 | The pattern search finds the leftmost occurrence of `access_token=` followed by a non-`;` character, or reports that none exists |
| TokenPattern.MatchToken | load-tests/lib/auth.js:37-39 | A cookie yields no token exactly when the pattern occurs nowhere; a token is non-empty and holds no `;` |
| TokenPattern.MatchTokenLeftmost | load-tests/lib/auth.js:37-39 | The token is the group captured at the leftmost occurrence |
| TokenPattern.FirstToken | load-tests/lib/auth.js:36-41 | Over a cookie list no token comes back exactly when no cookie matches |
| TokenPattern.FirstTokenIsFirstMatch | load-tests/lib/auth.js:36-41 | The first matching cookie decides, whatever follows it |
| Auth.FallbackLines | load-tests/lib/auth.js:33-35 | An absent or empty header gives no cookie strings, a non-empty string gives itself as a one-element list, and a list is scanned as it is |
| Auth.FromSetCookie | load-tests/lib/auth.js:33-42 | The `Set-Cookie` fallback yields nothing exactly when none of its lines matches |
| Auth.GetAuthToken | load-tests/lib/auth.js:12-46 | A non-200 login gives null; otherwise a non-empty jar's first value wins, else the fallback decides; null exactly in those failing cases |
| Auth.SingleStringAsList | load-tests/lib/auth.js:35 | A single header string is treated as the one-element list |
| Auth.FallbackUsesFirstMatchingCookie | load-tests/lib/auth.js:28-41 | Without a jar token, the token is the one from the first matching `Set-Cookie` line |
| Auth.AuthHeaders | load-tests/lib/auth.js:53-70 | The parameters carry Content-Type, the bearer token and the library timeout; `X-Forwarded-For` is present exactly when a VU id is given, and then is the VU's `10.100.*` identity |
| Auth.AuthHeadersSeparateVus | load-tests/lib/auth.js:59-64 | Distinct VUs get distinct forwarded identities |
| Auth.InlineGetToken | load-tests/scenarios/chaos/k6-chaos-traffic.js:51-71 | The inline helper fails with a TypeError exactly on a 200 with an empty jar list, and falls back to `Set-Cookie` on any other status |
| Auth.InlineAgreesOnSuccess | load-tests/scenarios/chaos/k6-chaos-traffic.js:57-59 | On a 200 with a usable jar or fallback, the inline helper and the library return the same token |
| Auth.InlineDiffersOnFailure | load-tests/scenarios/circuit-breaker.js:51-61 | A failed login whose `Set-Cookie` still carries a token gives null in the library but a token in the inline helper |
| Uuid.Nibble | load-tests/scenarios/payment-concurrency.js:49 | `(Math.random() * 16) \| 0` is a nibble below 16 |
| Uuid.Variant | load-tests/scenarios/payment-concurrency.js:50 | The `y` digit is in 8..11 |
| Uuid.VariantIsMask | load-tests/scenarios/payment-concurrency.js:50 | The arithmetic form equals `(r & 0x3) \| 0x8` and masking twice changes nothing |
| Uuid.HexChar | load-tests/scenarios/payment-concurrency.js:51 | `toString(16)` of a nibble is one lower-case hex digit that reads back as the nibble |
| Uuid.SlotRoundTrip | load-tests/scenarios/payment-concurrency.js:50-51 | Every hex digit is `toString(16)` of its own value, and a variant digit is its own mask |
| Uuid.FillConforms | load-tests/scenarios/payment-concurrency.js:48-52 | Replacing every `x`/`y` of a template keeps the template's fixed characters and puts a hex digit (variant digit for `y`) in each slot |
| Uuid.UnfillFill | load-tests/scenarios/payment-concurrency.js:48-52 | Reading the slots back from a filled template gives the nibbles, with the variant slot masked |
| Uuid.FillUnfill | load-tests/scenarios/payment-concurrency.js:48-52 | Every string that conforms to a template is the filling of its own slots |
| Uuid.FillInjective | load-tests/scenarios/payment-concurrency.js:48-52 | Two fillings are equal exactly when their masked nibbles are equal |
| Uuid.CanonicalFill | load-tests/scenarios/payment-concurrency.js:48-52 | Masking the nibbles first does not change the filling |
| Uuid.ConformsIsV4Key | load-tests/scenarios/payment-concurrency.js:48 | Conforming to the v4 template means: 36 characters, dashes at 8/13/18/23, `4` at 14, a variant digit at 19, lower-case hex elsewhere |
| Uuid.TemplateSlots | load-tests/scenarios/payment-concurrency.js:48 | The template has 30 `x` slots and one `y` slot, so a key takes 31 draws |
| Uuid.KeyOf | load-tests/scenarios/payment-concurrency.js:47-53 | Every key written from 31 nibbles is a version-4 key |
| Uuid.EveryKeyIsWritten | load-tests/scenarios/payment-concurrency.js:47-53 | Every version-4 key is written by some nibbles, namely its own slots |
| Uuid.KeyOfInjective | load-tests/scenarios/payment-concurrency.js:47-53 | Two keys are equal exactly when their masked nibbles are equal |
| Uuid.NibblesOf | load-tests/scenarios/payment-concurrency.js:49 | 31 draws give 31 nibbles |
| Uuid.Uuidv4 | load-tests/scenarios/mixed-load.js:39-45 | `uuidv4()` always returns a version-4 key |
| Stages.Peak | load-tests/scenarios/baseline.js:19-23 | The peak bounds every stage target and is one of them |
| Baseline.DetailCheck | load-tests/scenarios/baseline.js:54-56 | The detail check passes exactly on 200 or 404 |
| Baseline.DetailCheckAgreesWithMixedLoad | load-tests/scenarios/baseline.js:54-56 | The baseline detail check accepts exactly the statuses the mixed-load detail check accepts |
| Baseline.Iteration | load-tests/scenarios/baseline.js:41-57 | The list request is sent iff the first draw is below 0.7 and the detail request iff the second is below 0.3, in that order, all with the VU's parameters |
| Baseline.IterationUsesVuIdentity | load-tests/scenarios/baseline.js:42 | Every request carries the VU's `10.100.*` identity |
| Baseline.DetailTargetsSeededRetro | load-tests/scenarios/baseline.js:51-53 | The detail request names one of the retrospects 1..5 |
| Baseline.BaselineProfile | load-tests/scenarios/baseline.js:19-23 | Ramp 0 to 100, hold 100, ramp to 0; the peak is the sustain target; 300 s in all |
| RateLimiter.Classify | load-tests/scenarios/rate-limiter.js:63-81 | 429 is rate limited, 2xx success, status 500 or above a server error, and every other status moves no counter |
| RateLimiter.Iteration | load-tests/scenarios/rate-limiter.js:51-81 | One analysis POST without `X-Forwarded-For`; its counter is the classification; a check for 429 and 2xx; a Retry-After value kept exactly on a 429 with a non-empty header |
| RateLimiter.ThresholdMetIffSome429 | load-tests/scenarios/rate-limiter.js:36-39 | `rate_limited_count > 0` holds exactly when some response was a 429 |
| RateLimiter.RateLimiterProfile | load-tests/scenarios/rate-limiter.js:29-33 | Ramp 0 to 50, hold, ramp to 0; 180 s in all |
| PaymentConcurrency.CountsOf | load-tests/scenarios/payment-concurrency.js:75-99 | Success counts iff the first call gave 200/201, duplicate iff the second gave 201, failed counts the statuses of 500 or above other than 502 |
| PaymentConcurrency.Subscribe | load-tests/scenarios/payment-concurrency.js:61-73 | The trial request is a POST of the PRO plan to the subscriptions path with the VU's timeout; it carries the key as `Idempotency-Key` and keeps every other header of the VU |
| PaymentConcurrency.SendTwice | load-tests/scenarios/payment-concurrency.js:60-100 | The loop sends the same request twice and yields the counts and the two checks, each passing iff its status is in {200, 201, 400, 409, 502} |
| PaymentConcurrency.RunTrial | load-tests/scenarios/payment-concurrency.js:55-100 | Both calls are the same subscription POST with the VU's headers and one `Idempotency-Key`, a version-4 key |
| PaymentConcurrency.DuplicateIgnoresFirstCall | load-tests/scenarios/payment-concurrency.js:91-94 | A second-call 201 counts as a duplicate whatever the first call answered, 502 included |
| PaymentConcurrency.ThresholdsMetIffAllClean | load-tests/scenarios/payment-concurrency.js:31-34 | Both `count==0` thresholds hold exactly when no trial had a second-call 201 or an unexpected status of 500 or above (502 excepted) |
| PaymentConcurrency.CreatedTwiceFailsRun | load-tests/scenarios/payment-concurrency.js:31-34 | One second-call 201 anywhere fails the run |
| PaymentConcurrency.DistinctDrawsDistinctKeys | load-tests/scenarios/payment-concurrency.js:57 | Trials whose masked draws differ send different idempotency keys |
| PaymentConcurrency.PaymentProfile | load-tests/scenarios/payment-concurrency.js:24-28 | Ramp 0 to 20, hold, ramp to 0; 120 s in all |
| MixedLoad.CategoryOf | load-tests/scenarios/mixed-load.js:58-102 | Read below 0.7, AI analysis in [0.7, 0.9), payment from 0.9 |
| MixedLoad.CategoryIsPick | load-tests/scenarios/mixed-load.js:58-102 | The if-chain is the weighted selector over thresholds 0.7 and 0.9 |
| MixedLoad.CategoryMonotone | load-tests/scenarios/mixed-load.js:58-102 | A larger draw never selects an earlier category |
| MixedLoad.ReadListVerdict | load-tests/scenarios/mixed-load.js:66-69 | Error iff the status is neither 200 nor 429; the check passes iff 200 |
| MixedLoad.ReadDetailVerdict | load-tests/scenarios/mixed-load.js:76-80 | Error iff the status is not 200, 404 or 429; the check passes iff 200 or 404 |
| MixedLoad.AnalysisVerdict | load-tests/scenarios/mixed-load.js:96-100 | Error iff the status is neither 200 nor 429; the check passes iff 200 or 429 |
| MixedLoad.PaymentVerdict | load-tests/scenarios/mixed-load.js:123-128 | Error iff not 200, 201, 429 or 502; the check also accepts 400 and 409 |
| MixedLoad.AnalysisErrorIsFailedCheck | load-tests/scenarios/mixed-load.js:96-100 | For analyses, an error is exactly a failed check |
| MixedLoad.ReadErrorsFailChecks | load-tests/scenarios/mixed-load.js:66-80 | A read error always fails its check; a 429 fails the check without being an error |
| MixedLoad.PaymentCheckedErrors | load-tests/scenarios/mixed-load.js:123-128 | The payment check passes on an error exactly for 400 and 409 |
| MixedLoad.Issue | load-tests/scenarios/mixed-load.js:60-120 | Reads GET the room list or a retrospect, analyses POST `{}` to the analysis path, payments POST the PRO plan with an added `Idempotency-Key`; every other header is kept |
| MixedLoad.Iteration | load-tests/scenarios/mixed-load.js:56-130 | One request per iteration, by category and read kind, with its verdict; the payment request is a POST of the PRO plan with the library's 30 s timeout and carries the drawn key |
| MixedLoad.IterationKeepsAuthHeaders | load-tests/scenarios/mixed-load.js:57 | Every request carries all library headers of the VU, including on the payment request that adds a key |
| MixedLoad.Record | load-tests/scenarios/mixed-load.js:63-105 | Exactly one category counter moves, by one |
| MixedLoad.MixedLoadProfile | load-tests/scenarios/mixed-load.js:25-29 | Ramp 0 to 200, hold, ramp to 0; 600 s in all |
| CircuitBreaker.SharedParams | load-tests/scenarios/circuit-breaker.js:84-91 | Every VU sends the same `X-Forwarded-For`, the token and a 10 s timeout |
| CircuitBreaker.SharedAddressNotPerVu | load-tests/scenarios/circuit-breaker.js:88 | The shared identity differs from every per-VU identity |
| CircuitBreaker.ElapsedSeconds | load-tests/scenarios/circuit-breaker.js:96 | The elapsed seconds are the floor of the elapsed milliseconds over 1000 |
| CircuitBreaker.PhaseOf | load-tests/scenarios/circuit-breaker.js:97 | Phase 1 below 60 s, 2 in [60, 120), 3 from 120 |
| CircuitBreaker.Phase | load-tests/scenarios/circuit-breaker.js:96-97 | In milliseconds since the start the phases are [.., 60000), [60000, 120000), [120000, ..) |
| CircuitBreaker.PhaseMonotone | load-tests/scenarios/circuit-breaker.js:96-97 | The phase never goes back as time passes |
| CircuitBreaker.PhaseBoundaries | load-tests/scenarios/circuit-breaker.js:97 | Seconds 60 and 120 belong to the later phase |
| CircuitBreaker.CounterOf | load-tests/scenarios/circuit-breaker.js:99-114 | 429 moves the rate-limit counter, 200 the passed counter, anything else the failed counter |
| CircuitBreaker.CheckOf | load-tests/scenarios/circuit-breaker.js:99-114 | The check passes iff 200 or 429 and its name starts with the phase tag |
| CircuitBreaker.CheckPassesIffNotFailed | load-tests/scenarios/circuit-breaker.js:99-114 | The check passes exactly when the response is not counted as failed |
| CircuitBreaker.Iteration | load-tests/scenarios/circuit-breaker.js:75-114 | Without a token nothing is sent or counted; otherwise one GET, one counter and one phase-tagged check |
| CircuitBreaker.CircuitBreakerProfile | load-tests/scenarios/circuit-breaker.js:33-37 | Ramp 0 to 30, hold, ramp to 0; the 180 s cover exactly the three 60 s phases |
| Chaos.MakeHeaders | load-tests/scenarios/chaos/k6-chaos-traffic.js:73-84 | The parameters carry the token, a 10 s timeout and the VU's `10.200.*` identity |
| Chaos.MakeHeadersSeparateVus | load-tests/scenarios/chaos/k6-chaos-traffic.js:74-80 | Distinct VUs get distinct chaos identities |
| Chaos.ChaosIdentitiesDisjointFromLibrary | load-tests/scenarios/chaos/k6-chaos-traffic.js:80 | A chaos identity never equals a library identity |
| Chaos.BucketOf | load-tests/scenarios/chaos/k6-chaos-traffic.js:101-108 | 200, 429, 500, 502 and 503 have their own buckets; every other status goes to the other bucket |
| Chaos.TrackResponse | load-tests/scenarios/chaos/k6-chaos-traffic.js:98-113 | Exactly one bucket moves, by one, and the error counter moves iff the status is 400 or more |
| Chaos.OtherBucketSplitsOnErrors | load-tests/scenarios/chaos/k6-chaos-traffic.js:107-112 | In the other bucket, 2xx/3xx are not errors and statuses of 400 or above are |
| Chaos.NamedFailureBucketsAreErrors | load-tests/scenarios/chaos/k6-chaos-traffic.js:103-112 | The 429, 500, 502 and 503 buckets always count an error |
| Chaos.TrackAllPartitions | load-tests/scenarios/chaos/k6-chaos-traffic.js:98-113 | Over a run, each bucket holds exactly its responses, the buckets sum to the number of responses, and the errors are the responses of 400 or more |
| Chaos.MixedTraffic | load-tests/scenarios/chaos/k6-chaos-traffic.js:136-142 | The mix reads iff the draw is below 0.7 |
| Chaos.MixedTrafficIsPick | load-tests/scenarios/chaos/k6-chaos-traffic.js:136-142 | The mix is the weighted selector over the single threshold 0.7 |
| Chaos.Dispatch | load-tests/scenarios/chaos/k6-chaos-traffic.js:154-165 | `payment` pays, `mixed` mixes, and every other traffic type reads |
| Chaos.Issue | load-tests/scenarios/chaos/k6-chaos-traffic.js:117-134 | A read is a GET of the rooms; a payment is a subscription POST that adds `X-Idempotency-Key` and keeps the other headers |
| Chaos.Iteration | load-tests/scenarios/chaos/k6-chaos-traffic.js:146-165 | Without a token nothing is sent; otherwise one request with the VU's chaos identity: a rooms GET with the chaos headers for reads, and for payments a subscription POST of the PRO plan with the bearer, the 10 s timeout and the `X-Idempotency-Key` |
| Chaos.Step | load-tests/scenarios/chaos/k6-chaos-traffic.js:146-165 | An iteration without a token leaves every counter alone; otherwise the response's own bucket moves by one, every other bucket stays, and the error counter moves exactly when the status is 400 or more |
| Chaos.ChaosStages | load-tests/scenarios/chaos/k6-chaos-traffic.js:39-43 | Ramp 0 to `CHAOS_VUS`, hold for `CHAOS_DURATION`, ramp to 0; the peak is the VU count; 10 s more than the sustain |
| Chaos.DefaultChaosProfile | load-tests/scenarios/chaos/k6-chaos-traffic.js:31-32 | Without `CHAOS_VUS` and `CHAOS_DURATION` set, the profile peaks at 20 VUs and lasts 40 s |

## Left out

- Sending requests, `check`, `group`, `sleep`, `setup` and the metric objects belong to the k6 runtime. An iteration returns its requests and counter increments instead.
- The ramping executor's interpolation and VU lifecycle, and concurrency between VUs, are k6 internals; only the stage lists are modelled.
- Think-time sleeps and their random durations do not affect any decision.
- Latency trends and the `p(95)`/`p(99)` duration thresholds, `http_req_failed` and `custom_error_rate` rates are statistics over timings and floating-point rates.
- The setup abort (`throw` when no token) and the console logging are not modelled; the circuit-breaker and chaos scenarios' tokenless iterations are.
- `load-tests/lib/config.js` (base URLs and test e-mail read from the environment) is not part of this model; its fixed `TIMEOUT` of `30s` is `Auth.LibraryTimeout`.
- Draws are named per use (`MixedDraws`, `BaselineDraws`) rather than taken from one ordered stream.
- Uuid.Nibble: `| 0` is a 32-bit truncation; for products in [0, 16) it equals the floor, which is what is modelled.
- Identity.Octets: VU ordinals are natural numbers; JavaScript's sign-keeping `%` on a negative or fractional `vuId` is not modelled, since k6 numbers VUs from 1.
- PaymentConcurrency.DistinctDrawsDistinctKeys: keys in a run are unique only with high probability; the model proves that distinct masked draws give distinct keys, not that draws never repeat.
- Chaos.Issue: the payment key built from the VU, `Date.now()` and a base-36 random string is a parameter.
- RateLimiter.Iteration: the Retry-After value is kept as text; `parseFloat` is floating point. The checks of this scenario always pass when recorded, so only whether one is recorded is modelled.
- `checkSuccess` in `load-tests/lib/checks.js`: its main half parses the JSON body for `isSuccess`, and its status half is a single comparison with 200; the baseline list check is not modelled.
- CircuitBreaker.Iteration: the latency trend is not modelled.
- Draws.Scaled: draws and products are exact reals, while the script multiplies IEEE doubles and rounds; on isolated draws the two differ, e.g. the double nearest 0.6 times 5 rounds to 3.0 in the script, whereas the exact product is just below 3 and floors to 2.
- Draws.RetroId: inherits the exact-real product of `Draws.Scaled`; for the double nearest 0.6 the model gives retrospect 3 where the script's `Math.floor(u * 5) + 1` gives 4.
- Baseline.Iteration: the shares 0.7 and 0.3 are exact reals, while the script compares with their doubles; the draws equal to the double nearest 0.7 (or 0.3) lie just below the real threshold, so the model sends the list (or detail) request where the script does not.
- MixedLoad.CategoryOf: the thresholds 0.7 and 0.9 are exact reals; a draw equal to the double nearest 0.7 is a read in the model and an AI analysis in the script (0.9 has no such draw, since its double lies above the real 0.9).
- MixedLoad.Iteration: besides `CategoryOf`, the read split compares with the exact real 0.6, so a draw equal to the double nearest 0.6 reads the room list in the model and a retrospect in the script; the retrospect id follows `Draws.RetroId`.
- Chaos.MixedTraffic: the share 0.7 is an exact real; a draw equal to the double nearest 0.7 reads in the model and pays in the script.
- Stages.TotalSeconds: only its value on the concrete profiles is stated.
