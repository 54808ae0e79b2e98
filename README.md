# Behaviour-injection demo services, modelled in Dafny

This project models the decision logic of three small Go HTTP services used
to exercise progressive-delivery (canary / blue-green) tooling:

- the **rollouts demo service** (`rollouts/app-src/main.go`). A configured
  behaviour mode (`normal`, `slow`, `error-prone`, `chaotic`; anything else
  acts as `normal`) turns each request's random draws into a status code
  and an injected pause. The service serves `/`, `/health`, `/api/data` and
  `/api/process`. Every request updates the Prometheus counter
  `http_requests_total{method, endpoint, status}` with the status it actually
  answers, and adds one observation to `http_request_duration_seconds{method, endpoint}`;
- the **BMI service** (`bmi-calculator/bmi-service/main.go`): validation of
  weight and height, the BMI category thresholds, and the in-memory history
  that successful calculations are appended to;
- the **health service** (`bmi-calculator/health-service/main.go`): the
  mapping of a downstream probe to "healthy"/"unhealthy", the overall
  verdict, and the filter that picks which environment variables a health
  report discloses.

Side effects become inputs:
- each `rand.Float32()` is a `real` in [0, 1);
- each `rand.Intn(n)` is a `nat` below `n`;
- the environment is a `map<string, string>`, and a missing key reads as "";
- timestamps are strings handed in;
- a downstream GET is its outcome (`RequestFailed` or `Answered(code)`);
- a JSON body or a `strconv.ParseFloat` result is its decoded value.

Floating point is modelled as `real`.

Modules:
- `Options`: an `Option` datatype.
- `Environment`: `os.Getenv` and the `getEnv` helper. The three services define this helper with the same body.
- `Decimal`: `fmt.Sprintf("%d", …)` for status labels, with its inverse.
- `Behavior`: `applyBehavior`, the health route's rule and `getMessage`.
- `Metrics`: a counter family as a map from label tuples to counts, and the per-endpoint sum over it.
- `Rollouts`: a class `App` with the start-up configuration, the counter and observation maps, and the four handlers.
- `BmiService`: a class `Service` holding the history as a `seq`.
- `HealthService`: the health service's decision logic.

Two details of the code's order that the model keeps:
- The code increments the request counter right after the behaviour decision, before any reply is built. `Rollouts.App.Count` runs in that position. The duration observation runs on the way out.
- The health route writes the literal labels "200"/"503". The content routes format the status with `%d`. `Rollouts.StatusLabels` shows that the two agree.

## Model

| member | source | states |
|---|---|---|
| `Environment.GetEnv` | rollouts/app-src/main.go:256-261 | The result is the environment's value when it is set and non-empty, and the default otherwise. It is never empty when the default is not. The copies at bmi-calculator/bmi-service/main.go:159-164 and bmi-calculator/health-service/main.go:190-195 are the same code. |
| `Decimal.Format` | rollouts/app-src/main.go:87 | `%d` of a status gives only digits, at least one, with no leading zero. It is a single digit exactly when the value is below 10. |
| `Decimal.ParseFormat` | rollouts/app-src/main.go:141 | Reading back the label that `%d` produced gives the status code again. |
| `Decimal.FormatInjective` | rollouts/app-src/main.go:169 | Two status codes share a counter label exactly when they are equal. |
| `Behavior.ApplyBehavior` | rollouts/app-src/main.go:192-223 | The status is only ever 200 or 500. The pause is under 1500 ms. A 500 happens only in error-prone or chaotic mode. A pause happens only in slow or chaotic mode. |
| `Behavior.QuietModes` | rollouts/app-src/main.go:220-221 | "normal" and every unrecognised mode give 200 with no pause. |
| `Behavior.SlowMode` | rollouts/app-src/main.go:197-201 | Slow mode always gives 200. Its pause is 200 + k ms, with k the `Intn(800)` draw, so it lies in [200, 999]. |
| `Behavior.ErrorProneMode` | rollouts/app-src/main.go:203-208 | Error-prone mode gives 500 exactly when the draw is below 0.5, and 200 otherwise. It never pauses. |
| `Behavior.ChaoticMode` | rollouts/app-src/main.go:210-218 | Chaotic mode pauses exactly when the first draw is below 0.3, for 500 + k ms with k < 1000. It gives 500 exactly when the second draw is below 0.4. |
| `Behavior.ChaoticIndependence` | rollouts/app-src/main.go:212-217 | In chaotic mode the status depends on the second draw only. The pause depends on the first draw and its jitter only. |
| `Behavior.ChaoticOutcomesCombine` | rollouts/app-src/main.go:211-218 | All four combinations of paused or not and failed or not occur for some draws, so the two chaotic decisions are not an if/else. |
| `Behavior.HealthStatus` | rollouts/app-src/main.go:114 | The health route answers 200 or 503. It answers 503 exactly when the mode is "error-prone" and the draw is below 0.3. |
| `Behavior.HealthNarrowerThanContent` | rollouts/app-src/main.go:113-114 | The health route's failure band [0, 0.3) lies inside error-prone mode's 500 band [0, 0.5). The two routes take separate draws, so this compares thresholds, not one request. |
| `Behavior.Messages` | rollouts/app-src/main.go:226-247 | The four known modes each have three non-empty messages. Every other mode has none. |
| `Behavior.GetMessage` | rollouts/app-src/main.go:249-253 | For a known mode the message is a member of that mode's list, chosen by an index in [0, len). For any other mode it is "Unknown state". It is never empty. |
| `Behavior.EveryMessageReachable` | rollouts/app-src/main.go:253 | Every message in a mode's list is returned for some draw. |
| `Metrics.Bump` | rollouts/app-src/main.go:87 | `Inc` adds one to the named series, creating it at zero first when it is new. Every other series keeps its value. |
| `Metrics.EndpointTotalRemove` | rollouts/app-src/main.go:23-26 | The per-endpoint sum over the counter family does not depend on the order in which the series are added up. |
| `Metrics.EndpointTotalBump` | rollouts/app-src/main.go:87 | One increment raises the sum of its own endpoint by one. It leaves the sum of every other endpoint unchanged. |
| `Metrics.EndpointTotalReplay` | rollouts/app-src/main.go:23-26 | After any sequence of increments, an endpoint's sum has grown by exactly the number of increments that carry its label. |
| `Metrics.CountsFromScratch` | rollouts/app-src/main.go:23-26 | Starting from an empty family, an endpoint's sum over all methods and statuses equals the number of requests counted for it. |
| `Rollouts.StatusText` | rollouts/app-src/main.go:90 | The error page text is "Internal Server Error" for 500, "Service Unavailable" for 503 and "OK" for 200. |
| `Rollouts.StatusLabels` | rollouts/app-src/main.go:115 | `%d` of 200, 500 and 503 gives "200", "500" and "503". These are the labels the health route writes literally. |
| `Rollouts.App.constructor` | rollouts/app-src/main.go:17-20 | VERSION, BEHAVIOR and PORT are read with the defaults "1.0", "normal" and "8080". No series exists yet. |
| `Rollouts.App.Count` | rollouts/app-src/main.go:87 | Exactly one series is incremented. The endpoint's total rises by one. The object invariant holds afterwards: the counter is the replay of every increment so far, and each increment has a known label. |
| `Rollouts.App.Observe` | rollouts/app-src/main.go:79-82 | Each handler records exactly one duration observation under (method, endpoint). |
| `Rollouts.App.HandleRoot` | rollouts/app-src/main.go:77-104 | The counter is keyed (method, "/", `%d` of the decided status) and nothing else changes. On a non-200 the reply is the error page for that status and no envelope is built. On a 200 the envelope carries the configuration and the mode's message. The pause is the decided delay. |
| `Rollouts.App.HandleHealth` | rollouts/app-src/main.go:106-131 | The status written is `HealthStatus`. The counter label is that same status. The 503 body is {"status": "unhealthy", "reason": "simulated failure"}. The 200 body is {"status": "healthy", "version", "hostname"}. |
| `Rollouts.App.HandleData` | rollouts/app-src/main.go:133-159 | Same counting as `/`, under "/api/data". On a 200 the payload carries the `Intn(100)` item count and `processed: true`. On a non-200 there is only the error page. |
| `Rollouts.App.HandleProcess` | rollouts/app-src/main.go:161-190 | Same counting as `/`, under "/api/process". The extra slow-mode pause of 100 + k ms happens only after a 200. The reported duration is at least all the time paused. |
| `Rollouts.SeriesAreKnown` | rollouts/app-src/main.go:141-146 | Every series ever created has one of the four endpoints. The content routes carry only "200" or "500" and `/health` only "200" or "503". |
| `Rollouts.TotalsMatchRequests` | rollouts/app-src/main.go:169 | For every endpoint, the counter summed over all methods and status labels equals the number of requests that endpoint has answered. |
| `Rollouts.SlowProcessPause` | rollouts/app-src/main.go:177-179 | A successful `/api/process` in slow mode pauses between 300 and 1498 ms in all. |
| `BmiService.BmiCategory` | bmi-calculator/bmi-service/main.go:146-157 | "Underweight" exactly when bmi < 18.5. "Normal weight" exactly when 18.5 <= bmi < 25. "Overweight" exactly when 25 <= bmi < 30. "Obese" exactly when bmi >= 30. |
| `BmiService.CategoryMonotone` | bmi-calculator/bmi-service/main.go:147-156 | A larger BMI never gives an earlier category in the order Underweight < Normal weight < Overweight < Obese. |
| `BmiService.Bmi` | bmi-calculator/bmi-service/main.go:84 | The BMI times the height squared gives back the weight. It is positive for a positive weight. |
| `BmiService.Evaluate` | bmi-calculator/bmi-service/main.go:79-93 | The request is rejected with "weight and height must be positive numbers" exactly when the weight or the height is <= 0. Otherwise the record keeps the inputs, with bmi = weight / height² and the category of that bmi. |
| `BmiService.StoreKeepsWellFormed` | bmi-calculator/bmi-service/main.go:121-132 | Appending an evaluated record keeps every history entry validated and self-consistent. |
| `BmiService.Service.constructor` | bmi-calculator/bmi-service/main.go:29 | The history starts empty. |
| `BmiService.Service.Accept` | bmi-calculator/bmi-service/main.go:116-132 | The outcome is `Evaluate` of the inputs. A successful calculation appends exactly its record at the end, and earlier entries are unchanged. A rejected one leaves the history unchanged. The history stays well formed. |
| `BmiService.Service.Calculate` | bmi-calculator/bmi-service/main.go:68-99 | A body that does not decode gives 400 with the decoder's message, and nothing is stored. Otherwise the outcome is `Evaluate` of the decoded fields. Exactly that record is appended on success, and earlier entries are unchanged. |
| `BmiService.Service.QuickCalculate` | bmi-calculator/bmi-service/main.go:101-136 | An unparseable weight gives "invalid weight parameter". If the weight parses, an unparseable height gives "invalid height parameter". In both cases nothing is stored. Otherwise it behaves like `Calculate` on the parsed values. |
| `BmiService.Service.GetHistory` | bmi-calculator/bmi-service/main.go:138-144 | The reply holds the stored list, and its count is that list's length. Every listed record passed validation, its bmi is weight / height², and its category is that bmi's category. |
| `BmiService.ListenPort` | bmi-calculator/bmi-service/main.go:41 | The port is PORT when that is set and non-empty, and "8081" otherwise. |
| `HealthService.CheckServiceHealth` | bmi-calculator/health-service/main.go:148-160 | The result is "healthy" exactly when the GET was answered with 200. A request error or any other status gives "unhealthy". |
| `HealthService.GetOverallStatus` | bmi-calculator/health-service/main.go:162-169 | The result is "degraded" exactly when some service's status is exactly "unhealthy", and "healthy" otherwise, including for an empty list. |
| `HealthService.ServicesHealth` | bmi-calculator/health-service/main.go:108-130 | It checks "gateway" then "bmi-service" with their URLs. The overall verdict is "healthy" exactly when both probes were answered with 200. |
| `HealthService.GetEnvironmentVars` | bmi-calculator/health-service/main.go:171-182 | Every key is one of the six listed names. A listed name is present exactly when its value is non-empty, and that value is copied unchanged. |
| `HealthService.Health` | bmi-calculator/health-service/main.go:64-81 | The report says "healthy" for "health-service". Its version is IMAGE_VERSION, or "unknown" when that is unset. Its environment holds exactly the listed variables whose values are non-empty, with those values. |
| `HealthService.ListenPort` | bmi-calculator/health-service/main.go:50 | The port is PORT when that is set and non-empty, and "8082" otherwise. |

## Left out

- The gateway (`bmi-calculator/gateway/main.go`): it only wires the library's reverse proxy and prefix stripping.
- HTTP serving, route registration, request logging middleware and JSON encoding: library I/O. Replies are modelled as datatypes.
- Real time and randomness: sleeping, the clock and seeding the generator. The model takes the chosen delay values, the draws, the timestamps and the elapsed overhead as inputs.
- The shared random stream's order: each draw is a separate input, so the model does not capture which later call consumes which number.
- Rollouts.App.Observe: records that one observation was made under (method, endpoint), not the observed duration (wall clock) or the histogram buckets.
- The version gauge `app_version_info` set once at start-up, and the `/metrics` exposition: library behaviour.
- The host name lookup (`getHostname`): the host name is a constructor input.
- Concurrency: Prometheus counters are safe to update concurrently. The model runs one handler at a time.
- BmiService.Service.Accept: appends exactly one record only when requests are served one at a time. In the source, `calculations = append(calculations, calculation)` (bmi-calculator/bmi-service/main.go:95 and :132) updates a global slice with no lock. Each request runs on its own goroutine, and `historyHandler` reads the same slice. Two concurrent calculations can therefore lose a record. This data race is not modelled.
- Statistical claims (for example that the 500 rate tends to 0.5): the model proves the per-draw rule that gives these rates, not the rates themselves.
- Float semantics: `rand.Float32()` comparisons and the float64 BMI arithmetic are over `real`, with no rounding. The float32 constants 0.3 and 0.4 are taken as exact.
- `strconv.ParseFloat` accepts "NaN" and "Inf". A NaN weight or height passes the `<= 0` check in the source, and `real` has no such values, so the model cannot express this.
- When nothing has been stored, the source's history is a nil slice and its JSON is `null`, not `[]`. The model returns an empty sequence.
- The health service's detailed, readiness and liveness handlers, and the host and runtime fields of `/health`: they report runtime and host queries or constant bodies.
- The BMI service's own `/health` reply: a constant body plus an environment lookup.
