/** The rollouts demo service: configuration read at start-up, the four
    content and health handlers, and the metrics they update. Every handler
    counts exactly one request series, labelled with the status it actually
    answers with, and records one duration observation. */
module Rollouts {
  import opened Environment
  import opened Behavior
  import opened Metrics
  import Decimal

  /** `http.StatusText` for the codes this service answers with. */
  function StatusText(code: int): (text: string)
    ensures code == StatusInternalServerError ==> text == "Internal Server Error"
    ensures code == StatusServiceUnavailable ==> text == "Service Unavailable"
    ensures code == StatusOK ==> text == "OK"
  {
    if code == StatusOK then "OK"
    else if code == StatusInternalServerError then "Internal Server Error"
    else if code == StatusServiceUnavailable then "Service Unavailable"
    else ""
  }

  /** What a handler writes back. */
  datatype Reply =
    | ErrorPage(code: int, text: string)
    | Envelope(version: string, behavior: string, hostname: string, timestamp: string, message: string)
    | DataPayload(items: nat, processed: bool, version: string, hostname: string, timestamp: string)
    | ProcessPayload(state: string, durationMs: nat, version: string, hostname: string)
    | HealthPayload(code: int, body: map<string, string>)
  {
    /** The HTTP status written with the reply. */
    function Status(): int {
      match this
      case ErrorPage(code, _) => code
      case HealthPayload(code, _) => code
      case _ => StatusOK
    }
  }

  const RootPath := "/"
  const HealthPath := "/health"
  const DataPath := "/api/data"
  const ProcessPath := "/api/process"

  /** The series a handler of this service can ever produce: the content
      routes answer 200 or 500, the health route 200 or 503. */
  predicate KnownSeries(k: SeriesKey) {
    if k.1 == HealthPath then k.2 == "200" || k.2 == "503"
    else (k.1 == RootPath || k.1 == DataPath || k.1 == ProcessPath) && (k.2 == "200" || k.2 == "500")
  }

  /** The labels `fmt.Sprintf("%d", status)` gives the three codes. */
  lemma StatusLabels()
    ensures Decimal.Format(StatusOK) == "200"
    ensures Decimal.Format(StatusInternalServerError) == "500"
    ensures Decimal.Format(StatusServiceUnavailable) == "503"
  {
  }

  class App {
    const version: string
    const behavior: string
    const hostname: string
    const port: string
    /** `http_requests_total`, series by series. */
    var requests: map<SeriesKey, nat>
    /** How many observations each `http_request_duration_seconds` series holds. */
    var observations: map<ObservationKey, nat>
    /** Every increment of `requests` so far, in order. */
    ghost var counted: seq<SeriesKey>

    ghost predicate Valid()
      reads this
    {
      && requests == Replay(map[], counted)
      && forall i :: 0 <= i < |counted| ==> KnownSeries(counted[i])
    }

    /** Start-up: `VERSION`, `BEHAVIOR` and `PORT` from the environment with
        their defaults; the host name is handed in. No series exists yet. */
    constructor (env: map<string, string>, host: string)
      ensures version == GetEnv(env, "VERSION", "1.0")
      ensures behavior == GetEnv(env, "BEHAVIOR", Normal)
      ensures port == GetEnv(env, "PORT", "8080")
      ensures hostname == host
      ensures requests == map[] && observations == map[] && counted == []
      ensures Valid()
    {
      version := GetEnv(env, "VERSION", "1.0");
      behavior := GetEnv(env, "BEHAVIOR", Normal);
      port := GetEnv(env, "PORT", "8080");
      hostname := host;
      requests := map[];
      observations := map[];
      counted := [];
    }

    /** `requestCounter.WithLabelValues(verb, endpoint, status).Inc()`. */
    method Count(verb: string, endpoint: string, statusLabel: string)
      requires Valid() && KnownSeries((verb, endpoint, statusLabel))
      modifies this`requests, this`counted
      ensures Valid()
      ensures counted == old(counted) + [(verb, endpoint, statusLabel)]
      ensures requests == Bump(old(requests), (verb, endpoint, statusLabel))
      ensures EndpointTotal(requests, endpoint) == old(EndpointTotal(requests, endpoint)) + 1
    {
      var key := (verb, endpoint, statusLabel);
      EndpointTotalBump(requests, key, endpoint);
      requests := Bump(requests, key);
      counted := counted + [key];
      assert counted[..|counted| - 1] == old(counted);
    }

    /** `requestDuration.WithLabelValues(verb, endpoint).Observe(...)`, run on
        the way out of every handler; the observed value is wall-clock time. */
    method Observe(verb: string, endpoint: string)
      modifies this`observations
      ensures observations == Bump(old(observations), (verb, endpoint))
    {
      observations := Bump(observations, (verb, endpoint));
    }

    /** `handleRoot`. */
    method HandleRoot(verb: string, d: Draws, pick: nat, now: string) returns (reply: Reply, pausedMs: nat)
      requires Valid() && ValidDraws(d)
      requires |Messages(behavior)| != 0 ==> pick < |Messages(behavior)|
      modifies this`requests, this`counted, this`observations
      ensures Valid()
      ensures var decision := ApplyBehavior(behavior, d);
        && reply.Status() == decision.status
        && pausedMs == decision.delayMs
        && counted == old(counted) + [(verb, RootPath, Decimal.Format(decision.status))]
        && requests == Bump(old(requests), (verb, RootPath, Decimal.Format(decision.status)))
        && (decision.status != StatusOK ==> reply == ErrorPage(decision.status, StatusText(decision.status)))
        && (decision.status == StatusOK ==>
              reply == Envelope(version, behavior, hostname, now, GetMessage(behavior, pick)))
      ensures observations == Bump(old(observations), (verb, RootPath))
    {
      var decision := ApplyBehavior(behavior, d);
      pausedMs := decision.delayMs;
      StatusLabels();
      Count(verb, RootPath, Decimal.Format(decision.status));
      if decision.status != StatusOK {
        reply := ErrorPage(decision.status, StatusText(decision.status));
      } else {
        reply := Envelope(version, behavior, hostname, now, GetMessage(behavior, pick));
      }
      Observe(verb, RootPath);
    }

    /** `handleHealth`: the draw is used only in error-prone mode. */
    method HandleHealth(verb: string, draw: real) returns (reply: Reply)
      requires Valid() && 0.0 <= draw < 1.0
      modifies this`requests, this`counted, this`observations
      ensures Valid()
      ensures reply.Status() == HealthStatus(behavior, draw)
      ensures counted == old(counted) + [(verb, HealthPath, Decimal.Format(reply.Status()))]
      ensures requests == Bump(old(requests), (verb, HealthPath, Decimal.Format(reply.Status())))
      ensures reply.Status() == StatusServiceUnavailable ==>
        reply == HealthPayload(StatusServiceUnavailable, map["status" := "unhealthy", "reason" := "simulated failure"])
      ensures reply.Status() == StatusOK ==>
        reply == HealthPayload(StatusOK, map["status" := "healthy", "version" := version, "hostname" := hostname])
      ensures observations == Bump(old(observations), (verb, HealthPath))
    {
      StatusLabels();
      if behavior == ErrorProne && draw < 0.3 {
        Count(verb, HealthPath, "503");
        reply := HealthPayload(StatusServiceUnavailable, map["status" := "unhealthy", "reason" := "simulated failure"]);
      } else {
        Count(verb, HealthPath, "200");
        reply := HealthPayload(StatusOK, map["status" := "healthy", "version" := version, "hostname" := hostname]);
      }
      Observe(verb, HealthPath);
    }

    /** `handleAPIData`: `items` is the payload's `rand.Intn(100)`. */
    method HandleData(verb: string, d: Draws, items: nat, now: string) returns (reply: Reply, pausedMs: nat)
      requires Valid() && ValidDraws(d) && items < 100
      modifies this`requests, this`counted, this`observations
      ensures Valid()
      ensures var decision := ApplyBehavior(behavior, d);
        && reply.Status() == decision.status
        && pausedMs == decision.delayMs
        && counted == old(counted) + [(verb, DataPath, Decimal.Format(decision.status))]
        && requests == Bump(old(requests), (verb, DataPath, Decimal.Format(decision.status)))
        && (decision.status != StatusOK ==> reply == ErrorPage(decision.status, StatusText(decision.status)))
        && (decision.status == StatusOK ==> reply == DataPayload(items, true, version, hostname, now))
      ensures observations == Bump(old(observations), (verb, DataPath))
    {
      var decision := ApplyBehavior(behavior, d);
      pausedMs := decision.delayMs;
      StatusLabels();
      Count(verb, DataPath, Decimal.Format(decision.status));
      if decision.status != StatusOK {
        reply := ErrorPage(decision.status, StatusText(decision.status));
      } else {
        reply := DataPayload(items, true, version, hostname, now);
      }
      Observe(verb, DataPath);
    }

    /** `handleProcess`: after a 200, slow mode pauses a further 100 + k ms
        (`k` is `rand.Intn(400)`); the reported duration is all the time
        paused plus `overheadMs`, the time the handler spent otherwise. */
    method HandleProcess(verb: string, d: Draws, k: nat, overheadMs: nat) returns (reply: Reply, pausedMs: nat)
      requires Valid() && ValidDraws(d) && k < 400
      modifies this`requests, this`counted, this`observations
      ensures Valid()
      ensures var decision := ApplyBehavior(behavior, d);
        && reply.Status() == decision.status
        && counted == old(counted) + [(verb, ProcessPath, Decimal.Format(decision.status))]
        && requests == Bump(old(requests), (verb, ProcessPath, Decimal.Format(decision.status)))
        && (decision.status != StatusOK ==>
              reply == ErrorPage(decision.status, StatusText(decision.status)) && pausedMs == decision.delayMs)
        && (decision.status == StatusOK ==>
              && pausedMs == decision.delayMs + (if behavior == Slow then 100 + k else 0)
              && reply == ProcessPayload("completed", pausedMs + overheadMs, version, hostname))
      ensures observations == Bump(old(observations), (verb, ProcessPath))
    {
      var decision := ApplyBehavior(behavior, d);
      StatusLabels();
      Count(verb, ProcessPath, Decimal.Format(decision.status));
      if decision.status != StatusOK {
        reply := ErrorPage(decision.status, StatusText(decision.status));
        pausedMs := decision.delayMs;
      } else {
        var extra := if behavior == Slow then 100 + k else 0;
        pausedMs := decision.delayMs + extra;
        reply := ProcessPayload("completed", pausedMs + overheadMs, version, hostname);
      }
      Observe(verb, ProcessPath);
    }
  }

  /** Every series the service has ever created carries an endpoint it serves
      and a status label that endpoint can answer with. */
  lemma SeriesAreKnown(app: App)
    requires app.Valid()
    ensures forall k :: k in app.requests ==> KnownSeries(k)
  {
    ReplayKeys(map[], app.counted);
  }

  /** The counter's total over every method and status label for an endpoint
      is the number of requests that endpoint has answered. */
  lemma TotalsMatchRequests(app: App, endpoint: string)
    requires app.Valid()
    ensures EndpointTotal(app.requests, endpoint) == CallsTo(app.counted, endpoint)
  {
    CountsFromScratch(app.counted, endpoint);
  }

  /** In slow mode a successful `/api/process` pauses between 300 and 1498 ms. */
  lemma SlowProcessPause(d: Draws, k: nat)
    requires ValidDraws(d) && k < 400
    ensures 300 <= ApplyBehavior(Slow, d).delayMs + 100 + k <= 1498
  {
    SlowMode(d);
  }
}
