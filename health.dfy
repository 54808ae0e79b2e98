/** The health aggregation service: how one downstream probe maps to a
    status, how the statuses combine into the overall verdict, and which
    environment variables the health reports disclose. The network calls are
    replaced by their outcomes and the environment by a map. */
module HealthService {
  import opened Environment

  const Healthy := "healthy"
  const Unhealthy := "unhealthy"
  const Degraded := "degraded"

  /** What the GET issued by `checkServiceHealth` came back with. */
  datatype ProbeOutcome = RequestFailed | Answered(statusCode: int)

  /** `checkServiceHealth`, given the outcome of its GET. */
  function CheckServiceHealth(outcome: ProbeOutcome): (status: string)
    ensures status == Healthy || status == Unhealthy
    ensures status == Healthy <==> outcome == Answered(200)
  {
    match outcome
    case RequestFailed => Unhealthy
    case Answered(code) => if code == 200 then Healthy else Unhealthy
  }

  datatype ServiceCheck = ServiceCheck(name: string, status: string, url: string)

  predicate AnyUnhealthy(services: seq<ServiceCheck>) {
    exists i :: 0 <= i < |services| && services[i].status == Unhealthy
  }

  /** `getOverallStatus`: "degraded" as soon as one service reports exactly
      "unhealthy", otherwise "healthy". */
  method GetOverallStatus(services: seq<ServiceCheck>) returns (overall: string)
    ensures overall == Degraded <==> AnyUnhealthy(services)
    ensures overall == Healthy <==> !AnyUnhealthy(services)
  {
    for i := 0 to |services|
      invariant forall j :: 0 <= j < i ==> services[j].status != Unhealthy
    {
      if services[i].status == Unhealthy {
        return Degraded;
      }
    }
    return Healthy;
  }

  /** The `/health/services` reply. */
  datatype ServicesReport = ServicesReport(timestamp: string, services: seq<ServiceCheck>, overall: string)

  const GatewayUrl := "http://gateway:8080/health"
  const BmiServiceUrl := "http://bmi-service:8081/health"

  /** `servicesHealthHandler`: probes the gateway, then the BMI service, and
      rates the pair. */
  method ServicesHealth(gateway: ProbeOutcome, bmiService: ProbeOutcome, now: string) returns (r: ServicesReport)
    ensures r.services == [
      ServiceCheck("gateway", CheckServiceHealth(gateway), GatewayUrl),
      ServiceCheck("bmi-service", CheckServiceHealth(bmiService), BmiServiceUrl)]
    ensures r.overall == Healthy <==> gateway == Answered(200) && bmiService == Answered(200)
    ensures r.overall == Degraded <==> !(gateway == Answered(200) && bmiService == Answered(200))
    ensures r.timestamp == now
  {
    var services := [
      ServiceCheck("gateway", CheckServiceHealth(gateway), GatewayUrl),
      ServiceCheck("bmi-service", CheckServiceHealth(bmiService), BmiServiceUrl)];
    var overall := GetOverallStatus(services);
    assert gateway != Answered(200) ==> services[0].status == Unhealthy;
    assert bmiService != Answered(200) ==> services[1].status == Unhealthy;
    r := ServicesReport(now, services, overall);
  }

  /** The variables the health reports may disclose, in the order they are read. */
  const RelevantVars: seq<string> := ["PORT", "ENVIRONMENT", "NAMESPACE", "POD_NAME", "POD_IP", "IMAGE_VERSION"]

  /** `getEnvironmentVars`: the relevant variables that are set to something
      non-empty, with their values. */
  method GetEnvironmentVars(env: map<string, string>) returns (vars: map<string, string>)
    ensures forall key :: key in vars ==> key in RelevantVars
    ensures forall key :: key in RelevantVars ==> (key in vars <==> Lookup(env, key) != "")
    ensures forall key :: key in vars ==> key in env && vars[key] == env[key]
  {
    vars := map[];
    for i := 0 to |RelevantVars|
      invariant forall key :: key in vars ==> key in RelevantVars[..i]
      invariant forall key :: key in RelevantVars[..i] ==> (key in vars <==> Lookup(env, key) != "")
      invariant forall key :: key in vars ==> key in env && vars[key] == env[key]
    {
      var key := RelevantVars[i];
      var value := Lookup(env, key);
      if value != "" {
        vars := vars[key := value];
      }
    }
    assert RelevantVars[..|RelevantVars|] == RelevantVars;
  }

  /** The `/health` report, without its host and runtime fields. */
  datatype HealthReport = HealthReport(status: string, service: string, timestamp: string, version: string,
                                       environment: map<string, string>)

  /** `healthHandler`: the version is `IMAGE_VERSION`, "unknown" when unset. */
  method Health(env: map<string, string>, now: string) returns (r: HealthReport)
    ensures r.status == Healthy && r.service == "health-service" && r.timestamp == now
    ensures Lookup(env, "IMAGE_VERSION") != "" ==> r.version == env["IMAGE_VERSION"]
    ensures Lookup(env, "IMAGE_VERSION") == "" ==> r.version == "unknown"
    ensures forall key :: key in RelevantVars ==> (key in r.environment <==> Lookup(env, key) != "")
    ensures forall key :: key in r.environment ==> key in RelevantVars && key in env && r.environment[key] == env[key]
  {
    var environment := GetEnvironmentVars(env);
    r := HealthReport(Healthy, "health-service", now, GetEnv(env, "IMAGE_VERSION", "unknown"), environment);
  }

  /** `PORT` with the service's default. */
  function ListenPort(env: map<string, string>): (port: string)
    ensures Lookup(env, "PORT") != "" ==> port == env["PORT"]
    ensures Lookup(env, "PORT") == "" ==> port == "8082"
  {
    GetEnv(env, "PORT", "8082")
  }
}
