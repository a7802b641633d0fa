/** The health check: a `select 1` probe against the database and the status
    string derived from it. */
module Health {
  import opened Wrappers

  const Healthy := "OK"
  const Unhealthy := "HANANABUBU"
  /** The route declares 200 and returns the check whatever its status. */
  const HealthHttpStatus := 200

  datatype HealthCheck = HealthCheck(status: string, version: string)

  /** `HealthRepository.check`: true when `select 1` ran, false when it raised
      anything; the probe itself never raises. `select1` is how the query ended. */
  function Probe(select1: Result<(), string>): bool {
    match select1
    case Ok(_) => true
    case Err(_) => false
  }

  /** `HealthService.check`: the status starts as the unhealthy marker and is
      overwritten with "OK" when the probe succeeds (the two assignments of
      health_service.py:27-29); `version` is the installed package version. */
  function Check(probe: bool, version: string): HealthCheck {
    HealthCheck(if probe then Healthy else Unhealthy, version)
  }

  /** `GET /health`: the declared status and the check the service returns;
      `select1` is how the probe's query ended. */
  function HealthRoute(select1: Result<(), string>, version: string): (int, HealthCheck) {
    (HealthHttpStatus, Check(Probe(select1), version))
  }

  /** The status is "OK" exactly when the probe succeeded, and the unhealthy
      marker otherwise; the version is passed through. */
  lemma StatusFollowsProbe(probe: bool, version: string)
    ensures Check(probe, version).status == "OK" <==> probe
    ensures !probe ==> Check(probe, version).status == "HANANABUBU"
    ensures Check(probe, version).version == version
  {
  }

  /** From the query to the answer: the route answers HTTP 200 whatever the
      probe gives; a failing `select 1` yields a non-"OK" status, a succeeding
      one "OK"; the version passes through. */
  lemma HealthEndToEnd(select1: Result<(), string>, version: string)
    ensures HealthRoute(select1, version).0 == 200
    ensures HealthRoute(select1, version).1.status == "OK" <==> select1.Ok?
    ensures select1.Err? ==> HealthRoute(select1, version).1.status == "HANANABUBU"
    ensures HealthRoute(select1, version).1.version == version
  {
  }
}
