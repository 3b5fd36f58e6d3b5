/** The server's dashboard service: the metrics dictionary it receives from
    the metrics source gets a timestamp and, when it has none, a health status
    derived from the CPU load. The source's dictionary and the clock are inputs. */
module Monitoring {
  import opened Common

  /** Above this load the status is CRITICAL. */
  const CriticalLoad: real := 90.0
  /** Above this load (and up to CriticalLoad) the status is WARNING. */
  const WarningLoad: real := 70.0

  const TimestampKey: string := "timestamp"
  const HealthKey: string := "health_status"
  const CpuLoadKey: string := "cpu_load"

  /** The three health statuses, from a numeric load. */
  function HealthOf(load: real): (status: string)
    ensures status == "CRITICAL" <==> load > CriticalLoad
    ensures status == "WARNING" <==> WarningLoad < load <= CriticalLoad
    ensures status == "HEALTHY" <==> load <= WarningLoad
  {
    if load > CriticalLoad then "CRITICAL"
    else if load > WarningLoad then "WARNING"
    else "HEALTHY"
  }

  /** Orders the statuses by severity. */
  function Severity(status: string): nat
  {
    if status == "CRITICAL" then 2 else if status == "WARNING" then 1 else 0
  }

  /** A higher load never gives a milder status. */
  lemma HealthMonotone(a: real, b: real)
    requires a <= b
    ensures Severity(HealthOf(a)) <= Severity(HealthOf(b))
  {
  }

  /** `base_metrics.get("cpu_load", 0)` as the comparison with 90 sees it:
      None when the stored value is not comparable with a number. */
  function LoadOf(base: map<string, Value>): (load: Option<real>)
    ensures CpuLoadKey !in base ==> load == Some(0.0)
  {
    AsNumber(if CpuLoadKey in base then base[CpuLoadKey] else Int(0))
  }

  /** The post-processing of get_dashboard_data. It fails (Python raises
      TypeError) only when a status has to be derived and cpu_load holds
      something that cannot be compared with a number. */
  method AddDerivedFields(base: map<string, Value>, now: string) returns (r: Result<map<string, Value>, string>)
    ensures r.Err? <==> (HealthKey !in base && LoadOf(base).None?)
    ensures r.Err? ==> r.error == "TypeError"
    ensures r.Ok? ==> r.value.Keys == base.Keys + {TimestampKey, HealthKey}
    ensures r.Ok? ==> r.value[TimestampKey] == Str(now)
    ensures r.Ok? && HealthKey in base ==> r.value[HealthKey] == base[HealthKey]
    ensures r.Ok? && HealthKey !in base ==> r.value[HealthKey] == Str(HealthOf(LoadOf(base).value))
    ensures r.Ok? ==> forall k :: k in base && k != TimestampKey && k != HealthKey ==> r.value[k] == base[k]
  {
    var metrics := base;
    metrics := metrics[TimestampKey := Str(now)];
    if HealthKey !in metrics {
      var load := AsNumber(if CpuLoadKey in metrics then metrics[CpuLoadKey] else Int(0));
      if load.None? {
        return Err("TypeError");
      }
      if load.value > CriticalLoad {
        metrics := metrics[HealthKey := Str("CRITICAL")];
      } else if load.value > WarningLoad {
        metrics := metrics[HealthKey := Str("WARNING")];
      } else {
        metrics := metrics[HealthKey := Str("HEALTHY")];
      }
    }
    return Ok(metrics);
  }

  /** A dictionary without cpu_load or health_status is reported HEALTHY. */
  lemma MissingLoadIsHealthy(base: map<string, Value>)
    requires CpuLoadKey !in base && HealthKey !in base
    ensures LoadOf(base) == Some(0.0) && HealthOf(LoadOf(base).value) == "HEALTHY"
  {
  }
}
