/**
 * `HealthCheckRegistry`: the probes registered for one evaluation pass, as
 * two append-only lists, checks and metrics, in registration order.
 * A registered probe is identified by its class.
 */
module Registry {

  /** The check classes the plugin knows. */
  datatype CheckKind = Database | SiteHealth | CoreVersion | Redis | PluginUpdates | Cron

  /** The metric classes the plugin knows. */
  datatype MetricKind = MemoryUsage | DiskUsage | CpuLoad | DatabaseSize

  class HealthCheckRegistry {
    var checks: seq<CheckKind>
    var metrics: seq<MetricKind>

    constructor ()
      ensures checks == [] && metrics == []
    {
      checks := [];
      metrics := [];
    }

    /** Appends a check; there is no deduplication, so a probe registered twice is listed twice. */
    method RegisterCheck(check: CheckKind)
      modifies this
      ensures checks == old(checks) + [check]
      ensures metrics == old(metrics)
    {
      checks := checks + [check];
    }

    /** Appends a metric; there is no deduplication. */
    method RegisterMetric(metric: MetricKind)
      modifies this
      ensures metrics == old(metrics) + [metric]
      ensures checks == old(checks)
    {
      metrics := metrics + [metric];
    }

    method GetChecks() returns (r: seq<CheckKind>)
      ensures r == checks
    {
      r := checks;
    }

    method GetMetrics() returns (r: seq<MetricKind>)
      ensures r == metrics
    {
      r := metrics;
    }

    method Clear()
      modifies this
      ensures checks == [] && metrics == []
    {
      checks := [];
      metrics := [];
    }
  }
}
