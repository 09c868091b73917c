/**
 * The system-metrics endpoint: the health classification of a sample and the
 * handler body, which runs inside a `metrics.system` operation span and turns
 * any error into a 500 response instead of rethrowing it.
 */
module MetricsController {
  import opened JsValues
  import opened Spans
  import opened Tracer
  import opened Metrics

  datatype HealthReport = HealthReport(status: string, memoryStatus: string, cpuStatus: string)

  /** `ok` below 500 MB of resident memory, `high` from there on. */
  function MemoryStatus(m: SystemMetrics): (s: string)
    ensures s == "ok" <==> m.memory.rss < 500
    ensures s != "ok" ==> s == "high"
  {
    if m.memory.rss < 500 then "ok" else "high"
  }

  /** `ok` below a one-minute load average of 2, `high` from there on. */
  function CpuStatus(m: SystemMetrics): (s: string)
    ensures s == "ok" <==> m.cpu.loadAverage.oneMinute < 2.0
    ensures s != "ok" ==> s == "high"
  {
    if m.cpu.loadAverage.oneMinute < 2.0 then "ok" else "high"
  }

  /** The `health` object of the response: healthy exactly when memory and CPU are both ok. */
  function Health(m: SystemMetrics): (h: HealthReport)
    ensures h.memoryStatus == MemoryStatus(m) && h.cpuStatus == CpuStatus(m)
    ensures h.status == "healthy" <==> h.memoryStatus == "ok" && h.cpuStatus == "ok"
    ensures h.status != "healthy" ==> h.status == "warning"
  {
    var memoryStatus, cpuStatus := MemoryStatus(m), CpuStatus(m);
    HealthReport(if memoryStatus == "ok" && cpuStatus == "ok" then "healthy" else "warning", memoryStatus, cpuStatus)
  }

  datatype MetricsResponse = MetricsOk(metrics: SystemMetrics, health: HealthReport) | MetricsFailed(error: string)
  {
    function StatusCode(): int
    {
      if MetricsOk? then 200 else 500
    }
  }

  const SpanName := "metrics.system"

  /** The attributes written on entry: the request method, the fixed route and the operation kind. */
  function RequestAttributes(httpMethod: string): (a: Attributes)
    ensures a.Keys == {"http.method", "http.route", "operation.type"}
    ensures a["http.method"] == Str(httpMethod) && a["http.route"] == Str("/api/metrics/system")
    ensures a["operation.type"] == Str("system.monitoring")
  {
    map["http.method" := Str(httpMethod), "http.route" := Str("/api/metrics/system"),
        "operation.type" := Str("system.monitoring")]
  }

  /** The attributes written once the sample is taken; they repeat the sample's figures. */
  function SampleAttributes(m: SystemMetrics): (a: Attributes)
    ensures a.Keys == {"system.memory.usage_mb", "system.cpu.total_percent", "system.cpu.user_percent",
                       "system.cpu.system_percent", "operation.success"}
    ensures a["system.memory.usage_mb"] == Int(m.memory.rss)
    ensures a["system.cpu.total_percent"] == Num(m.cpu.totalPercent)
    ensures a["system.cpu.user_percent"] == Num(m.cpu.userPercent)
    ensures a["system.cpu.system_percent"] == Num(m.cpu.systemPercent)
    ensures a["operation.success"] == Bool(true)
  {
    map["system.memory.usage_mb" := Int(m.memory.rss),
        "system.cpu.total_percent" := Num(m.cpu.totalPercent),
        "system.cpu.user_percent" := Num(m.cpu.userPercent),
        "system.cpu.system_percent" := Num(m.cpu.systemPercent),
        "operation.success" := Bool(true)]
  }

  /** The attributes the `catch` writes: they turn `operation.success` to false, whatever was written before. */
  function FailureAttributes(error: JsError): (a: Attributes)
    ensures a.Keys == {"operation.success", "error.type"}
    ensures a["operation.success"] == Bool(false) && a["error.type"] == Str(error.typeName)
  {
    map["operation.success" := Bool(false), "error.type" := Str(error.typeName)]
  }

  /** Where the handler's `try` block throws, if it does. */
  datatype HandlerFailure =
    | NoFailure
      /** `process.memoryUsage()` or `process.cpuUsage()`, before the sampler state is replaced. */
    | ReadingFailed(error: JsError)
      /** One of the `os` or `process` queries that follow the state update. */
    | QueryFailed(error: JsError)
      /** `res.json`, once the sample attributes are written. */
    | ResponseFailed(error: JsError)

  /**
   * `MetricsController.getSystemMetrics`: the handler body wrapped by
   * `withSpan('metrics.system', ...)`. The handler catches every error,
   * answers 500 and returns normally, so the span always ends once with
   * status OK and no exception. A failure after the sampler's state update
   * leaves the state replaced; a failure of `res.json` comes after the
   * sample attributes, which the failure attributes then partly overwrite.
   */
  method GetSystemMetrics(sampler: MetricsSampler, httpMethod: string, mem: MemoryUsage, current: CpuUsage,
                          now: int, os: OsReadings, proc: ProcessReadings, failure: HandlerFailure)
    returns (span: Span, resp: MetricsResponse)
    modifies sampler
    ensures fresh(span) && span.name == SpanName && span.options == NoOptions
    ensures span.endCount == 1 && span.status == SpanStatus(Ok, None) && span.exceptions == []
    ensures span.events == []
    ensures failure.ReadingFailed? ==>
              sampler.lastCpuUsage == old(sampler.lastCpuUsage) && sampler.lastCpuTime == old(sampler.lastCpuTime)
    ensures !failure.ReadingFailed? ==> sampler.lastCpuUsage == current && sampler.lastCpuTime == now
    ensures failure.NoFailure? ==>
              var m := Snapshot(old(sampler.lastCpuUsage), old(sampler.lastCpuTime), mem, current, now, os, proc);
              && resp == MetricsOk(m, Health(m))
              && span.attributes == RequestAttributes(httpMethod) + SampleAttributes(m)
    ensures failure.ReadingFailed? || failure.QueryFailed? ==>
              && resp == MetricsFailed(failure.error.message)
              && span.attributes == RequestAttributes(httpMethod) + FailureAttributes(failure.error)
    ensures failure.ResponseFailed? ==>
              var m := Snapshot(old(sampler.lastCpuUsage), old(sampler.lastCpuTime), mem, current, now, os, proc);
              && resp == MetricsFailed(failure.error.message)
              && span.attributes == RequestAttributes(httpMethod) + SampleAttributes(m) + FailureAttributes(failure.error)
              && span.attributes["operation.success"] == Bool(false)
  {
    var written;
    written, resp := RunHandler(sampler, httpMethod, mem, current, now, os, proc, failure);
    span := WrapHandler(written);
  }

  /**
   * The handler as the `fn` of `withSpan`: its writes land on the new span,
   * and it returns undefined whichever way it went.
   */
  method WrapHandler(written: Attributes) returns (span: Span)
    ensures fresh(span) && span.name == SpanName && span.options == NoOptions
    ensures span.endCount == 1 && span.status == SpanStatus(Ok, None) && span.exceptions == []
    ensures span.events == [] && span.attributes == written
  {
    var handlerRun := Run(written, [], Returned(Undefined));
    var r;
    span, r := WithSpan(SpanName, _ => handlerRun, NoOptions, []);
    assert map[] + written + map[] == written;
  }

  /**
   * The handler body: its effect on the sampler, the attributes it writes to
   * the active span (merged in order) and its response. The sampler is an
   * object of its own, so its update is independent of the span writes.
   */
  method RunHandler(sampler: MetricsSampler, httpMethod: string, mem: MemoryUsage, current: CpuUsage,
                    now: int, os: OsReadings, proc: ProcessReadings, failure: HandlerFailure)
    returns (written: Attributes, resp: MetricsResponse)
    modifies sampler
    ensures failure.ReadingFailed? ==>
              sampler.lastCpuUsage == old(sampler.lastCpuUsage) && sampler.lastCpuTime == old(sampler.lastCpuTime)
    ensures !failure.ReadingFailed? ==> sampler.lastCpuUsage == current && sampler.lastCpuTime == now
    ensures failure.NoFailure? ==>
              var m := Snapshot(old(sampler.lastCpuUsage), old(sampler.lastCpuTime), mem, current, now, os, proc);
              && resp == MetricsOk(m, Health(m))
              && written == RequestAttributes(httpMethod) + SampleAttributes(m)
    ensures failure.ReadingFailed? || failure.QueryFailed? ==>
              && resp == MetricsFailed(failure.error.message)
              && written == RequestAttributes(httpMethod) + FailureAttributes(failure.error)
    ensures failure.ResponseFailed? ==>
              var m := Snapshot(old(sampler.lastCpuUsage), old(sampler.lastCpuTime), mem, current, now, os, proc);
              && resp == MetricsFailed(failure.error.message)
              && written == RequestAttributes(httpMethod) + SampleAttributes(m) + FailureAttributes(failure.error)
              && written["operation.success"] == Bool(false)
  {
    written := RequestAttributes(httpMethod);
    if failure.ReadingFailed? {
      written := written + FailureAttributes(failure.error);
      resp := MetricsFailed(failure.error.message);
    } else {
      var m := sampler.GetSystemMetrics(mem, current, now, os, proc);
      if failure.QueryFailed? {
        // The state was replaced before the query threw; the sample is lost.
        written := written + FailureAttributes(failure.error);
        resp := MetricsFailed(failure.error.message);
      } else {
        written := written + SampleAttributes(m);
        if failure.ResponseFailed? {
          written := written + FailureAttributes(failure.error);
          resp := MetricsFailed(failure.error.message);
        } else {
          resp := MetricsOk(m, Health(m));
        }
      }
    }
  }
}
