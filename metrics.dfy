/**
 * The system-metrics sampler: the process-wide previous CPU reading and its
 * time, `getSystemMetrics` (delta percentages against that state, which it
 * then overwrites; whole-megabyte memory figures) and `addSystemMetricsToSpan`.
 *
 * The OS and process queries and `Date.now()` are parameters. Arithmetic is
 * over exact reals with `Math.round(x) = floor(x + 1/2)`.
 */
module Metrics {
  import opened JsValues
  import opened Spans
  import opened Tracer

  /** `process.cpuUsage()`: user and system CPU time in microseconds. */
  datatype CpuUsage = CpuUsage(user: int, system: int)

  /** `process.memoryUsage()`, in bytes. */
  datatype MemoryUsage = MemoryUsage(rss: nat, heapUsed: nat, heapTotal: nat, external: nat, arrayBuffers: nat)

  /** `os.loadavg()`. */
  datatype LoadAverage = LoadAverage(oneMinute: real, fiveMinutes: real, fifteenMinutes: real)

  /** The `os` queries: load, `cpus().length`, platform, arch, uptime in seconds, free and total bytes. */
  datatype OsReadings = OsReadings(loadAverage: LoadAverage, cores: nat, platform: string, arch: string,
                                   uptime: real, freeMemory: nat, totalMemory: nat)

  /** The `process` facts: pid, uptime in seconds, version and title. */
  datatype ProcessReadings = ProcessReadings(pid: nat, uptime: real, version: string, title: string)

  datatype MemoryFigures = MemoryFigures(rss: nat, heapUsed: nat, heapTotal: nat, external: nat, arrayBuffers: nat)

  datatype CpuFigures = CpuFigures(user: int, system: int, userPercent: JsNumber, systemPercent: JsNumber,
                                   totalPercent: JsNumber, loadAverage: LoadAverage, cores: nat)

  datatype SystemFigures = SystemFigures(platform: string, arch: string, uptime: int, freeMemory: nat, totalMemory: nat)

  datatype ProcessFigures = ProcessFigures(pid: nat, uptime: int, version: string, title: string)

  /** The object `getSystemMetrics` returns. */
  datatype SystemMetrics = SystemMetrics(memory: MemoryFigures, cpu: CpuFigures, system: SystemFigures,
                                         process: ProcessFigures)

  const BytesPerMb: nat := 1024 * 1024

  /** `Math.round(bytes / 1024 / 1024)`, computed exactly in integers. */
  function ToMb(bytes: nat): (mb: nat)
    ensures mb == RoundReal(bytes as real / 1024.0 / 1024.0)
  {
    assert bytes as real / 1024.0 / 1024.0 == bytes as real / BytesPerMb as real;
    RoundOfQuotient(bytes, BytesPerMb);
    (bytes + BytesPerMb / 2) / BytesPerMb
  }

  /** `Math.round(micros / 1000)`: CPU microseconds as whole milliseconds, computed exactly in integers. */
  function ToMillis(micros: int): (ms: int)
    ensures ms == RoundReal(micros as real / 1000.0)
  {
    RoundOfQuotient(micros, 1000);
    (micros + 500) / 1000
  }

  /**
   * `Math.round((delta / 1000 / elapsed) * 100)` for a CPU-time delta in
   * microseconds over an elapsed wall-clock time in milliseconds. Two samples
   * in the same millisecond give an infinite or NaN percentage.
   */
  function Percent(deltaMicros: int, elapsedMs: int): (p: JsNumber)
    ensures p.Finite? <==> elapsedMs != 0
    ensures elapsedMs == 0 ==> (p.NaN? <==> deltaMicros == 0)
    ensures elapsedMs == 0 && deltaMicros > 0 ==> p.PositiveInfinity?
  {
    Round(Scale(Divide(deltaMicros as real / 1000.0, elapsedMs as real), 100.0))
  }

  /** Dividing by a positive number keeps the order of two non-negative numbers. */
  lemma QuotientMonotone(a: real, b: real, e: real)
    requires 0.0 <= a <= b && e > 0.0
    ensures 0.0 <= a / e <= b / e
  {
    assert b / e - a / e == (b - a) / e;
  }

  /** Over a positive elapsed time a percentage is the finite rounded value of the exact quotient. */
  lemma PercentIsRounded(deltaMicros: int, elapsedMs: int)
    requires elapsedMs > 0
    ensures Percent(deltaMicros, elapsedMs)
            == Finite(RoundReal(deltaMicros as real / 1000.0 / elapsedMs as real * 100.0) as real)
  {
  }

  /** Over a positive elapsed time, more CPU time never gives a smaller percentage, and none is negative. */
  lemma PercentMonotone(smaller: int, larger: int, elapsedMs: int)
    requires 0 <= smaller <= larger && elapsedMs > 0
    ensures 0.0 <= Percent(smaller, elapsedMs).value <= Percent(larger, elapsedMs).value
  {
    var a, b := smaller as real / 1000.0, larger as real / 1000.0;
    QuotientMonotone(a, b, elapsedMs as real);
    var x, y := a / elapsedMs as real * 100.0, b / elapsedMs as real * 100.0;
    assert 0.0 <= x <= y;
    assert 0 <= RoundReal(x) <= RoundReal(y);
    PercentIsRounded(smaller, elapsedMs);
    PercentIsRounded(larger, elapsedMs);
  }

  /** The three percentages of a sample, from the readings of this sample and of the previous one. */
  function CpuPercentages(last: CpuUsage, lastTime: int, current: CpuUsage, now: int): (p: (JsNumber, JsNumber, JsNumber))
    ensures p.0.Finite? <==> now != lastTime
    ensures p.1.Finite? <==> now != lastTime
    ensures p.2.Finite? <==> now != lastTime
    ensures now > lastTime && current.user >= last.user && current.system >= last.system ==>
              && 0.0 <= p.0.value <= p.2.value
              && 0.0 <= p.1.value <= p.2.value
  {
    var elapsed := now - lastTime;
    var userDiff, systemDiff := current.user - last.user, current.system - last.system;
    var p := (Percent(userDiff, elapsed), Percent(systemDiff, elapsed), Percent(userDiff + systemDiff, elapsed));
    if elapsed > 0 && userDiff >= 0 && systemDiff >= 0 then
      PercentMonotone(userDiff, userDiff + systemDiff, elapsed);
      PercentMonotone(systemDiff, userDiff + systemDiff, elapsed);
      p
    else
      p
  }

  /** The snapshot a sample returns, given the stored previous reading and the fresh readings. */
  function Snapshot(last: CpuUsage, lastTime: int, mem: MemoryUsage, current: CpuUsage, now: int,
                    os: OsReadings, proc: ProcessReadings): (r: SystemMetrics)
    ensures (r.cpu.userPercent, r.cpu.systemPercent, r.cpu.totalPercent)
            == CpuPercentages(last, lastTime, current, now)
    ensures r.memory.rss == RoundReal(mem.rss as real / 1024.0 / 1024.0)
    ensures r.memory.heapUsed == RoundReal(mem.heapUsed as real / 1024.0 / 1024.0)
    ensures r.memory.heapTotal == RoundReal(mem.heapTotal as real / 1024.0 / 1024.0)
    ensures r.memory.external == RoundReal(mem.external as real / 1024.0 / 1024.0)
    ensures r.memory.arrayBuffers == RoundReal(mem.arrayBuffers as real / 1024.0 / 1024.0)
    ensures r.system.freeMemory == RoundReal(os.freeMemory as real / 1024.0 / 1024.0)
    ensures r.system.totalMemory == RoundReal(os.totalMemory as real / 1024.0 / 1024.0)
    ensures r.cpu.user == RoundReal(current.user as real / 1000.0)
    ensures r.cpu.system == RoundReal(current.system as real / 1000.0)
    ensures r.cpu.loadAverage == os.loadAverage && r.cpu.cores == os.cores
    ensures r.system.uptime == RoundReal(os.uptime) && r.process.uptime == RoundReal(proc.uptime)
    ensures r.process.pid == proc.pid && r.process.version == proc.version && r.process.title == proc.title
    ensures r.system.platform == os.platform && r.system.arch == os.arch
  {
    var (userPercent, systemPercent, totalPercent) := CpuPercentages(last, lastTime, current, now);
    SystemMetrics(
      MemoryFigures(ToMb(mem.rss), ToMb(mem.heapUsed), ToMb(mem.heapTotal), ToMb(mem.external),
                    ToMb(mem.arrayBuffers)),
      CpuFigures(ToMillis(current.user), ToMillis(current.system), userPercent, systemPercent,
                 totalPercent, os.loadAverage, os.cores),
      SystemFigures(os.platform, os.arch, RoundReal(os.uptime), ToMb(os.freeMemory), ToMb(os.totalMemory)),
      ProcessFigures(proc.pid, RoundReal(proc.uptime), proc.version, proc.title))
  }

  /**
   * The percentages of a sample depend on the two CPU readings and the two
   * times only through their differences: earlier history plays no part.
   */
  lemma PercentagesDependOnlyOnDeltas(last1: CpuUsage, lastTime1: int, current1: CpuUsage, now1: int,
                                      last2: CpuUsage, lastTime2: int, current2: CpuUsage, now2: int)
    requires current1.user - last1.user == current2.user - last2.user
    requires current1.system - last1.system == current2.system - last2.system
    requires now1 - lastTime1 == now2 - lastTime2
    ensures CpuPercentages(last1, lastTime1, current1, now1) == CpuPercentages(last2, lastTime2, current2, now2)
  {
  }

  /**
   * The total is rounded from the summed deltas, not summed from the rounded
   * parts: 5 microseconds of user and of system time in 1 millisecond give
   * 1% user, 1% system and 1% total.
   */
  lemma TotalIsNotSumOfRoundedParts()
    ensures var (u, s, t) := CpuPercentages(CpuUsage(0, 0), 0, CpuUsage(5, 5), 1);
            u == s == t == Finite(1.0)
  {
    PercentIsRounded(5, 1);
    PercentIsRounded(10, 1);
    assert RoundReal(0.5) == 1 && RoundReal(1.0) == 1;
  }

  /** Two samples 100 ms apart with 50 ms of user CPU time report 50% user time. */
  lemma HalfLoadScenario(last: CpuUsage, lastTime: int)
    ensures CpuPercentages(last, lastTime, CpuUsage(last.user + 50000, last.system), lastTime + 100).0
            == Finite(50.0)
  {
    PercentIsRounded(50000, 100);
    assert 50000 as real / 1000.0 / 100 as real * 100.0 == 50.0;
    assert RoundReal(50.0) == 50;
  }

  const MemoryKeys: set<string> := {"system.memory.rss_mb", "system.memory.heap_used_mb", "system.memory.heap_total_mb",
                                    "system.memory.free_mb", "system.memory.total_mb", "system.memory.usage_percent"}
  const CpuKeys: set<string> := {"system.cpu.cores", "system.cpu.user_percent", "system.cpu.system_percent",
                                 "system.cpu.total_percent", "system.cpu.load_1m", "system.cpu.load_5m",
                                 "system.cpu.load_15m"}
  const ProcessKeys: set<string> := {"process.uptime_seconds", "process.pid", "process.node_version"}

  /** The memory attributes `addSystemMetricsToSpan` writes, in whole megabytes. */
  function MemoryAttributes(m: SystemMetrics): (a: Attributes)
    ensures a.Keys == MemoryKeys
    ensures a["system.memory.rss_mb"] == Int(m.memory.rss)
    ensures a["system.memory.heap_used_mb"] == Int(m.memory.heapUsed)
    ensures a["system.memory.heap_total_mb"] == Int(m.memory.heapTotal)
    ensures a["system.memory.free_mb"] == Int(m.system.freeMemory)
    ensures a["system.memory.total_mb"] == Int(m.system.totalMemory)
    ensures a["system.memory.usage_percent"] == Num(UsagePercent(m))
  {
    map[
      "system.memory.rss_mb" := Int(m.memory.rss),
      "system.memory.heap_used_mb" := Int(m.memory.heapUsed),
      "system.memory.heap_total_mb" := Int(m.memory.heapTotal),
      "system.memory.free_mb" := Int(m.system.freeMemory),
      "system.memory.total_mb" := Int(m.system.totalMemory),
      "system.memory.usage_percent" := Num(UsagePercent(m))
    ]
  }

  /** The CPU attributes: cores, the three percentages of the sample and the three load averages. */
  function CpuAttributes(m: SystemMetrics): (a: Attributes)
    ensures a.Keys == CpuKeys
    ensures a["system.cpu.cores"] == Int(m.cpu.cores)
    ensures a["system.cpu.user_percent"] == Num(m.cpu.userPercent)
    ensures a["system.cpu.system_percent"] == Num(m.cpu.systemPercent)
    ensures a["system.cpu.total_percent"] == Num(m.cpu.totalPercent)
    ensures a["system.cpu.load_1m"] == Num(Finite(m.cpu.loadAverage.oneMinute))
    ensures a["system.cpu.load_5m"] == Num(Finite(m.cpu.loadAverage.fiveMinutes))
    ensures a["system.cpu.load_15m"] == Num(Finite(m.cpu.loadAverage.fifteenMinutes))
  {
    map[
      "system.cpu.cores" := Int(m.cpu.cores),
      "system.cpu.user_percent" := Num(m.cpu.userPercent),
      "system.cpu.system_percent" := Num(m.cpu.systemPercent),
      "system.cpu.total_percent" := Num(m.cpu.totalPercent),
      "system.cpu.load_1m" := Num(Finite(m.cpu.loadAverage.oneMinute)),
      "system.cpu.load_5m" := Num(Finite(m.cpu.loadAverage.fiveMinutes)),
      "system.cpu.load_15m" := Num(Finite(m.cpu.loadAverage.fifteenMinutes))
    ]
  }

  /** The process attributes: uptime in whole seconds, pid and Node.js version. */
  function ProcessAttributes(m: SystemMetrics): (a: Attributes)
    ensures a.Keys == ProcessKeys
    ensures a["process.uptime_seconds"] == Int(m.process.uptime)
    ensures a["process.pid"] == Int(m.process.pid)
    ensures a["process.node_version"] == Str(m.process.version)
  {
    map[
      "process.uptime_seconds" := Int(m.process.uptime),
      "process.pid" := Int(m.process.pid),
      "process.node_version" := Str(m.process.version)
    ]
  }

  /**
   * Attributes `addSystemMetricsToSpan` writes: the three groups, whose keys
   * are told apart by their `system.memory.`, `system.cpu.` and `process.`
   * prefixes, so no group overwrites another.
   */
  function SystemAttributes(m: SystemMetrics): (a: Attributes)
    ensures a.Keys == MemoryKeys + CpuKeys + ProcessKeys
    ensures forall k :: k in MemoryKeys ==> a[k] == MemoryAttributes(m)[k]
    ensures forall k :: k in CpuKeys ==> a[k] == CpuAttributes(m)[k]
    ensures forall k :: k in ProcessKeys ==> a[k] == ProcessAttributes(m)[k]
  {
    GroupsDisjoint();
    MemoryAttributes(m) + CpuAttributes(m) + ProcessAttributes(m)
  }

  /** No key belongs to two of the attribute groups: their prefixes differ. */
  lemma GroupsDisjoint()
    ensures MemoryKeys !! CpuKeys && MemoryKeys !! ProcessKeys && CpuKeys !! ProcessKeys
  {
    forall k | k in MemoryKeys ensures k !in CpuKeys && k !in ProcessKeys {
      GroupOfKey(k);
    }
    forall k | k in CpuKeys ensures k !in ProcessKeys {
      GroupOfKey(k);
    }
  }

  /** Memory keys have `m` at index 7, CPU keys `c`, process keys `p` at index 0 and `s` elsewhere. */
  lemma GroupOfKey(k: string)
    requires k in MemoryKeys + CpuKeys + ProcessKeys
    ensures |k| > 7
    ensures k in MemoryKeys <==> k[0] == 's' && k[7] == 'm'
    ensures k in CpuKeys <==> k[0] == 's' && k[7] == 'c'
    ensures k in ProcessKeys <==> k[0] == 'p'
  {
    if k in MemoryKeys {
      assert k == "system.memory.rss_mb" || k == "system.memory.heap_used_mb" || k == "system.memory.heap_total_mb"
          || k == "system.memory.free_mb" || k == "system.memory.total_mb" || k == "system.memory.usage_percent";
    } else if k in CpuKeys {
      assert k == "system.cpu.cores" || k == "system.cpu.user_percent" || k == "system.cpu.system_percent"
          || k == "system.cpu.total_percent" || k == "system.cpu.load_1m" || k == "system.cpu.load_5m"
          || k == "system.cpu.load_15m";
    } else {
      assert k == "process.uptime_seconds" || k == "process.pid" || k == "process.node_version";
    }
  }

  /** `Math.round(rss / totalMemory * 100)`, in whole megabytes. */
  function UsagePercent(m: SystemMetrics): (p: JsNumber)
    ensures m.system.totalMemory != 0 ==>
              p == Finite(RoundReal(m.memory.rss as real / m.system.totalMemory as real * 100.0) as real)
  {
    Round(Scale(Divide(m.memory.rss as real, m.system.totalMemory as real), 100.0))
  }

  /** The `system.metrics.collected` event: the sample's rss, CPU percentages and process uptime. */
  function MetricsEvent(m: SystemMetrics): (e: SpanEvent)
    ensures e.name == "system.metrics.collected"
    ensures e.attributes.Keys == {"memory_mb", "cpu_total_percent", "cpu_user_percent", "cpu_system_percent", "uptime"}
    ensures e.attributes["memory_mb"] == Int(m.memory.rss)
    ensures e.attributes["cpu_total_percent"] == Num(m.cpu.totalPercent)
    ensures e.attributes["cpu_user_percent"] == Num(m.cpu.userPercent)
    ensures e.attributes["cpu_system_percent"] == Num(m.cpu.systemPercent)
    ensures e.attributes["uptime"] == Int(m.process.uptime)
  {
    SpanEvent("system.metrics.collected", map[
      "memory_mb" := Int(m.memory.rss),
      "cpu_total_percent" := Num(m.cpu.totalPercent),
      "cpu_user_percent" := Num(m.cpu.userPercent),
      "cpu_system_percent" := Num(m.cpu.systemPercent),
      "uptime" := Int(m.process.uptime)
    ])
  }

  /** The event's payload repeats five of the attribute values of the same sample. */
  lemma EventRepeatsAttributes(m: SystemMetrics)
    ensures MetricsEvent(m).attributes["memory_mb"] == SystemAttributes(m)["system.memory.rss_mb"]
    ensures MetricsEvent(m).attributes["cpu_total_percent"] == SystemAttributes(m)["system.cpu.total_percent"]
    ensures MetricsEvent(m).attributes["cpu_user_percent"] == SystemAttributes(m)["system.cpu.user_percent"]
    ensures MetricsEvent(m).attributes["cpu_system_percent"] == SystemAttributes(m)["system.cpu.system_percent"]
    ensures MetricsEvent(m).attributes["uptime"] == SystemAttributes(m)["process.uptime_seconds"]
  {
    var a := SystemAttributes(m);
    assert "system.memory.rss_mb" in MemoryKeys;
    assert "system.cpu.total_percent" in CpuKeys && "system.cpu.user_percent" in CpuKeys;
    assert "system.cpu.system_percent" in CpuKeys;
    assert "process.uptime_seconds" in ProcessKeys;
  }

  /** The process-wide sampling state: the previous CPU reading and the time it was taken. */
  class MetricsSampler {
    var lastCpuUsage: CpuUsage
    var lastCpuTime: int

    /** The state at module load: one reading of the CPU counters and of the clock. */
    constructor (initialCpu: CpuUsage, initialTime: int)
      ensures lastCpuUsage == initialCpu && lastCpuTime == initialTime
    {
      lastCpuUsage := initialCpu;
      lastCpuTime := initialTime;
    }

    /** `getSystemMetrics`: one sample against the stored reading, which it then replaces. */
    method GetSystemMetrics(mem: MemoryUsage, current: CpuUsage, now: int, os: OsReadings, proc: ProcessReadings)
      returns (m: SystemMetrics)
      modifies this
      ensures lastCpuUsage == current && lastCpuTime == now
      ensures m == Snapshot(old(lastCpuUsage), old(lastCpuTime), mem, current, now, os, proc)
    {
      m := Snapshot(lastCpuUsage, lastCpuTime, mem, current, now, os, proc);
      lastCpuUsage := current;
      lastCpuTime := now;
    }

    /**
     * `addSystemMetricsToSpan`: exactly one sample, whose figures go to the
     * active span as attributes and as one `system.metrics.collected` event.
     */
    method AddSystemMetricsToSpan(active: Option<Span>, mem: MemoryUsage, current: CpuUsage, now: int,
                                  os: OsReadings, proc: ProcessReadings)
      modifies this, Frame(active)
      ensures lastCpuUsage == current && lastCpuTime == now
      ensures active.Some? ==>
                var m := Snapshot(old(lastCpuUsage), old(lastCpuTime), mem, current, now, os, proc);
                && active.value.attributes == old(active.value.attributes) + SystemAttributes(m)
                && active.value.events == old(active.value.events) + [MetricsEvent(m)]
                && active.value.status == old(active.value.status)
                && active.value.exceptions == old(active.value.exceptions)
                && active.value.endCount == old(active.value.endCount)
    {
      var m := GetSystemMetrics(mem, current, now, os, proc);
      RecordSample(active, m);
    }
  }

  /** The writes of `addSystemMetricsToSpan` once the sample `m` is taken. */
  method RecordSample(active: Option<Span>, m: SystemMetrics)
    modifies Frame(active)
    ensures active.Some? ==>
              && active.value.attributes == old(active.value.attributes) + SystemAttributes(m)
              && active.value.events == old(active.value.events) + [MetricsEvent(m)]
              && active.value.status == old(active.value.status)
              && active.value.exceptions == old(active.value.exceptions)
              && active.value.endCount == old(active.value.endCount)
  {
    var attributes, e := SystemAttributes(m), MetricsEvent(m);
    RecordWrites(active, attributes, e);
  }

  /** One attribute merge and one event appended to the active span. */
  method RecordWrites(active: Option<Span>, attributes: Attributes, e: SpanEvent)
    modifies Frame(active)
    ensures active.Some? ==>
              && active.value.attributes == old(active.value.attributes) + attributes
              && active.value.events == old(active.value.events) + [e]
              && active.value.status == old(active.value.status)
              && active.value.exceptions == old(active.value.exceptions)
              && active.value.endCount == old(active.value.endCount)
  {
    AddSpanAttributes(active, attributes);
    RecordSpanEvent(active, e.name, e.attributes);
  }

  /**
   * Two consecutive samples from any starting state: the second one's
   * percentages come from the two readings alone.
   */
  method TwoConsecutiveSamples(initialCpu: CpuUsage, initialTime: int,
                               mem: MemoryUsage, os: OsReadings, proc: ProcessReadings,
                               first: CpuUsage, firstTime: int, second: CpuUsage, secondTime: int)
    returns (m1: SystemMetrics, m2: SystemMetrics)
    ensures (m2.cpu.userPercent, m2.cpu.systemPercent, m2.cpu.totalPercent)
            == CpuPercentages(first, firstTime, second, secondTime)
    ensures secondTime - firstTime == 100 && second.user - first.user == 50000 ==>
              m2.cpu.userPercent == Finite(50.0)
  {
    var sampler := new MetricsSampler(initialCpu, initialTime);
    m1 := sampler.GetSystemMetrics(mem, first, firstTime, os, proc);
    m2 := sampler.GetSystemMetrics(mem, second, secondTime, os, proc);
    if secondTime - firstTime == 100 && second.user - first.user == 50000 {
      HalfLoadScenario(first, firstTime);
      PercentagesDependOnlyOnDeltas(first, firstTime, second, secondTime,
                                    first, firstTime, CpuUsage(first.user + 50000, second.system), secondTime);
    }
  }
}
