/** Process metrics: first set times, last values, CPU time and its share of the runtime. */
module Process {
  import opened Int64
  import opened Sums
  import opened Pdata
  import opened Readings
  import opened Reals
  import opened RemappedMetric
  import opened Wrappers

  const THREADS := "process.threads"
  const MEMORY_UTILIZATION := "process.memory.utilization"
  const MEMORY_USAGE := "process.memory.usage"
  const MEMORY_VIRTUAL := "process.memory.virtual"
  const FILE_DESCRIPTORS := "process.open_file_descriptors"
  const CPU_TIME := "process.cpu.time"
  const DISK_IO := "process.disk.io"
  const DISK_OPERATIONS := "process.disk.operations"

  /** Metrics of which only the first datapoint is read. */
  predicate ReadOnce(name: string) {
    name == THREADS || name == MEMORY_UTILIZATION || name == MEMORY_USAGE ||
    name == MEMORY_VIRTUAL || name == FILE_DESCRIPTORS
  }

  /** Metrics of which all datapoints are read. */
  predicate ReadFully(name: string) {
    name == CPU_TIME || name == DISK_IO || name == DISK_OPERATIONS
  }

  function Reads(m: Metric): seq<Sample> {
    if ReadOnce(m.name) then FirstPoint(m)
    else if ReadFully(m.name) then Points(m)
    else []
  }

  predicate WellTyped(src: seq<Metric>) {
    forall m :: m in src ==>
      && (ReadOnce(m.name) ==> m.dataPoints != [])
      && (ReadOnce(m.name) || ReadFully(m.name) ==>
            if m.name == MEMORY_UTILIZATION then m.kind.Gauge? else m.kind.Sum?)
  }

  // ---------- What the registers mean ----------

  predicate CountsAsCpu(state: string) {
    state == "system" || state == "user" || state == "wait"
  }

  function CpuTime(): Sample -> real {
    (s: Sample) => if s.metric == CPU_TIME && CountsAsCpu(StrOf(s.dp.attributes, "state"))
                   then s.dp.DoubleValue() else 0.0
  }

  datatype Registers = Registers(
    threads: int64, memUsage: int64, memVirtual: int64, fdOpen: int64,
    readBytes: int64, writeBytes: int64, readOps: int64, writeOps: int64,
    memUtil: real, total: real, systemCpu: real, userCpu: real)

  /** Last values, except for the total CPU time, which is a sum. */
  function RegistersOf(ss: seq<Sample>): Registers {
    Registers(
      LastInt(ss, Of(THREADS)), LastInt(ss, Of(MEMORY_USAGE)),
      LastInt(ss, Of(MEMORY_VIRTUAL)), LastInt(ss, Of(FILE_DESCRIPTORS)),
      LastInt(ss, With(DISK_IO, "direction", "read")), LastInt(ss, With(DISK_IO, "direction", "write")),
      LastInt(ss, With(DISK_OPERATIONS, "direction", "read")), LastInt(ss, With(DISK_OPERATIONS, "direction", "write")),
      LastReal(ss, Of(MEMORY_UTILIZATION)), SumReal(ss, CpuTime()),
      LastReal(ss, With(CPU_TIME, "state", "system")), LastReal(ss, With(CPU_TIME, "state", "user")))
  }

  /** The effect of one datapoint. */
  function AddPoint(r: Registers, name: string, dp: DataPoint): Registers {
    if name == THREADS then r.(threads := dp.IntValue())
    else if name == MEMORY_UTILIZATION then r.(memUtil := dp.DoubleValue())
    else if name == MEMORY_USAGE then r.(memUsage := dp.IntValue())
    else if name == MEMORY_VIRTUAL then r.(memVirtual := dp.IntValue())
    else if name == FILE_DESCRIPTORS then r.(fdOpen := dp.IntValue())
    else if name == CPU_TIME then AddCpuTime(r, StrOf(dp.attributes, "state"), dp.DoubleValue())
    else if name == DISK_IO then
      var direction := StrOf(dp.attributes, "direction");
      if direction == "read" then r.(readBytes := dp.IntValue())
      else if direction == "write" then r.(writeBytes := dp.IntValue())
      else r
    else if name == DISK_OPERATIONS then
      var direction := StrOf(dp.attributes, "direction");
      if direction == "read" then r.(readOps := dp.IntValue())
      else if direction == "write" then r.(writeOps := dp.IntValue())
      else r
    else r
  }

  function AddCpuTime(r: Registers, state: string, v: real): Registers {
    if state == "system" then r.(systemCpu := v, total := r.total + v)
    else if state == "user" then r.(userCpu := v, total := r.total + v)
    else if state == "wait" then r.(total := r.total + v)
    else r
  }

  // ---------- Times ----------

  const NANOS_PER_MILLI := 1_000_000

  /** A timestamp read as signed nanoseconds, in whole milliseconds rounded down. */
  function Millis(ts: Timestamp): int {
    Wrap(ts) / NANOS_PER_MILLI
  }

  /** A floating point quotient by an integer. */
  function Quotient(x: real, d: int): Double {
    if d == 0 then NotFinite else Finite(x / d as real)
  }

  // ---------- Output ----------

  /** Writes the attributes taken from the resource and the formatted start time. */
  function ProcessResources(resource: Attributes, startTime: string): Mutator {
    (a: Attributes) => PutAll(a, ResourceAttributes(resource, startTime))
  }

  function ResourceAttributes(resource: Attributes, startTime: string): seq<Attribute> {
    IfSet("process.parent.pid", NumOf(resource, "process.parent_pid")) +
    [Attribute("user.name", StrValue(OrUndefined(StrOf(resource, "process.owner"))))] +
    IfNamed("process.executable", StrOf(resource, "process.executable.path")) +
    IfNamed("process.name", StrOf(resource, "process.executable.name")) +
    [Attribute("system.process.cmdline", StrValue(OrUndefined(StrOf(resource, "process.command_line")))),
     Attribute("system.process.cpu.start_time", StrValue(startTime)),
     Attribute("system.process.state", StrValue("undefined"))]
  }

  function OrUndefined(s: string): string {
    if s != "" then s else "undefined"
  }

  function IfNamed(key: string, v: string): seq<Attribute> {
    if v != "" then [Attribute(key, StrValue(v))] else []
  }

  function IfSet(key: string, n: int64): seq<Attribute> {
    if n != 0 then [Attribute(key, NumValue(n))] else []
  }

  /** The sixteen metrics: what is copied, then CPU and input/output. */
  function Output(ts: Timestamp, start: Timestamp, r: Registers): seq<Remapped> {
    Basics(ts, start, r) + CpuAndIo(ts, start, r)
  }

  function Basics(ts: Timestamp, start: Timestamp, r: Registers): seq<Remapped> {
    [OfInt(Sum, "process.cpu.start_time", ts, Millis(start)),
     OfInt(Sum, "system.process.num_threads", ts, r.threads),
     OfReal(Gauge, "system.process.memory.rss.pct", ts, r.memUtil / 100.0),
     OfInt(Sum, "system.process.memory.rss.bytes", ts, r.memUsage),
     OfInt(Sum, "system.process.memory.size", ts, r.memVirtual),
     OfInt(Sum, "system.process.fd.open", ts, r.fdOpen),
     OfReal(Gauge, "process.memory.pct", ts, r.memUtil / 100.0)]
  }

  function CpuAndIo(ts: Timestamp, start: Timestamp, r: Registers): seq<Remapped> {
    var cpu := r.total * 1000.0;
    [OfReal(Sum, "system.process.cpu.total.value", ts, cpu),
     OfReal(Sum, "system.process.cpu.system.ticks", ts, r.systemCpu * 1000.0),
     OfReal(Sum, "system.process.cpu.user.ticks", ts, r.userCpu * 1000.0),
     OfReal(Sum, "system.process.cpu.total.ticks", ts, cpu),
     OfInt(Sum, "system.process.io.read_bytes", ts, r.readBytes),
     OfInt(Sum, "system.process.io.write_bytes", ts, r.writeBytes),
     OfInt(Sum, "system.process.io.read_ops", ts, r.readOps),
     OfInt(Sum, "system.process.io.write_ops", ts, r.writeOps),
     Remapped(Gauge, "system.process.cpu.total.pct", ts, None, Some(Quotient(cpu, Millis(ts) - Millis(start))))]
  }

  function OutputOf(ss: seq<Sample>): seq<Remapped> {
    Output(FirstTimestamp(ss), FirstSet(ss, StartOf), RegistersOf(ss))
  }

  /** `format` renders a start time in nanoseconds. */
  function Remap(src: seq<Metric>, resource: Attributes, mutator: Mutator, format: int64 -> string): seq<Metric> {
    var ss := ConcatMap(src, Reads);
    Added(OutputOf(ss), ChainedMutator([mutator, ProcessResources(resource, format(Wrap(FirstSet(ss, StartOf))))]))
  }

  // ---------- The scan ----------

  method RemapProcessMetrics(src: MetricSlice, out: MetricSlice, resource: Attributes, mutator: Mutator,
                             format: int64 -> string)
    requires WellTyped(src.items)
    modifies out
    ensures out.items == old(out.items) + Remap(old(src.items), resource, mutator, format)
  {
    var timestamp, startTimestamp, r := ReadProcessMetrics(src);
    var finalMutator := ChainedMutator([mutator, ProcessResources(resource, format(Wrap(startTimestamp)))]);
    Add(out, finalMutator, Output(timestamp, startTimestamp, r));
  }

  method ReadProcessMetrics(src: MetricSlice) returns (timestamp: Timestamp, startTimestamp: Timestamp, r: Registers)
    requires WellTyped(src.items)
    ensures timestamp == FirstTimestamp(ConcatMap(src.items, Reads))
    ensures startTimestamp == FirstSet(ConcatMap(src.items, Reads), StartOf)
    ensures r == RegistersOf(ConcatMap(src.items, Reads))
  {
    timestamp, startTimestamp := 0, 0;
    r := Registers(0, 0, 0, 0, 0, 0, 0, 0, 0.0, 0.0, 0.0, 0.0);
    ghost var done: seq<Sample> := [];
    for i := 0 to |src.items|
      invariant done == ConcatMap(src.items[..i], Reads)
      invariant timestamp == FirstTimestamp(done) && startTimestamp == FirstSet(done, StartOf)
      invariant r == RegistersOf(done)
    {
      var metric := src.items[i];
      ConcatMapPrefix(src.items, i, Reads);
      ghost var before := done;
      if ReadOnce(metric.name) {
        var dp := metric.dataPoints[0];
        PointRead(done, Sample(metric.name, dp));
        if timestamp == 0 {
          timestamp := dp.timestamp;
        }
        if startTimestamp == 0 {
          startTimestamp := dp.startTimestamp;
        }
        r := AddPoint(r, metric.name, dp);
        done := done + [Sample(metric.name, dp)];
      } else if ReadFully(metric.name) {
        for j := 0 to |metric.dataPoints|
          invariant done == before + Points(metric)[..j]
          invariant timestamp == FirstTimestamp(done) && startTimestamp == FirstSet(done, StartOf)
          invariant r == RegistersOf(done)
        {
          var dp := metric.dataPoints[j];
          ghost var s := Points(metric)[j];
          PointRead(done, s);
          if timestamp == 0 {
            timestamp := dp.timestamp;
          }
          if startTimestamp == 0 {
            startTimestamp := dp.startTimestamp;
          }
          r := AddPoint(r, metric.name, dp);
          PointsPrefix(metric, j);
          Associative(before, Points(metric)[..j], [s]);
          done := done + [s];
        }
        assert Points(metric)[..|metric.dataPoints|] == Points(metric);
      }
    }
    assert src.items[..|src.items|] == src.items;
  }

  lemma PointRead(ss: seq<Sample>, s: Sample)
    ensures FirstTimestamp(ss + [s]) == if FirstTimestamp(ss) == 0 then s.dp.timestamp else FirstTimestamp(ss)
    ensures FirstSet(ss + [s], StartOf) ==
            if FirstSet(ss, StartOf) == 0 then s.dp.startTimestamp else FirstSet(ss, StartOf)
    ensures RegistersOf(ss + [s]) == AddPoint(RegistersOf(ss), s.metric, s.dp)
  {
    FirstTimestampSnoc(ss, s);
    FirstSetSnoc(ss, s, StartOf);
    assert (ss + [s])[..|ss|] == ss;
  }

  // ---------- CPU share ----------

  /** Rounding both times down to milliseconds moves the runtime by less than one of them. */
  lemma RuntimeWithinAMilli(ts: Timestamp, start: Timestamp)
    requires ts < TWO_63 && start < TWO_63
    ensures -NANOS_PER_MILLI < (Millis(ts) - Millis(start)) * NANOS_PER_MILLI - (ts - start) < NANOS_PER_MILLI
  {
  }

  function Runtime(ss: seq<Sample>): int {
    Millis(FirstTimestamp(ss)) - Millis(FirstSet(ss, StartOf))
  }

  /** The bound below `c` CPUs gives for a runtime of `r` milliseconds. */
  ghost predicate ShareBelow(share: Double, c: real, r: int)
    requires r > 0
  {
    share.Finite? && share.r < c * (1.0 + 1.0 / r as real)
  }

  /** At most `c` CPUs were used for all the nanoseconds between the two times. */
  ghost predicate UsedAtMost(total: real, c: real, ts: Timestamp, start: Timestamp) {
    total <= c * ((ts - start) as real / 1_000_000_000.0)
  }

  /** A process that used at most `c` CPUs over its nanoseconds of life is reported with a
      share below c * (1 + 1/r), where r is its positive runtime in milliseconds. */
  lemma CpuShareBound(src: seq<Metric>, resource: Attributes, mutator: Mutator, format: int64 -> string, c: real)
    requires var ss := ConcatMap(src, Reads);
             && FirstTimestamp(ss) < TWO_63 && FirstSet(ss, StartOf) < TWO_63
             && Runtime(ss) > 0 && c > 0.0
             && UsedAtMost(RegistersOf(ss).total, c, FirstTimestamp(ss), FirstSet(ss, StartOf))
    ensures var out := Remap(src, resource, mutator, format);
            && |out| == 16 && out[15].name == "system.process.cpu.total.pct"
            && |out[15].dataPoints| == 1 && out[15].dataPoints[0].value.DoubleNumber?
            && ShareBelow(out[15].dataPoints[0].value.d, c, Runtime(ConcatMap(src, Reads)))
  {
    var ss, out := ConcatMap(src, Reads), Remap(src, resource, mutator, format);
    NoneOrSixteen(src, resource, mutator, format);
    CpuShareIs(FirstTimestamp(ss), FirstSet(ss, StartOf), RegistersOf(ss));
    ShareBound(RegistersOf(ss).total, c, FirstTimestamp(ss), FirstSet(ss, StartOf));
    assert Says(out[15], OutputOf(ss)[15]);
  }

  lemma ShareBound(total: real, c: real, ts: Timestamp, start: Timestamp)
    requires ts < TWO_63 && start < TWO_63
    requires Millis(ts) - Millis(start) > 0 && c > 0.0
    requires UsedAtMost(total, c, ts, start)
    ensures ShareBelow(Quotient(total * 1000.0, Millis(ts) - Millis(start)), c, Millis(ts) - Millis(start))
  {
    ElapsedBelow(ts, start);
    ShareArithmetic(total, c, (ts - start) as real / 1_000_000_000.0, (Millis(ts) - Millis(start)) as real);
  }

  lemma CpuShareIs(ts: Timestamp, start: Timestamp, r: Registers)
    ensures Output(ts, start, r)[15] ==
            Remapped(Gauge, "system.process.cpu.total.pct", ts, None,
                     Some(Quotient(r.total * 1000.0, Millis(ts) - Millis(start))))
  {
  }

  lemma ElapsedBelow(ts: Timestamp, start: Timestamp)
    requires ts < TWO_63 && start < TWO_63
    ensures (ts - start) as real / 1_000_000_000.0 * 1000.0 < (Millis(ts) - Millis(start)) as real + 1.0
  {
    RuntimeWithinAMilli(ts, start);
    var r := Millis(ts) - Millis(start);
    assert (ts - start) as real < r as real * 1_000_000.0 + 1_000_000.0;
  }

  lemma ShareArithmetic(total: real, c: real, seconds: real, r: real)
    requires c > 0.0 && r > 0.0 && total <= c * seconds && seconds * 1000.0 < r + 1.0
    ensures total * 1000.0 / r < c * (1.0 + 1.0 / r)
  {
    var inverse := 1.0 / r;
    var b := c * (1.0 + inverse);
    assert (1.0 + inverse) * r == r + 1.0 by {
      assert inverse * r == 1.0;
    }
    Product(c, 1.0 + inverse, r);
    Product(c, seconds, 1000.0);
    StrictScale(seconds * 1000.0, r + 1.0, c);
    assert total * 1000.0 < b * r;
    QuotientBelow(total * 1000.0, r, b);
  }

  // ---------- CPU ticks ----------

  /** With non-negative CPU times the total covers the last system and user times. */
  lemma {:induction false} TotalCoversSystemAndUser(ss: seq<Sample>)
    requires forall s :: s in ss && s.metric == CPU_TIME ==> s.dp.DoubleValue() >= 0.0
    ensures var r := RegistersOf(ss); r.total >= r.systemCpu + r.userCpu && r.systemCpu >= 0.0 && r.userCpu >= 0.0
  {
    if ss != [] {
      var n := |ss| - 1;
      TotalCoversSystemAndUser(ss[..n]);
      assert ss == ss[..n] + [ss[n]];
      PointRead(ss[..n], ss[n]);
    }
  }

  /** The emitted total value equals the emitted total ticks, and covers the emitted system
      and user ticks. */
  lemma EmittedTicks(src: seq<Metric>, resource: Attributes, mutator: Mutator, format: int64 -> string)
    requires FirstTimestamp(ConcatMap(src, Reads)) != 0
    requires forall s :: s in ConcatMap(src, Reads) && s.metric == CPU_TIME ==> s.dp.DoubleValue() >= 0.0
    ensures TicksAgree(Remap(src, resource, mutator, format))
  {
    var ss := ConcatMap(src, Reads);
    var ts, r := FirstTimestamp(ss), RegistersOf(ss);
    NoneOrSixteen(src, resource, mutator, format);
    TotalCoversSystemAndUser(ss);
    TicksOf(ts, FirstSet(ss, StartOf), r);
    TicksSaid(Remap(src, resource, mutator, format), OutputOf(ss), ts, r);
  }

  lemma TicksSaid(out: seq<Metric>, plan: seq<Remapped>, ts: Timestamp, r: Registers)
    requires NoneOrAll(out, plan, ts) && ts != 0 && |plan| == 16
    requires ArePlanned(plan, ts, r.total * 1000.0, r.systemCpu * 1000.0, r.userCpu * 1000.0)
    requires r.total >= r.systemCpu + r.userCpu
    ensures TicksAgree(out)
  {
    assert Says(out[7], plan[7]) && Says(out[8], plan[8]) && Says(out[9], plan[9]) && Says(out[10], plan[10]);
  }

  ghost predicate ArePlanned(plan: seq<Remapped>, ts: Timestamp, total: real, system: real, user: real) {
    && |plan| == 16
    && plan[7] == OfReal(Sum, "system.process.cpu.total.value", ts, total)
    && plan[8] == OfReal(Sum, "system.process.cpu.system.ticks", ts, system)
    && plan[9] == OfReal(Sum, "system.process.cpu.user.ticks", ts, user)
    && plan[10] == OfReal(Sum, "system.process.cpu.total.ticks", ts, total)
  }

  ghost predicate TicksAgree(out: seq<Metric>) {
    && |out| == 16
    && out[7].name == "system.process.cpu.total.value" && out[10].name == "system.process.cpu.total.ticks"
    && out[8].name == "system.process.cpu.system.ticks" && out[9].name == "system.process.cpu.user.ticks"
    && RealAt(out, 7) == RealAt(out, 10)
    && RealAt(out, 10) >= RealAt(out, 8) + RealAt(out, 9)
  }

  lemma TicksOf(ts: Timestamp, start: Timestamp, r: Registers)
    ensures ArePlanned(Output(ts, start, r), ts, r.total * 1000.0, r.systemCpu * 1000.0, r.userCpu * 1000.0)
  {
  }

  // ---------- Output ----------

  predicate Unread(name: string) {
    !ReadOnce(name) && !ReadFully(name)
  }

  /** All names read start with "process."; all but two of the new ones with "system.process.". */
  predicate IsNewName(name: string) {
    || (|name| > 14 && name[0] == 's' && name[7] == 'p' && name[14] == '.')
    || name == "process.cpu.start_time" || name == "process.memory.pct"
  }

  lemma NewNameUnread(name: string)
    requires IsNewName(name)
    ensures Unread(name)
  {
  }

  lemma BasicsShape(ts: Timestamp, start: Timestamp, regs: Registers)
    ensures forall k :: 0 <= k < |Basics(ts, start, regs)| ==>
      Recognised(Basics(ts, start, regs)[k], ts) && IsNewName(Basics(ts, start, regs)[k].name)
  {
  }

  lemma CpuAndIoShape(ts: Timestamp, start: Timestamp, regs: Registers)
    ensures forall k :: 0 <= k < |CpuAndIo(ts, start, regs)| ==>
      Recognised(CpuAndIo(ts, start, regs)[k], ts) && IsNewName(CpuAndIo(ts, start, regs)[k].name)
  {
    CpuAndIoNames(ts, start, regs);
  }

  lemma CpuAndIoNames(ts: Timestamp, start: Timestamp, regs: Registers)
    ensures forall k :: 0 <= k < |CpuAndIo(ts, start, regs)| ==> IsNewName(CpuAndIo(ts, start, regs)[k].name)
  {
    CpuNames(ts, start, regs);
    IoNames(ts, start, regs);
  }

  lemma CpuNames(ts: Timestamp, start: Timestamp, regs: Registers)
    ensures forall k :: 0 <= k < 4 ==> IsNewName(CpuAndIo(ts, start, regs)[k].name)
  {
  }

  lemma IoNames(ts: Timestamp, start: Timestamp, regs: Registers)
    ensures forall k :: 4 <= k < |CpuAndIo(ts, start, regs)| ==> IsNewName(CpuAndIo(ts, start, regs)[k].name)
  {
  }

  lemma OutputShape(ss: seq<Sample>)
    ensures forall r :: r in OutputOf(ss) ==> Recognised(r, FirstTimestamp(ss)) && IsNewName(r.name)
  {
    BasicsShape(FirstTimestamp(ss), FirstSet(ss, StartOf), RegistersOf(ss));
    CpuAndIoShape(FirstTimestamp(ss), FirstSet(ss, StartOf), RegistersOf(ss));
  }

  /** Nothing or sixteen metrics are appended, all with the first time that is set. */
  lemma NoneOrSixteen(src: seq<Metric>, resource: Attributes, mutator: Mutator, format: int64 -> string)
    ensures var ss := ConcatMap(src, Reads);
            NoneOrAll(Remap(src, resource, mutator, format), OutputOf(ss), FirstTimestamp(ss)) && |OutputOf(ss)| == 16
  {
    var ss := ConcatMap(src, Reads);
    OutputShape(ss);
    AddedNoneOrAll(OutputOf(ss),
                   ChainedMutator([mutator, ProcessResources(resource, format(Wrap(FirstSet(ss, StartOf))))]),
                   FirstTimestamp(ss));
  }

  // ---------- Name by name ----------

  /** A millisecond is the floor of its nanoseconds. */
  lemma MillisIsFloor(ts: Timestamp)
    requires ts < TWO_63
    ensures Millis(ts) * 1_000_000 <= ts < (Millis(ts) + 1) * 1_000_000
  {
  }

  /** The quotient is finite exactly for a divisor other than zero, and then undoes a product. */
  lemma QuotientMeaning(x: real, d: int)
    ensures d == 0 ==> Quotient(x, d) == NotFinite
    ensures d != 0 ==> Quotient(x, d).Finite? && Quotient(x, d).r * d as real == x
  {
  }

  /** The datapoints from which a process is remapped. */
  datatype Source = Source(threads: seq<DataPoint>, utilization: seq<DataPoint>, usage: seq<DataPoint>,
                           virtual: seq<DataPoint>, descriptors: seq<DataPoint>,
                           cpu: seq<DataPoint>, bytes: seq<DataPoint>, operations: seq<DataPoint>)

  function SourceIn(src: seq<Metric>): Source {
    Source(FirstsOf(src, "process.threads"), FirstsOf(src, "process.memory.utilization"),
           FirstsOf(src, "process.memory.usage"), FirstsOf(src, "process.memory.virtual"),
           FirstsOf(src, "process.open_file_descriptors"), PointsOf(src, "process.cpu.time"),
           PointsOf(src, "process.disk.io"), PointsOf(src, "process.disk.operations"))
  }

  /** CPU seconds in all counted states. */
  function CpuSeconds(cpu: seq<DataPoint>): real {
    RealSum(Where(cpu, "state", "system")) + RealSum(Where(cpu, "state", "user")) + RealSum(Where(cpu, "state", "wait"))
  }

  predicate AreBasics(out: seq<Metric>, start: Timestamp, s: Source) {
    && |out| == 7
    && IsCount(out[0], "process.cpu.start_time", Millis(start))
    && IsCount(out[1], "system.process.num_threads", LatestInt(s.threads))
    && IsGauge(out[2], "system.process.memory.rss.pct", LatestReal(s.utilization) / 100.0)
    && IsCount(out[3], "system.process.memory.rss.bytes", LatestInt(s.usage))
    && IsCount(out[4], "system.process.memory.size", LatestInt(s.virtual))
    && IsCount(out[5], "system.process.fd.open", LatestInt(s.descriptors))
    && IsGauge(out[6], "process.memory.pct", LatestReal(s.utilization) / 100.0)
  }

  predicate AreCpuAndIo(out: seq<Metric>, ts: Timestamp, start: Timestamp, s: Source) {
    && |out| == 9
    && IsTime(out[0], "system.process.cpu.total.value", CpuSeconds(s.cpu) * 1000.0)
    && IsTime(out[1], "system.process.cpu.system.ticks", LatestReal(Where(s.cpu, "state", "system")) * 1000.0)
    && IsTime(out[2], "system.process.cpu.user.ticks", LatestReal(Where(s.cpu, "state", "user")) * 1000.0)
    && IsTime(out[3], "system.process.cpu.total.ticks", CpuSeconds(s.cpu) * 1000.0)
    && IsCount(out[4], "system.process.io.read_bytes", LatestInt(Where(s.bytes, "direction", "read")))
    && IsCount(out[5], "system.process.io.write_bytes", LatestInt(Where(s.bytes, "direction", "write")))
    && IsCount(out[6], "system.process.io.read_ops", LatestInt(Where(s.operations, "direction", "read")))
    && IsCount(out[7], "system.process.io.write_ops", LatestInt(Where(s.operations, "direction", "write")))
    && Holds(out[8], Gauge, "system.process.cpu.total.pct",
             DoubleNumber(Quotient(CpuSeconds(s.cpu) * 1000.0, Millis(ts) - Millis(start))))
  }

  /** The registers hold what the datapoints of their own metrics say. */
  predicate HoldsSource(r: Registers, s: Source) {
    && r.threads == LatestInt(s.threads) && r.memUsage == LatestInt(s.usage)
    && r.memVirtual == LatestInt(s.virtual) && r.fdOpen == LatestInt(s.descriptors)
    && r.readBytes == LatestInt(Where(s.bytes, "direction", "read"))
    && r.writeBytes == LatestInt(Where(s.bytes, "direction", "write"))
    && r.readOps == LatestInt(Where(s.operations, "direction", "read"))
    && r.writeOps == LatestInt(Where(s.operations, "direction", "write"))
    && r.memUtil == LatestReal(s.utilization) && r.total == CpuSeconds(s.cpu)
    && r.systemCpu == LatestReal(Where(s.cpu, "state", "system"))
    && r.userCpu == LatestReal(Where(s.cpu, "state", "user"))
  }

  lemma FirstsByName(src: seq<Metric>, metric: string)
    requires ReadOnce(metric)
    ensures LastInt(ConcatMap(src, Reads), Of(metric)) == LatestInt(FirstsOf(src, metric))
    ensures LastReal(ConcatMap(src, Reads), Of(metric)) == LatestReal(FirstsOf(src, metric))
  {
    KeptIsFirsts(src, Reads, metric);
    LastIntRegister(ConcatMap(src, Reads), Of(metric), Of(metric));
    LastRealRegister(ConcatMap(src, Reads), Of(metric), Of(metric));
  }

  lemma LastsByName(src: seq<Metric>, metric: string, key: string, v: string)
    requires ReadFully(metric) && v != ""
    ensures LastInt(ConcatMap(src, Reads), With(metric, key, v)) == LatestInt(Where(PointsOf(src, metric), key, v))
    ensures LastReal(ConcatMap(src, Reads), With(metric, key, v)) == LatestReal(Where(PointsOf(src, metric), key, v))
  {
    KeptIsWhere(src, Reads, metric, key, v);
    LastIntRegister(ConcatMap(src, Reads), With(metric, key, v), Picks(metric, key, v));
    LastRealRegister(ConcatMap(src, Reads), With(metric, key, v), Picks(metric, key, v));
  }

  /** The CPU time of a datapoint in this state. */
  function TimeIn(state: string): Sample -> real {
    (s: Sample) => if s.metric == CPU_TIME && StrOf(s.dp.attributes, "state") == state then s.dp.DoubleValue() else 0.0
  }

  lemma {:induction false} TimesByState(ss: seq<Sample>)
    ensures SumReal(ss, CpuTime()) ==
            SumReal(ss, TimeIn("system")) + SumReal(ss, TimeIn("user")) + SumReal(ss, TimeIn("wait"))
  {
    if ss != [] {
      TimesByState(ss[..|ss| - 1]);
    }
  }

  lemma TimeByName(src: seq<Metric>, state: string)
    requires state != ""
    ensures SumReal(ConcatMap(src, Reads), TimeIn(state)) == RealSum(Where(PointsOf(src, CPU_TIME), "state", state))
  {
    KeptIsWhere(src, Reads, CPU_TIME, "state", state);
    RealRegister(ConcatMap(src, Reads), TimeIn(state), Picks(CPU_TIME, "state", state));
  }

  lemma TotalByName(src: seq<Metric>)
    ensures SumReal(ConcatMap(src, Reads), CpuTime()) == CpuSeconds(PointsOf(src, CPU_TIME))
  {
    TimesByState(ConcatMap(src, Reads));
    TimeByName(src, "system");
    TimeByName(src, "user");
    TimeByName(src, "wait");
  }

  lemma RegistersByName(src: seq<Metric>)
    ensures HoldsSource(RegistersOf(ConcatMap(src, Reads)), SourceIn(src))
  {
    FirstsByName(src, THREADS);
    FirstsByName(src, MEMORY_UTILIZATION);
    FirstsByName(src, MEMORY_USAGE);
    FirstsByName(src, MEMORY_VIRTUAL);
    FirstsByName(src, FILE_DESCRIPTORS);
    LastsByName(src, DISK_IO, "direction", "read");
    LastsByName(src, DISK_IO, "direction", "write");
    LastsByName(src, DISK_OPERATIONS, "direction", "read");
    LastsByName(src, DISK_OPERATIONS, "direction", "write");
    LastsByName(src, CPU_TIME, "state", "system");
    LastsByName(src, CPU_TIME, "state", "user");
    TotalByName(src);
  }

  lemma BasicsSay(out: seq<Metric>, ts: Timestamp, start: Timestamp, r: Registers, s: Source)
    requires HoldsSource(r, s) && |out| == 7
    requires forall k :: 0 <= k < 7 ==> Says(out[k], Basics(ts, start, r)[k])
    ensures AreBasics(out, start, s)
  {
  }

  lemma CpuAndIoSay(out: seq<Metric>, ts: Timestamp, start: Timestamp, r: Registers, s: Source)
    requires HoldsSource(r, s) && |out| == 9
    requires forall k :: 0 <= k < 9 ==> Says(out[k], CpuAndIo(ts, start, r)[k])
    ensures AreCpuAndIo(out, ts, start, s)
  {
  }

  lemma SixteenSay(out: seq<Metric>, ts: Timestamp, start: Timestamp, r: Registers, s: Source)
    requires HoldsSource(r, s) && ts != 0 && NoneOrAll(out, Output(ts, start, r), ts)
    ensures |out| == 16 && AreBasics(out[..7], start, s) && AreCpuAndIo(out[7..], ts, start, s)
  {
    var basics, rest := Basics(ts, start, r), CpuAndIo(ts, start, r);
    assert |basics| == 7 && |rest| == 9 && Output(ts, start, r) == basics + rest;
    forall k | 0 <= k < 7
      ensures Says(out[..7][k], basics[k])
    {
      assert (basics + rest)[k] == basics[k];
    }
    forall k | 0 <= k < 9
      ensures Says(out[7..][k], rest[k])
    {
      assert (basics + rest)[7 + k] == rest[k];
    }
    BasicsSay(out[..7], ts, start, r, s);
    CpuAndIoSay(out[7..], ts, start, r, s);
  }

  /** Under each name what the datapoints of its own source metric and state or direction say. */
  lemma EmittedByName(src: seq<Metric>, resource: Attributes, mutator: Mutator, format: int64 -> string)
    requires Remap(src, resource, mutator, format) != []
    ensures var out, ss := Remap(src, resource, mutator, format), ConcatMap(src, Reads);
            && |out| == 16
            && AreBasics(out[..7], FirstSet(ss, StartOf), SourceIn(src))
            && AreCpuAndIo(out[7..], FirstTimestamp(ss), FirstSet(ss, StartOf), SourceIn(src))
  {
    var ss := ConcatMap(src, Reads);
    NoneOrSixteen(src, resource, mutator, format);
    RegistersByName(src);
    SixteenSay(Remap(src, resource, mutator, format), FirstTimestamp(ss), FirstSet(ss, StartOf), RegistersOf(ss),
               SourceIn(src));
  }

  /** The string under `key`, or "undefined" when it is missing, empty or no string. */
  predicate IsOrUndefined(v: Value, resource: Attributes, key: string) {
    v == if key in resource && resource[key].StrValue? && resource[key].s != "" then resource[key]
         else StrValue("undefined")
  }

  /** The attributes of a process datapoint by name. */
  predicate HasResource(a: Attributes, resource: Attributes, startTime: string) {
    && "user.name" in a && IsOrUndefined(a["user.name"], resource, "process.owner")
    && "system.process.cmdline" in a && IsOrUndefined(a["system.process.cmdline"], resource, "process.command_line")
    && "system.process.cpu.start_time" in a && a["system.process.cpu.start_time"] == StrValue(startTime)
    && "system.process.state" in a && a["system.process.state"] == StrValue("undefined")
    && IsCopied(a, "process.executable", resource, "process.executable.path")
    && IsCopied(a, "process.name", resource, "process.executable.name")
    && ("process.parent_pid" in resource && resource["process.parent_pid"].NumValue?
          && resource["process.parent_pid"].n != 0 ==>
        "process.parent.pid" in a && a["process.parent.pid"] == resource["process.parent_pid"])
  }

  /** A string of the resource that is not empty is copied. */
  predicate IsCopied(a: Attributes, key: string, resource: Attributes, from: string) {
    from in resource && resource[from].StrValue? && resource[from].s != "" ==> key in a && a[key] == resource[from]
  }

  lemma ResourcesByName(a: Attributes, resource: Attributes, startTime: string)
    ensures HasResource(ProcessResources(resource, startTime)(a), resource, startTime)
  {
    ResourcesAreStored(a, resource, startTime);
    StoredByName(ProcessResources(resource, startTime)(a), resource, startTime);
  }

  predicate AllStored(r: Attributes, puts: seq<Attribute>) {
    forall p :: p in puts ==> p.key in r && r[p.key] == p.v
  }

  lemma StoredByName(r: Attributes, resource: Attributes, startTime: string)
    requires AllStored(r, ResourceAttributes(resource, startTime))
    ensures HasResource(r, resource, startTime)
  {
    ResourcesWritten(resource, startTime);
    CopiesWritten(resource, startTime);
    var puts := ResourceAttributes(resource, startTime);
    CopyStored(r, puts, "process.executable", resource, "process.executable.path");
    CopyStored(r, puts, "process.name", resource, "process.executable.name");
  }

  lemma CopyStored(r: Attributes, puts: seq<Attribute>, key: string, resource: Attributes, from: string)
    requires AllStored(r, puts)
    requires forall p :: p in IfNamed(key, StrOf(resource, from)) ==> p in puts
    ensures IsCopied(r, key, resource, from)
  {
    assert StrOf(resource, from) != "" ==> Attribute(key, StrValue(StrOf(resource, from))) in puts;
  }

  lemma CopiesWritten(resource: Attributes, startTime: string)
    ensures forall p :: p in IfNamed("process.executable", StrOf(resource, "process.executable.path")) ==>
              p in ResourceAttributes(resource, startTime)
    ensures forall p :: p in IfNamed("process.name", StrOf(resource, "process.executable.name")) ==>
              p in ResourceAttributes(resource, startTime)
    ensures forall p :: p in IfSet("process.parent.pid", NumOf(resource, "process.parent_pid")) ==>
              p in ResourceAttributes(resource, startTime)
  {
  }

  /** Every emitted datapoint carries them, with the first start time rendered. */
  lemma EmittedResources(src: seq<Metric>, resource: Attributes, mutator: Mutator, format: int64 -> string)
    ensures forall m :: m in Remap(src, resource, mutator, format) ==>
      |m.dataPoints| == 1 &&
      HasResource(m.dataPoints[0].attributes, resource, format(Wrap(FirstSet(ConcatMap(src, Reads), StartOf))))
  {
    var ss := ConcatMap(src, Reads);
    var startTime := format(Wrap(FirstSet(ss, StartOf)));
    var marked: Attributes := map["otel_remapped" := BoolValue(true)];
    AddedAttributes(OutputOf(ss), ChainedMutator([mutator, ProcessResources(resource, startTime)]));
    ChainOfTwo(mutator, ProcessResources(resource, startTime), marked);
    ResourcesByName(mutator(marked), resource, startTime);
  }

  lemma ResourcesWritten(resource: Attributes, startTime: string)
    ensures var puts := ResourceAttributes(resource, startTime);
            && Attribute("user.name", StrValue(OrUndefined(StrOf(resource, "process.owner")))) in puts
            && Attribute("system.process.cmdline",
                         StrValue(OrUndefined(StrOf(resource, "process.command_line")))) in puts
            && Attribute("system.process.cpu.start_time", StrValue(startTime)) in puts
            && Attribute("system.process.state", StrValue("undefined")) in puts
  {
  }

  lemma OutputIsDead(src: seq<Metric>, resource: Attributes, mutator: Mutator, format: int64 -> string)
    ensures forall m :: m in Remap(src, resource, mutator, format) ==> IsNewName(m.name) && Unread(m.name)
  {
    var ss := ConcatMap(src, Reads);
    OutputShape(ss);
    AddedNames(OutputOf(ss), ChainedMutator([mutator, ProcessResources(resource, format(Wrap(FirstSet(ss, StartOf))))]),
               IsNewName);
    forall name | IsNewName(name)
      ensures Unread(name)
    {
      NewNameUnread(name);
    }
  }

  lemma ExtraIsIgnored(src: seq<Metric>, extra: seq<Metric>, resource: Attributes, mutator: Mutator,
                       format: int64 -> string)
    requires forall m :: m in extra ==> Unread(m.name)
    ensures Remap(src + extra, resource, mutator, format) == Remap(src, resource, mutator, format)
    ensures WellTyped(src) ==> WellTyped(src + extra)
  {
    ConcatMapIgnores(src, extra, Reads);
  }

  /** The input together with its own remapping is well typed and remapped like the input. */
  lemma OutputIsNotReconsumed(src: seq<Metric>, r1: Attributes, m1: Mutator, f1: int64 -> string,
                              r2: Attributes, m2: Mutator, f2: int64 -> string)
    ensures Remap(src + Remap(src, r1, m1, f1), r2, m2, f2) == Remap(src, r2, m2, f2)
    ensures WellTyped(src) ==> WellTyped(src + Remap(src, r1, m1, f1))
  {
    OutputIsDead(src, r1, m1, f1);
    ExtraIsIgnored(src, Remap(src, r1, m1, f1), r2, m2, f2);
  }

  // ---------- Labels ----------

  /** The attribute keys written from the resource. */
  predicate IsResourceKey(key: string) {
    key == "process.parent.pid" || key == "user.name" || key == "process.executable" || key == "process.name" ||
    key == "system.process.cmdline" || key == "system.process.cpu.start_time" || key == "system.process.state"
  }

  /** No attribute overwrites another: all of them end up on the datapoint. */
  lemma ResourcesAreStored(a: Attributes, resource: Attributes, startTime: string)
    ensures forall p :: p in ResourceAttributes(resource, startTime) ==>
              var r := ProcessResources(resource, startTime)(a); p.key in r && r[p.key] == p.v
  {
    var puts := ResourceAttributes(resource, startTime);
    forall p | p in puts
      ensures var r := ProcessResources(resource, startTime)(a); p.key in r && r[p.key] == p.v
    {
      var k: nat :| k < |puts| && puts[k] == p;
      DistinctKeys(resource, startTime, k);
      PutAllStores(a, puts, k);
    }
  }

  lemma DistinctKeys(resource: Attributes, startTime: string, k: nat)
    requires k < |ResourceAttributes(resource, startTime)|
    ensures var puts := ResourceAttributes(resource, startTime);
            forall j :: k < j < |puts| ==> puts[j].key != puts[k].key
  {
  }

  lemma ResourcesKeep(resource: Attributes, startTime: string, key: string)
    requires !IsResourceKey(key)
    ensures Keeps(ProcessResources(resource, startTime), key)
  {
    forall a: Attributes | key in a
      ensures var r := ProcessResources(resource, startTime)(a); key in r && r[key] == a[key]
    {
      PutAllKeeps(a, ResourceAttributes(resource, startTime), key);
    }
  }

  lemma RemapLabelled(src: seq<Metric>, resource: Attributes, mutator: Mutator, format: int64 -> string,
                      key: string, v: Value)
    requires Labels(mutator, key, v) && !IsResourceKey(key)
    ensures forall m :: m in Remap(src, resource, mutator, format) ==> Labelled(m, key, v)
  {
    var ss := ConcatMap(src, Reads);
    ResourcesKeep(resource, format(Wrap(FirstSet(ss, StartOf))), key);
    ChainAddedLabelled(OutputOf(ss), mutator, ProcessResources(resource, format(Wrap(FirstSet(ss, StartOf)))), key, v);
  }
}
