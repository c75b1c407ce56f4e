/** CPU metrics: utilization per state summed over all CPUs, in total and per core. */
module Cpu {
  import opened Int64
  import opened Sums
  import opened Pdata
  import opened Readings
  import opened Reals
  import opened RemappedMetric

  const COUNT := "system.cpu.logical.count"
  const UTILIZATION := "system.cpu.utilization"

  /** The datapoints that are read: the first of a count, all of a utilization. */
  function Reads(m: Metric): seq<Sample> {
    if m.name == COUNT then FirstPoint(m)
    else if m.name == UTILIZATION then Points(m)
    else []
  }

  predicate WellTyped(src: seq<Metric>) {
    forall m :: m in src ==>
      && (m.name == COUNT ==> m.kind.Sum? && m.dataPoints != [])
      && (m.name == UTILIZATION ==> m.kind.Gauge?)
  }

  function StateOf(s: Sample): string {
    if s.metric == UTILIZATION then StrOf(s.dp.attributes, "state") else ""
  }

  /** The utilization of a datapoint in this state, zero for other datapoints. */
  function In(state: string): Sample -> real {
    (s: Sample) => if StateOf(s) == state then s.dp.DoubleValue() else 0.0
  }

  /** The seven states that are not idle. */
  predicate IsBusy(state: string) {
    state == "system" || state == "user" || state == "steal" || state == "wait" ||
    state == "nice" || state == "interrupt" || state == "softirq"
  }

  /** The utilization of a datapoint in a busy state. */
  function Busy(): Sample -> real {
    (s: Sample) => if IsBusy(StateOf(s)) then s.dp.DoubleValue() else 0.0
  }

  /** The last logical count read, zero if there is none. */
  function Cores(ss: seq<Sample>): int64 {
    LastInt(ss, Of(COUNT))
  }

  /** The totals over all datapoints read. */
  datatype Totals = Totals(total: real, idle: real, system: real, user: real, steal: real,
                           iowait: real, nice: real, irq: real, softirq: real)

  function TotalsOf(ss: seq<Sample>): Totals {
    Totals(SumReal(ss, Busy()), SumReal(ss, In("idle")), SumReal(ss, In("system")), SumReal(ss, In("user")),
           SumReal(ss, In("steal")), SumReal(ss, In("wait")), SumReal(ss, In("nice")),
           SumReal(ss, In("interrupt")), SumReal(ss, In("softirq")))
  }

  function Percents(ts: Timestamp, t: Totals): seq<Remapped> {
    [OfReal(Gauge, "system.cpu.total.pct", ts, t.total),
     OfReal(Gauge, "system.cpu.idle.pct", ts, t.idle),
     OfReal(Gauge, "system.cpu.system.pct", ts, t.system),
     OfReal(Gauge, "system.cpu.user.pct", ts, t.user),
     OfReal(Gauge, "system.cpu.steal.pct", ts, t.steal),
     OfReal(Gauge, "system.cpu.iowait.pct", ts, t.iowait),
     OfReal(Gauge, "system.cpu.nice.pct", ts, t.nice),
     OfReal(Gauge, "system.cpu.irq.pct", ts, t.irq),
     OfReal(Gauge, "system.cpu.softirq.pct", ts, t.softirq)]
  }

  function PerCore(ts: Timestamp, cores: int64, t: Totals): seq<Remapped>
    requires cores != 0
  {
    Counts(ts, cores) + Normalised(ts, cores, t)
  }

  function Counts(ts: Timestamp, cores: int64): seq<Remapped> {
    [OfInt(Sum, "system.cpu.cores", ts, cores),
     OfInt(Sum, "system.load.cores", ts, cores)]
  }

  function Normalised(ts: Timestamp, cores: int64, t: Totals): seq<Remapped>
    requires cores != 0
  {
    var n := cores as real;
    [OfReal(Gauge, "system.cpu.total.norm.pct", ts, t.total / n),
     OfReal(Gauge, "system.cpu.idle.norm.pct", ts, t.idle / n),
     OfReal(Gauge, "system.cpu.system.norm.pct", ts, t.system / n),
     OfReal(Gauge, "system.cpu.user.norm.pct", ts, t.user / n),
     OfReal(Gauge, "system.cpu.steal.norm.pct", ts, t.steal / n),
     OfReal(Gauge, "system.cpu.iowait.norm.pct", ts, t.iowait / n),
     OfReal(Gauge, "system.cpu.nice.norm.pct", ts, t.nice / n),
     OfReal(Gauge, "system.cpu.irq.norm.pct", ts, t.irq / n),
     OfReal(Gauge, "system.cpu.softirq.norm.pct", ts, t.softirq / n)]
  }

  /** What the datapoints read are remapped to; the per-core metrics only with a count. */
  function Output(ss: seq<Sample>): seq<Remapped> {
    var ts, t, cores := FirstTimestamp(ss), TotalsOf(ss), Cores(ss);
    Percents(ts, t) + if cores == 0 then [] else PerCore(ts, cores, t)
  }

  function Remap(src: seq<Metric>, mutator: Mutator): seq<Metric> {
    Added(Output(ConcatMap(src, Reads)), mutator)
  }

  method RemapCPUMetrics(src: MetricSlice, out: MetricSlice, mutator: Mutator)
    requires WellTyped(src.items)
    modifies out
    ensures out.items == old(out.items) + Remap(old(src.items), mutator)
  {
    var timestamp, numCores, t := ReadCPUMetrics(src);
    ghost var done := ConcatMap(src.items, Reads);
    Add(out, mutator, Percents(timestamp, t));
    if numCores == 0 {
      assert Output(done) == Percents(timestamp, t);
      return;
    }
    Add(out, mutator, PerCore(timestamp, numCores, t));
    ConcatMapConcat(Percents(timestamp, t), PerCore(timestamp, numCores, t), BuiltIfValid(mutator));
    Associative(old(out.items), Added(Percents(timestamp, t), mutator),
                Added(PerCore(timestamp, numCores, t), mutator));
  }

  /** The scan over all metrics of the slice. */
  method ReadCPUMetrics(src: MetricSlice) returns (timestamp: Timestamp, numCores: int64, t: Totals)
    requires WellTyped(src.items)
    ensures timestamp == FirstTimestamp(ConcatMap(src.items, Reads))
    ensures numCores == Cores(ConcatMap(src.items, Reads))
    ensures t == TotalsOf(ConcatMap(src.items, Reads))
  {
    timestamp, numCores := 0, 0;
    t := Totals(0.0, 0.0, 0.0, 0.0, 0.0, 0.0, 0.0, 0.0, 0.0);
    ghost var done: seq<Sample> := [];
    for i := 0 to |src.items|
      invariant done == ConcatMap(src.items[..i], Reads)
      invariant timestamp == FirstTimestamp(done) && numCores == Cores(done) && t == TotalsOf(done)
    {
      var metric := src.items[i];
      ConcatMapPrefix(src.items, i, Reads);
      ghost var before := done;
      if metric.name == COUNT {
        var dp := metric.dataPoints[0];
        if timestamp == 0 {
          timestamp := dp.timestamp;
        }
        numCores := dp.IntValue();
        CountRead(done, Sample(metric.name, dp));
        done := done + [Sample(metric.name, dp)];
      } else if metric.name == UTILIZATION {
        for j := 0 to |metric.dataPoints|
          invariant done == before + Points(metric)[..j]
          invariant timestamp == FirstTimestamp(done) && numCores == Cores(done) && t == TotalsOf(done)
        {
          var dp := metric.dataPoints[j];
          ghost var s := Points(metric)[j];
          if timestamp == 0 {
            timestamp := dp.timestamp;
          }
          UtilizationRead(done, s);
          t := AddUtilization(t, StrOf(dp.attributes, "state"), dp.DoubleValue());
          PointsPrefix(metric, j);
          Associative(before, Points(metric)[..j], [s]);
          done := done + [s];
        }
        assert Points(metric)[..|metric.dataPoints|] == Points(metric);
      }
    }
    assert src.items[..|src.items|] == src.items;
  }

  /** The switch over states: one component and, unless idle, the total. */
  function AddUtilization(t: Totals, state: string, value: real): Totals {
    if state == "idle" then t.(idle := t.idle + value)
    else if state == "system" then t.(system := t.system + value, total := t.total + value)
    else if state == "user" then t.(user := t.user + value, total := t.total + value)
    else if state == "steal" then t.(steal := t.steal + value, total := t.total + value)
    else if state == "wait" then t.(iowait := t.iowait + value, total := t.total + value)
    else if state == "nice" then t.(nice := t.nice + value, total := t.total + value)
    else if state == "interrupt" then t.(irq := t.irq + value, total := t.total + value)
    else if state == "softirq" then t.(softirq := t.softirq + value, total := t.total + value)
    else t
  }

  lemma TotalsSnoc(ss: seq<Sample>, s: Sample)
    ensures var t := TotalsOf(ss);
            TotalsOf(ss + [s]) ==
              Totals(t.total + Busy()(s), t.idle + In("idle")(s), t.system + In("system")(s),
                     t.user + In("user")(s), t.steal + In("steal")(s), t.iowait + In("wait")(s),
                     t.nice + In("nice")(s), t.irq + In("interrupt")(s), t.softirq + In("softirq")(s))
  {
    assert (ss + [s])[..|ss|] == ss;
  }

  lemma CountRead(ss: seq<Sample>, s: Sample)
    requires s.metric == COUNT
    ensures TotalsOf(ss + [s]) == TotalsOf(ss)
    ensures Cores(ss + [s]) == s.dp.IntValue()
    ensures FirstTimestamp(ss + [s]) == if FirstTimestamp(ss) == 0 then s.dp.timestamp else FirstTimestamp(ss)
  {
    TotalsSnoc(ss, s);
    FirstTimestampSnoc(ss, s);
    assert (ss + [s])[..|ss|] == ss;
  }

  lemma UtilizationRead(ss: seq<Sample>, s: Sample)
    requires s.metric == UTILIZATION
    ensures TotalsOf(ss + [s]) ==
            AddUtilization(TotalsOf(ss), StrOf(s.dp.attributes, "state"), s.dp.DoubleValue())
    ensures Cores(ss + [s]) == Cores(ss)
    ensures FirstTimestamp(ss + [s]) == if FirstTimestamp(ss) == 0 then s.dp.timestamp else FirstTimestamp(ss)
  {
    TotalsSnoc(ss, s);
    FirstTimestampSnoc(ss, s);
    assert (ss + [s])[..|ss|] == ss;
  }

  // ---------- Conservation ----------

  /** The total is the sum of the seven busy components, whatever the datapoints. */
  lemma {:induction false} TotalIsSumOfComponents(ss: seq<Sample>)
    ensures var t := TotalsOf(ss);
            t.total == t.system + t.user + t.steal + t.iowait + t.nice + t.irq + t.softirq
  {
    if ss != [] {
      var n := |ss| - 1;
      assert ss == ss[..n] + [ss[n]];
      TotalIsSumOfComponents(ss[..n]);
      TotalsSnoc(ss[..n], ss[n]);
    }
  }

  /** The utilization of a datapoint in any of the eight known states. */
  function Counted(): Sample -> real {
    (s: Sample) => if IsBusy(StateOf(s)) || StateOf(s) == "idle" then s.dp.DoubleValue() else 0.0
  }

  function CpuOf(s: Sample): string {
    StrOf(s.dp.attributes, "cpu")
  }

  /** Each of these CPUs has fractions that add up to one over the known states, and no
      other CPU is reported. */
  ghost predicate CoversCpus(ss: seq<Sample>, cpus: seq<string>) {
    && Distinct(cpus)
    && (forall s :: s in ss && Counted()(s) != 0.0 ==> CpuOf(s) in cpus)
    && (forall c :: c in cpus ==> GroupSumReal(ss, Counted(), CpuOf)(c) == 1.0)
  }

  /** Total and idle add up to the number of CPUs, although no code looks at the CPU of a
      datapoint. */
  lemma TotalPlusIdleIsCpus(ss: seq<Sample>, cpus: seq<string>)
    requires CoversCpus(ss, cpus)
    ensures TotalsOf(ss).total + TotalsOf(ss).idle == |cpus| as real
  {
    SumRealAdd(ss, Busy(), In("idle"), Counted());
    RegroupReal(ss, Counted(), CpuOf, cpus);
    SumRealOnes(cpus, GroupSumReal(ss, Counted(), CpuOf));
  }

  lemma OutputRecognised(ss: seq<Sample>)
    ensures forall r :: r in Output(ss) ==> Recognised(r, FirstTimestamp(ss)) && Unread(r.name)
  {
    var ts, t, cores := FirstTimestamp(ss), TotalsOf(ss), Cores(ss);
    PercentsRecognised(ts, t);
    if cores != 0 {
      PerCoreRecognised(ts, cores, t);
    }
  }

  /** A name that the scan does not read. */
  predicate Unread(name: string) {
    name != COUNT && name != UTILIZATION
  }

  lemma PercentsRecognised(ts: Timestamp, t: Totals)
    ensures forall k :: 0 <= k < |Percents(ts, t)| ==>
      Recognised(Percents(ts, t)[k], ts) && Unread(Percents(ts, t)[k].name)
  {
  }

  lemma PerCoreRecognised(ts: Timestamp, cores: int64, t: Totals)
    requires cores != 0
    ensures forall r :: r in PerCore(ts, cores, t) ==> Recognised(r, ts) && Unread(r.name)
  {
    CountsRecognised(ts, cores);
    NormalisedRecognised(ts, cores, t);
  }

  lemma CountsRecognised(ts: Timestamp, cores: int64)
    ensures forall k :: 0 <= k < |Counts(ts, cores)| ==>
      Recognised(Counts(ts, cores)[k], ts) && Unread(Counts(ts, cores)[k].name)
  {
  }

  lemma NormalisedRecognised(ts: Timestamp, cores: int64, t: Totals)
    requires cores != 0
    ensures forall k :: 0 <= k < |Normalised(ts, cores, t)| ==>
      Recognised(Normalised(ts, cores, t)[k], ts) && Unread(Normalised(ts, cores, t)[k].name)
  {
  }

  /** Nothing, nine or twenty metrics are appended, all with the first time that is set. */
  lemma NoneNineOrTwenty(src: seq<Metric>, mutator: Mutator)
    ensures var ss := ConcatMap(src, Reads);
            && NoneOrAll(Remap(src, mutator), Output(ss), FirstTimestamp(ss))
            && |Output(ss)| == if Cores(ss) == 0 then 9 else 20
  {
    var ss := ConcatMap(src, Reads);
    OutputRecognised(ss);
    AddedNoneOrAll(Output(ss), mutator, FirstTimestamp(ss));
  }

  lemma EmittedPercents(src: seq<Metric>, mutator: Mutator)
    requires FirstTimestamp(ConcatMap(src, Reads)) != 0
    ensures var percents := Percents(FirstTimestamp(ConcatMap(src, Reads)), TotalsOf(ConcatMap(src, Reads)));
            |percents| <= |Remap(src, mutator)| &&
            forall k :: 0 <= k < |percents| ==> Says(Remap(src, mutator)[k], percents[k])
  {
    NoneNineOrTwenty(src, mutator);
  }

  /** Read off the output: the emitted total is the sum of the seven emitted busy parts. */
  lemma EmittedTotal(src: seq<Metric>, mutator: Mutator)
    requires FirstTimestamp(ConcatMap(src, Reads)) != 0
    ensures var out := Remap(src, mutator);
            |out| >= 9 && out[0].name == "system.cpu.total.pct" &&
            RealAt(out, 0) == RealAt(out, 2) + RealAt(out, 3) + RealAt(out, 4) + RealAt(out, 5) +
                              RealAt(out, 6) + RealAt(out, 7) + RealAt(out, 8)
  {
    EmittedPercents(src, mutator);
    TotalIsSumOfComponents(ConcatMap(src, Reads));
  }

  /** With a logical count equal to the number of CPUs the emitted normalised total and idle
      add up to one. */
  lemma EmittedNormalisedTotal(src: seq<Metric>, mutator: Mutator, cpus: seq<string>)
    requires FirstTimestamp(ConcatMap(src, Reads)) != 0
    requires CoversCpus(ConcatMap(src, Reads), cpus)
    requires Cores(ConcatMap(src, Reads)) == |cpus| && cpus != []
    ensures var out := Remap(src, mutator);
            |out| == 20 && out[11].name == "system.cpu.total.norm.pct" && out[12].name == "system.cpu.idle.norm.pct" &&
            RealAt(out, 11) + RealAt(out, 12) == 1.0
  {
    var ss := ConcatMap(src, Reads);
    EmittedNormalised(src, mutator);
    TotalPlusIdleIsCpus(ss, cpus);
    SharesOfOne(TotalsOf(ss).total, TotalsOf(ss).idle, Cores(ss) as real);
  }

  lemma EmittedNormalised(src: seq<Metric>, mutator: Mutator)
    requires FirstTimestamp(ConcatMap(src, Reads)) != 0 && Cores(ConcatMap(src, Reads)) != 0
    ensures var out, ss := Remap(src, mutator), ConcatMap(src, Reads);
            && |out| == 20
            && out[11].name == "system.cpu.total.norm.pct" && out[12].name == "system.cpu.idle.norm.pct"
            && RealAt(out, 11) == TotalsOf(ss).total / Cores(ss) as real
            && RealAt(out, 12) == TotalsOf(ss).idle / Cores(ss) as real
  {
    var ss := ConcatMap(src, Reads);
    NoneNineOrTwenty(src, mutator);
    NormalisedAt(FirstTimestamp(ss), Cores(ss), TotalsOf(ss));
    var normalised := Normalised(FirstTimestamp(ss), Cores(ss), TotalsOf(ss));
    var out := Remap(src, mutator);
    assert Says(out[11], normalised[0]) && Says(out[12], normalised[1]);
  }

  lemma NormalisedAt(ts: Timestamp, cores: int64, t: Totals)
    requires cores != 0
    ensures var out := Normalised(ts, cores, t);
            && |out| == 9
            && out[0] == OfReal(Gauge, "system.cpu.total.norm.pct", ts, t.total / cores as real)
            && out[1] == OfReal(Gauge, "system.cpu.idle.norm.pct", ts, t.idle / cores as real)
  {
  }

  // ---------- Name by name ----------

  /** The sum of all utilizations in this state. */
  function Share(src: seq<Metric>, state: string): real {
    RealSum(Where(PointsOf(src, "system.cpu.utilization"), "state", state))
  }

  /** The sum of all utilizations in a busy state. */
  function BusyShare(src: seq<Metric>): real {
    Share(src, "system") + Share(src, "user") + Share(src, "steal") + Share(src, "wait") +
    Share(src, "nice") + Share(src, "interrupt") + Share(src, "softirq")
  }

  /** The last logical count. */
  function LogicalCount(src: seq<Metric>): int64 {
    LatestInt(FirstsOf(src, "system.cpu.logical.count"))
  }

  lemma InByName(src: seq<Metric>, state: string)
    requires state != ""
    ensures SumReal(ConcatMap(src, Reads), In(state)) == Share(src, state)
  {
    KeptIsWhere(src, Reads, UTILIZATION, "state", state);
    RealRegister(ConcatMap(src, Reads), In(state), Picks(UTILIZATION, "state", state));
  }

  lemma TotalsByName(src: seq<Metric>)
    ensures TotalsOf(ConcatMap(src, Reads)) ==
            Totals(BusyShare(src), Share(src, "idle"), Share(src, "system"), Share(src, "user"), Share(src, "steal"),
                   Share(src, "wait"), Share(src, "nice"), Share(src, "interrupt"), Share(src, "softirq"))
  {
    TotalIsSumOfComponents(ConcatMap(src, Reads));
    InByName(src, "idle");
    InByName(src, "system");
    InByName(src, "user");
    InByName(src, "steal");
    InByName(src, "wait");
    InByName(src, "nice");
    InByName(src, "interrupt");
    InByName(src, "softirq");
  }

  lemma CoresByName(src: seq<Metric>)
    ensures Cores(ConcatMap(src, Reads)) == LogicalCount(src)
  {
    KeptIsFirsts(src, Reads, COUNT);
    LastIntRegister(ConcatMap(src, Reads), Of(COUNT), Of(COUNT));
  }

  lemma PercentsSay(out: seq<Metric>, ts: Timestamp, t: Totals)
    requires 9 <= |out| && forall k :: 0 <= k < 9 ==> Says(out[k], Percents(ts, t)[k])
    ensures IsGauge(out[0], "system.cpu.total.pct", t.total) && IsGauge(out[1], "system.cpu.idle.pct", t.idle)
    ensures IsGauge(out[2], "system.cpu.system.pct", t.system) && IsGauge(out[3], "system.cpu.user.pct", t.user)
    ensures IsGauge(out[4], "system.cpu.steal.pct", t.steal) && IsGauge(out[5], "system.cpu.iowait.pct", t.iowait)
    ensures IsGauge(out[6], "system.cpu.nice.pct", t.nice) && IsGauge(out[7], "system.cpu.irq.pct", t.irq)
    ensures IsGauge(out[8], "system.cpu.softirq.pct", t.softirq)
  {
  }

  /** Under each name the sum of the utilizations of its own state. */
  lemma PercentsByName(src: seq<Metric>, mutator: Mutator)
    requires Remap(src, mutator) != []
    ensures var out := Remap(src, mutator);
            && 9 <= |out|
            && IsGauge(out[0], "system.cpu.total.pct", BusyShare(src))
            && IsGauge(out[1], "system.cpu.idle.pct", Share(src, "idle"))
            && IsGauge(out[2], "system.cpu.system.pct", Share(src, "system"))
            && IsGauge(out[3], "system.cpu.user.pct", Share(src, "user"))
            && IsGauge(out[4], "system.cpu.steal.pct", Share(src, "steal"))
            && IsGauge(out[5], "system.cpu.iowait.pct", Share(src, "wait"))
            && IsGauge(out[6], "system.cpu.nice.pct", Share(src, "nice"))
            && IsGauge(out[7], "system.cpu.irq.pct", Share(src, "interrupt"))
            && IsGauge(out[8], "system.cpu.softirq.pct", Share(src, "softirq"))
  {
    var ss := ConcatMap(src, Reads);
    NoneNineOrTwenty(src, mutator);
    EmittedPercents(src, mutator);
    TotalsByName(src);
    PercentsSay(Remap(src, mutator), FirstTimestamp(ss), TotalsOf(ss));
  }

  lemma NormalisedSay(out: seq<Metric>, ts: Timestamp, cores: int64, t: Totals)
    requires cores != 0 && |out| == 9 && forall k :: 0 <= k < 9 ==> Says(out[k], Normalised(ts, cores, t)[k])
    ensures IsGauge(out[0], "system.cpu.total.norm.pct", t.total / cores as real)
    ensures IsGauge(out[1], "system.cpu.idle.norm.pct", t.idle / cores as real)
    ensures IsGauge(out[2], "system.cpu.system.norm.pct", t.system / cores as real)
    ensures IsGauge(out[3], "system.cpu.user.norm.pct", t.user / cores as real)
    ensures IsGauge(out[4], "system.cpu.steal.norm.pct", t.steal / cores as real)
    ensures IsGauge(out[5], "system.cpu.iowait.norm.pct", t.iowait / cores as real)
    ensures IsGauge(out[6], "system.cpu.nice.norm.pct", t.nice / cores as real)
    ensures IsGauge(out[7], "system.cpu.irq.norm.pct", t.irq / cores as real)
    ensures IsGauge(out[8], "system.cpu.softirq.norm.pct", t.softirq / cores as real)
  {
  }

  /** With a logical count, the same divided by it; without one, nothing more. */
  lemma NormalisedByName(src: seq<Metric>, mutator: Mutator)
    requires Remap(src, mutator) != []
    ensures LogicalCount(src) == 0 ==> |Remap(src, mutator)| == 9
    ensures LogicalCount(src) != 0 ==>
      var out, n := Remap(src, mutator), LogicalCount(src) as real;
      && |out| == 20
      && IsCount(out[9], "system.cpu.cores", LogicalCount(src))
      && IsCount(out[10], "system.load.cores", LogicalCount(src))
      && IsGauge(out[11], "system.cpu.total.norm.pct", BusyShare(src) / n)
      && IsGauge(out[12], "system.cpu.idle.norm.pct", Share(src, "idle") / n)
      && IsGauge(out[13], "system.cpu.system.norm.pct", Share(src, "system") / n)
      && IsGauge(out[14], "system.cpu.user.norm.pct", Share(src, "user") / n)
      && IsGauge(out[15], "system.cpu.steal.norm.pct", Share(src, "steal") / n)
      && IsGauge(out[16], "system.cpu.iowait.norm.pct", Share(src, "wait") / n)
      && IsGauge(out[17], "system.cpu.nice.norm.pct", Share(src, "nice") / n)
      && IsGauge(out[18], "system.cpu.irq.norm.pct", Share(src, "interrupt") / n)
      && IsGauge(out[19], "system.cpu.softirq.norm.pct", Share(src, "softirq") / n)
  {
    var ss, out := ConcatMap(src, Reads), Remap(src, mutator);
    NoneNineOrTwenty(src, mutator);
    CoresByName(src);
    TotalsByName(src);
    if Cores(ss) != 0 {
      PerCoreSays(out, FirstTimestamp(ss), Cores(ss), TotalsOf(ss));
      NormalisedSay(out[11..], FirstTimestamp(ss), Cores(ss), TotalsOf(ss));
    }
  }

  lemma PerCoreSays(out: seq<Metric>, ts: Timestamp, cores: int64, t: Totals)
    requires cores != 0 && ts != 0 && NoneOrAll(out, Percents(ts, t) + PerCore(ts, cores, t), ts)
    ensures |out| == 20
    ensures IsCount(out[9], "system.cpu.cores", cores) && IsCount(out[10], "system.load.cores", cores)
    ensures forall k :: 0 <= k < 9 ==> Says(out[11..][k], Normalised(ts, cores, t)[k])
  {
    var plan, normalised := Percents(ts, t) + PerCore(ts, cores, t), Normalised(ts, cores, t);
    forall k | 0 <= k < 9
      ensures Says(out[11..][k], normalised[k])
    {
      assert plan[11 + k] == normalised[k];
    }
    assert plan[9] == Counts(ts, cores)[0] && plan[10] == Counts(ts, cores)[1];
  }

  // ---------- Own output is never remapped again ----------

  lemma OutputIsDead(src: seq<Metric>, mutator: Mutator)
    ensures forall m :: m in Remap(src, mutator) ==> Unread(m.name)
  {
    OutputRecognised(ConcatMap(src, Reads));
    AddedNames(Output(ConcatMap(src, Reads)), mutator, Unread);
  }

  lemma ExtraIsIgnored(src: seq<Metric>, extra: seq<Metric>, mutator: Mutator)
    requires forall m :: m in extra ==> Unread(m.name)
    ensures Remap(src + extra, mutator) == Remap(src, mutator)
    ensures WellTyped(src) ==> WellTyped(src + extra)
  {
    ConcatMapIgnores(src, extra, Reads);
  }

  /** The input together with its own remapping is well typed and remapped like the input. */
  lemma OutputIsNotReconsumed(src: seq<Metric>, m1: Mutator, m2: Mutator)
    ensures Remap(src + Remap(src, m1), m2) == Remap(src, m2)
    ensures WellTyped(src) ==> WellTyped(src + Remap(src, m1))
  {
    OutputIsDead(src, m1);
    ExtraIsIgnored(src, Remap(src, m1), m2);
  }
}
