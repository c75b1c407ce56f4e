/** Process summary metrics: counts per status and in total. */
module Processes {
  import opened Int64
  import opened Sums
  import opened Pdata
  import opened Readings
  import opened RemappedMetric

  const COUNT := "system.processes.count"
  const SUMMARY_DATASET := "system.process.summary"

  function Reads(m: Metric): seq<Sample> {
    if m.name == COUNT then Points(m) else []
  }

  predicate WellTyped(src: seq<Metric>) {
    forall m :: m in src && m.name == COUNT ==> m.kind.Sum?
  }

  function Status(v: string): Sample -> bool {
    With(COUNT, "status", v)
  }

  /** Every datapoint with a status counts, whatever the status is. */
  function InTotal(): Sample -> int {
    (s: Sample) => if "status" in s.dp.attributes then s.dp.IntValue() else 0
  }

  datatype Counts = Counts(idle: int64, sleeping: int64, stopped: int64, zombie: int64, running: int64, total: int64)

  function CountsOf(ss: seq<Sample>): Counts {
    Counts(LastInt(ss, Status("idle")), LastInt(ss, Status("sleeping")), LastInt(ss, Status("stopped")),
           LastInt(ss, Status("zombies")), LastInt(ss, Status("running")), Wrap(SumInt(ss, InTotal())))
  }

  function AddStatus(c: Counts, status: string, v: int64): Counts {
    var d := c.(total := Wrap(c.total + v));
    if status == "idle" then d.(idle := v)
    else if status == "sleeping" then d.(sleeping := v)
    else if status == "stopped" then d.(stopped := v)
    else if status == "zombies" then d.(zombie := v)
    else if status == "running" then d.(running := v)
    else d
  }

  function Output(ts: Timestamp, c: Counts): seq<Remapped> {
    [OfInt(Sum, "system.process.summary.idle", ts, c.idle),
     OfInt(Sum, "system.process.summary.sleeping", ts, c.sleeping),
     OfInt(Sum, "system.process.summary.stopped", ts, c.stopped),
     OfInt(Sum, "system.process.summary.zombie", ts, c.zombie),
     OfInt(Sum, "system.process.summary.running", ts, c.running),
     OfInt(Sum, "system.process.summary.total", ts, c.total)]
  }

  function Remap(src: seq<Metric>, mutator: Mutator): seq<Metric> {
    var ss := ConcatMap(src, Reads);
    Added(Output(FirstTimestamp(ss), CountsOf(ss)),
          ChainedMutator([mutator, PutStr(EVENT_DATASET, SUMMARY_DATASET)]))
  }

  method RemapProcessesMetrics(src: MetricSlice, out: MetricSlice, mutator: Mutator)
    requires WellTyped(src.items)
    modifies out
    ensures out.items == old(out.items) + Remap(old(src.items), mutator)
  {
    var timestamp: Timestamp, c := 0, Counts(0, 0, 0, 0, 0, 0);
    ghost var done: seq<Sample> := [];
    for i := 0 to |src.items|
      invariant out.items == old(out.items) && src.items == old(src.items)
      invariant done == ConcatMap(src.items[..i], Reads)
      invariant timestamp == FirstTimestamp(done) && c == CountsOf(done)
    {
      var metric := src.items[i];
      ConcatMapPrefix(src.items, i, Reads);
      if metric.name == COUNT {
        ghost var before := done;
        for j := 0 to |metric.dataPoints|
          invariant out.items == old(out.items) && src.items == old(src.items)
          invariant done == before + Points(metric)[..j]
          invariant timestamp == FirstTimestamp(done) && c == CountsOf(done)
        {
          var dp := metric.dataPoints[j];
          ghost var s := Points(metric)[j];
          StatusRead(done, s);
          FirstTimestampSnoc(done, s);
          PointsPrefix(metric, j);
          Associative(before, Points(metric)[..j], [s]);
          if timestamp == 0 {
            timestamp := dp.timestamp;
          }
          if "status" in dp.attributes {
            c := AddStatus(c, StrOf(dp.attributes, "status"), dp.IntValue());
          }
          done := done + [s];
        }
        assert Points(metric)[..|metric.dataPoints|] == Points(metric);
      }
    }
    assert src.items[..|src.items|] == src.items;
    Add(out, ChainedMutator([mutator, PutStr(EVENT_DATASET, SUMMARY_DATASET)]), Output(timestamp, c));
  }

  lemma StatusRead(ss: seq<Sample>, s: Sample)
    requires s.metric == COUNT
    ensures CountsOf(ss + [s]) ==
            if "status" in s.dp.attributes
            then AddStatus(CountsOf(ss), StrOf(s.dp.attributes, "status"), s.dp.IntValue())
            else CountsOf(ss)
  {
    assert (ss + [s])[..|ss|] == ss;
    WrapAdd(SumInt(ss, InTotal()), InTotal()(s));
  }

  // ---------- Name by name ----------

  lemma OutputRecognised(ts: Timestamp, c: Counts)
    ensures forall k :: 0 <= k < |Output(ts, c)| ==> Recognised(Output(ts, c)[k], ts)
  {
  }

  /** Nothing or six metrics are appended, all with the first time that is set. */
  lemma NoneOrSix(src: seq<Metric>, mutator: Mutator)
    ensures var ss := ConcatMap(src, Reads);
            && NoneOrAll(Remap(src, mutator), Output(FirstTimestamp(ss), CountsOf(ss)), FirstTimestamp(ss))
            && |Output(FirstTimestamp(ss), CountsOf(ss))| == 6
  {
    var ss := ConcatMap(src, Reads);
    OutputRecognised(FirstTimestamp(ss), CountsOf(ss));
    AddedNoneOrAll(Output(FirstTimestamp(ss), CountsOf(ss)),
                   ChainedMutator([mutator, PutStr(EVENT_DATASET, SUMMARY_DATASET)]), FirstTimestamp(ss));
  }

  /** The last count in this status. */
  function LastIn(src: seq<Metric>, status: string): int64 {
    LatestInt(Where(PointsOf(src, "system.processes.count"), "status", status))
  }

  lemma LastByName(src: seq<Metric>, status: string)
    requires status != ""
    ensures LastInt(ConcatMap(src, Reads), Status(status)) == LastIn(src, status)
  {
    KeptIsWhere(src, Reads, COUNT, "status", status);
    LastIntRegister(ConcatMap(src, Reads), Status(status), Picks(COUNT, "status", status));
  }

  /** The sum of all counts that have a status at all. */
  function SumOfAll(ps: seq<DataPoint>): int {
    if ps == [] then 0
    else SumOfAll(ps[..|ps| - 1]) + if "status" in ps[|ps| - 1].attributes then IntIn(ps[|ps| - 1]) else 0
  }

  lemma {:induction false} SumOfAllConcat(a: seq<DataPoint>, b: seq<DataPoint>)
    ensures SumOfAll(a + b) == SumOfAll(a) + SumOfAll(b)
  {
    if b == [] {
      assert a + b == a;
    } else {
      var n := |b| - 1;
      assert (a + b)[..|a| + n] == a + b[..n];
      SumOfAllConcat(a, b[..n]);
    }
  }

  lemma {:induction false} TotalOfMetric(m: Metric, n: nat)
    requires n <= |m.dataPoints|
    ensures SumInt(Points(m)[..n], InTotal()) == SumOfAll(m.dataPoints[..n])
  {
    if n > 0 {
      TotalOfMetric(m, n - 1);
      assert Points(m)[..n][..n - 1] == Points(m)[..n - 1];
      assert m.dataPoints[..n][..n - 1] == m.dataPoints[..n - 1];
    }
  }

  lemma {:induction false} TotalByName(src: seq<Metric>)
    ensures SumInt(ConcatMap(src, Reads), InTotal()) == SumOfAll(PointsOf(src, "system.processes.count"))
  {
    if src != [] {
      var n := |src| - 1;
      var m := src[n];
      TotalByName(src[..n]);
      SumIntConcat(ConcatMap(src[..n], Reads), Reads(m), InTotal());
      SumOfAllConcat(PointsOf(src[..n], COUNT), if m.name == COUNT then m.dataPoints else []);
      TotalOfMetric(m, |m.dataPoints|);
      assert Points(m)[..|m.dataPoints|] == Points(m) && m.dataPoints[..|m.dataPoints|] == m.dataPoints;
    }
  }

  lemma OutputSays(out: seq<Metric>, ts: Timestamp, c: Counts)
    requires NoneOrAll(out, Output(ts, c), ts) && ts != 0
    ensures |out| == 6
    ensures IsCount(out[0], "system.process.summary.idle", c.idle)
    ensures IsCount(out[1], "system.process.summary.sleeping", c.sleeping)
    ensures IsCount(out[2], "system.process.summary.stopped", c.stopped)
    ensures IsCount(out[3], "system.process.summary.zombie", c.zombie)
    ensures IsCount(out[4], "system.process.summary.running", c.running)
    ensures IsCount(out[5], "system.process.summary.total", c.total)
  {
  }

  /** Under each name the last count of its own status, and the wrapped sum of all. */
  lemma EmittedByName(src: seq<Metric>, mutator: Mutator)
    requires Remap(src, mutator) != []
    ensures var out := Remap(src, mutator);
            && |out| == 6
            && IsCount(out[0], "system.process.summary.idle", LastIn(src, "idle"))
            && IsCount(out[1], "system.process.summary.sleeping", LastIn(src, "sleeping"))
            && IsCount(out[2], "system.process.summary.stopped", LastIn(src, "stopped"))
            && IsCount(out[3], "system.process.summary.zombie", LastIn(src, "zombies"))
            && IsCount(out[4], "system.process.summary.running", LastIn(src, "running"))
            && IsCount(out[5], "system.process.summary.total",
                       Wrap(SumOfAll(PointsOf(src, "system.processes.count"))))
  {
    var ss := ConcatMap(src, Reads);
    NoneOrSix(src, mutator);
    LastByName(src, "idle");
    LastByName(src, "sleeping");
    LastByName(src, "stopped");
    LastByName(src, "zombies");
    LastByName(src, "running");
    TotalByName(src);
    OutputSays(Remap(src, mutator), FirstTimestamp(ss), CountsOf(ss));
  }

  // ---------- Labels and own output ----------

  /** The dataset written last is the one of the summary; other labels stay. */
  lemma RemapLabelled(src: seq<Metric>, mutator: Mutator, key: string, v: Value)
    requires Labels(mutator, key, v) && (key == EVENT_DATASET ==> v == StrValue(SUMMARY_DATASET))
    ensures forall m :: m in Remap(src, mutator) ==> Labelled(m, key, v)
  {
    var ss := ConcatMap(src, Reads);
    var put := PutStr(EVENT_DATASET, SUMMARY_DATASET);
    ChainOfTwo(mutator, put, map[OTEL_REMAPPED := BoolValue(true)]);
    assert Labels(ChainedMutator([mutator, put]), key, v);
    AddedLabelled(Output(FirstTimestamp(ss), CountsOf(ss)), ChainedMutator([mutator, put]), key, v);
  }

  /** The names given are all of one group. */
  predicate IsNewName(name: string) {
    |name| > 14 && name[0] == 's' && name[7] == 'p' && name[14] == '.'
  }

  lemma SummaryNames(ts: Timestamp, c: Counts)
    ensures forall k :: 0 <= k < |Output(ts, c)| ==> IsNewName(Output(ts, c)[k].name) && Output(ts, c)[k].kind == Sum
  {
  }

  lemma OutputNames(src: seq<Metric>, mutator: Mutator)
    ensures forall m :: m in Remap(src, mutator) ==> IsNewName(m.name) && m.kind.Sum?
  {
    var ss, put := ConcatMap(src, Reads), PutStr(EVENT_DATASET, SUMMARY_DATASET);
    SummaryNames(FirstTimestamp(ss), CountsOf(ss));
    AddedNames(Output(FirstTimestamp(ss), CountsOf(ss)), ChainedMutator([mutator, put]), IsNewName);
    AddedKinds(Output(FirstTimestamp(ss), CountsOf(ss)), ChainedMutator([mutator, put]), Sum);
  }

  lemma ExtraIsIgnored(src: seq<Metric>, extra: seq<Metric>, mutator: Mutator)
    requires forall m :: m in extra ==> m.name != COUNT
    ensures Remap(src + extra, mutator) == Remap(src, mutator)
    ensures WellTyped(src) ==> WellTyped(src + extra)
  {
    ConcatMapIgnores(src, extra, Reads);
  }

  lemma OutputIsNotReconsumed(src: seq<Metric>, m1: Mutator, m2: Mutator)
    ensures Remap(src + Remap(src, m1), m2) == Remap(src, m2)
    ensures WellTyped(src) ==> WellTyped(src + Remap(src, m1))
  {
    OutputNames(src, m1);
    ExtraIsIgnored(src, Remap(src, m1), m2);
  }
}
