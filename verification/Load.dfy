/** Load metrics: the last three load averages read. */
module Load {
  import opened Sums
  import opened Pdata
  import opened Readings
  import opened RemappedMetric

  const LOAD_1 := "system.cpu.load_average.1m"
  const LOAD_5 := "system.cpu.load_average.5m"
  const LOAD_15 := "system.cpu.load_average.15m"

  predicate Known(name: string) {
    name == LOAD_1 || name == LOAD_5 || name == LOAD_15
  }

  function Reads(m: Metric): seq<Sample> {
    if Known(m.name) then FirstPoint(m) else []
  }

  predicate WellTyped(src: seq<Metric>) {
    forall m :: m in src && Known(m.name) ==> m.kind.Gauge? && m.dataPoints != []
  }

  function Output(ts: Timestamp, l1: real, l5: real, l15: real): seq<Remapped> {
    [OfReal(Gauge, "system.load.1", ts, l1),
     OfReal(Gauge, "system.load.5", ts, l5),
     OfReal(Gauge, "system.load.15", ts, l15)]
  }

  function OutputOf(ss: seq<Sample>): seq<Remapped> {
    Output(FirstTimestamp(ss), LastReal(ss, Of(LOAD_1)), LastReal(ss, Of(LOAD_5)), LastReal(ss, Of(LOAD_15)))
  }

  function Remap(src: seq<Metric>, mutator: Mutator): seq<Metric> {
    Added(OutputOf(ConcatMap(src, Reads)), mutator)
  }

  method RemapLoadMetrics(src: MetricSlice, out: MetricSlice, mutator: Mutator)
    requires WellTyped(src.items)
    modifies out
    ensures out.items == old(out.items) + Remap(old(src.items), mutator)
  {
    var timestamp: Timestamp, l1, l5, l15 := 0, 0.0, 0.0, 0.0;
    ghost var done: seq<Sample> := [];
    for i := 0 to |src.items|
      invariant out.items == old(out.items) && src.items == old(src.items)
      invariant done == ConcatMap(src.items[..i], Reads)
      invariant timestamp == FirstTimestamp(done)
      invariant l1 == LastReal(done, Of(LOAD_1)) && l5 == LastReal(done, Of(LOAD_5))
      invariant l15 == LastReal(done, Of(LOAD_15))
    {
      var metric := src.items[i];
      ConcatMapPrefix(src.items, i, Reads);
      if Known(metric.name) {
        var dp := metric.dataPoints[0];
        ghost var s := Sample(metric.name, dp);
        FirstTimestampSnoc(done, s);
        assert (done + [s])[..|done|] == done;
        if timestamp == 0 {
          timestamp := dp.timestamp;
        }
        if metric.name == LOAD_1 {
          l1 := dp.DoubleValue();
        } else if metric.name == LOAD_5 {
          l5 := dp.DoubleValue();
        } else {
          l15 := dp.DoubleValue();
        }
        done := done + [s];
      }
    }
    assert src.items[..|src.items|] == src.items;
    Add(out, mutator, Output(timestamp, l1, l5, l15));
  }

  // ---------- Name by name ----------

  lemma OutputRecognised(ss: seq<Sample>)
    ensures forall k :: 0 <= k < |OutputOf(ss)| ==> Recognised(OutputOf(ss)[k], FirstTimestamp(ss))
  {
  }

  /** Nothing or three metrics are appended, all with the first time that is set. */
  lemma NoneOrThree(src: seq<Metric>, mutator: Mutator)
    ensures var ss := ConcatMap(src, Reads);
            NoneOrAll(Remap(src, mutator), OutputOf(ss), FirstTimestamp(ss)) && |OutputOf(ss)| == 3
  {
    OutputRecognised(ConcatMap(src, Reads));
    AddedNoneOrAll(OutputOf(ConcatMap(src, Reads)), mutator, FirstTimestamp(ConcatMap(src, Reads)));
  }

  lemma LastByName(src: seq<Metric>, metric: string)
    requires Known(metric)
    ensures LastReal(ConcatMap(src, Reads), Of(metric)) == LatestReal(FirstsOf(src, metric))
  {
    KeptIsFirsts(src, Reads, metric);
    LastRealRegister(ConcatMap(src, Reads), Of(metric), Of(metric));
  }

  lemma OutputSays(out: seq<Metric>, ts: Timestamp, l1: real, l5: real, l15: real)
    requires NoneOrAll(out, Output(ts, l1, l5, l15), ts) && ts != 0
    ensures |out| == 3
    ensures IsGauge(out[0], "system.load.1", l1) && IsGauge(out[1], "system.load.5", l5)
    ensures IsGauge(out[2], "system.load.15", l15)
  {
  }

  /** Under each name the last average over its own period. */
  lemma EmittedByName(src: seq<Metric>, mutator: Mutator)
    requires Remap(src, mutator) != []
    ensures var out := Remap(src, mutator);
            && |out| == 3
            && IsGauge(out[0], "system.load.1", LatestReal(FirstsOf(src, "system.cpu.load_average.1m")))
            && IsGauge(out[1], "system.load.5", LatestReal(FirstsOf(src, "system.cpu.load_average.5m")))
            && IsGauge(out[2], "system.load.15", LatestReal(FirstsOf(src, "system.cpu.load_average.15m")))
  {
    var ss := ConcatMap(src, Reads);
    NoneOrThree(src, mutator);
    LastByName(src, LOAD_1);
    LastByName(src, LOAD_5);
    LastByName(src, LOAD_15);
    OutputSays(Remap(src, mutator), FirstTimestamp(ss), LastReal(ss, Of(LOAD_1)), LastReal(ss, Of(LOAD_5)),
               LastReal(ss, Of(LOAD_15)));
  }

  // ---------- Labels and own output ----------

  lemma RemapLabelled(src: seq<Metric>, mutator: Mutator, key: string, v: Value)
    requires Labels(mutator, key, v)
    ensures forall m :: m in Remap(src, mutator) ==> Labelled(m, key, v)
  {
    AddedLabelled(OutputOf(ConcatMap(src, Reads)), mutator, key, v);
  }

  predicate IsNewName(name: string) {
    name == "system.load.1" || name == "system.load.5" || name == "system.load.15"
  }

  lemma OutputNames(src: seq<Metric>, mutator: Mutator)
    ensures forall m :: m in Remap(src, mutator) ==> IsNewName(m.name)
  {
    AddedNames(OutputOf(ConcatMap(src, Reads)), mutator, IsNewName);
  }

  lemma ExtraIsIgnored(src: seq<Metric>, extra: seq<Metric>, mutator: Mutator)
    requires forall m :: m in extra ==> !Known(m.name)
    ensures Remap(src + extra, mutator) == Remap(src, mutator)
    ensures WellTyped(src) ==> WellTyped(src + extra)
  {
    ConcatMapIgnores(src, extra, Reads);
  }

  lemma OutputIsNotReconsumed(src: seq<Metric>, m1: Mutator, m2: Mutator)
    ensures Remap(src + Remap(src, m1), m2) == Remap(src, m2)
    ensures WellTyped(src) ==> WellTyped(src + Remap(src, m1))
  {
    OutputNames(src, m1);
    ExtraIsIgnored(src, Remap(src, m1), m2);
  }
}
