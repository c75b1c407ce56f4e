/** Adding remapped metrics to a slice: validation, construction and labelling. */
module RemappedMetric {
  import opened Int64
  import opened Sums
  import opened Pdata
  import opened Wrappers

  /** A mutator rewrites the attributes of a datapoint. */
  type Mutator = Attributes -> Attributes

  const OTEL_REMAPPED := "otel_remapped"
  const EVENT_DATASET := "event.dataset"
  const EVENT_MODULE := "event.module"
  const DATASTREAM_DATASET := "data_stream.dataset"

  /** A metric to be added; only the integer is used when both values are set. */
  datatype Remapped = Remapped(
    kind: MetricType,
    name: string,
    timestamp: Timestamp,
    intValue: Option<int64>,
    doubleValue: Option<Double>,
    startTimestamp: Timestamp := 0)
  {
    predicate Valid() {
      && name != ""
      && (intValue.Some? || doubleValue.Some?)
      && timestamp != 0
      && (kind.Gauge? || kind.Sum?)
    }

    function Value(): Number {
      if intValue.Some? then IntNumber(intValue.value)
      else if doubleValue.Some? then DoubleNumber(doubleValue.value)
      else NoValue
    }
  }

  function OfInt(kind: MetricType, name: string, timestamp: Timestamp, v: int64): Remapped {
    Remapped(kind, name, timestamp, Some(v), None)
  }

  function OfReal(kind: MetricType, name: string, timestamp: Timestamp, r: real): Remapped {
    Remapped(kind, name, timestamp, None, Some(Finite(r)))
  }

  /** The metric built from a valid one: one datapoint, marked as remapped before the
      mutator runs. */
  function Built(m: Remapped, mutator: Mutator): Metric {
    Metric(m.name, m.kind,
           [DataPoint(mutator(map[OTEL_REMAPPED := BoolValue(true)]), m.Value(), m.timestamp, m.startTimestamp)])
  }

  function BuiltIfValid(mutator: Mutator): Remapped -> seq<Metric> {
    (m: Remapped) => if m.Valid() then [Built(m, mutator)] else []
  }

  /** What adding `metrics` appends: the valid ones, in order. */
  function Added(metrics: seq<Remapped>, mutator: Mutator): seq<Metric> {
    ConcatMap(metrics, BuiltIfValid(mutator))
  }

  lemma AddedOne(m: Remapped, mutator: Mutator)
    ensures Added([m], mutator) == if m.Valid() then [Built(m, mutator)] else []
  {
    assert [m] == [] + [m];
    ConcatMapSnoc([], m, BuiltIfValid(mutator));
  }

  method Add(ms: MetricSlice, mutator: Mutator, metrics: seq<Remapped>)
    modifies ms
    ensures ms.items == old(ms.items) + Added(metrics, mutator)
  {
    for n := 0 to |metrics|
      invariant ms.items == old(ms.items) + Added(metrics[..n], mutator)
    {
      ConcatMapPrefix(metrics, n, BuiltIfValid(mutator));
      var metric := metrics[n];
      if !metric.Valid() {
        continue;
      }
      ghost var before := ms.items;
      var k := ms.AppendEmpty();
      ms.SetName(k, metric.name);
      ms.SetEmpty(k, metric.kind);
      var dp := ms.items[k].dataPoints[0];
      if metric.intValue.Some? {
        dp := dp.(value := IntNumber(metric.intValue.value));
      } else if metric.doubleValue.Some? {
        dp := dp.(value := DoubleNumber(metric.doubleValue.value));
      }
      dp := dp.(timestamp := metric.timestamp);
      if metric.startTimestamp != 0 {
        dp := dp.(startTimestamp := metric.startTimestamp);
      }
      dp := dp.(attributes := dp.attributes[OTEL_REMAPPED := BoolValue(true)]);
      dp := dp.(attributes := mutator(dp.attributes));
      ms.SetPoint(k, dp);
      assert ms.items == before + [Built(metric, mutator)];
    }
    assert metrics[..|metrics|] == metrics;
  }

  // ---------- Chained mutators ----------

  function ApplyAll(fs: seq<Mutator>, a: Attributes): Attributes {
    if fs == [] then a else fs[|fs| - 1](ApplyAll(fs[..|fs| - 1], a))
  }

  /** One mutator that runs several in turn. */
  function ChainedMutator(fs: seq<Mutator>): Mutator {
    (a: Attributes) => ApplyAll(fs, a)
  }

  lemma ChainOfTwo(f: Mutator, g: Mutator, a: Attributes)
    ensures ChainedMutator([f, g])(a) == g(f(a))
  {
    assert [f, g][..1] == [f] && [f][..0] == [];
    assert ApplyAll([f], a) == f(ApplyAll([], a)) == f(a);
    assert ApplyAll([f, g], a) == g(ApplyAll([f], a));
  }

  /** The loop inside a chained mutator. */
  method RunChain(fs: seq<Mutator>, a: Attributes) returns (r: Attributes)
    ensures r == ChainedMutator(fs)(a)
  {
    r := a;
    for n := 0 to |fs|
      invariant r == ApplyAll(fs[..n], a)
    {
      assert fs[..n + 1][..n] == fs[..n];
      r := fs[n](r);
    }
    assert fs[..|fs|] == fs;
  }

  function PutStr(key: string, v: string): Mutator {
    (a: Attributes) => a[key := StrValue(v)]
  }

  datatype Attribute = Attribute(key: string, v: Value)

  /** Writes the attributes one after the other. */
  function PutAll(a: Attributes, puts: seq<Attribute>): Attributes {
    if puts == [] then a
    else
      var last := puts[|puts| - 1];
      PutAll(a, puts[..|puts| - 1])[last.key := last.v]
  }

  /** `f` leaves whatever is stored under `key` alone. */
  ghost predicate Keeps(f: Mutator, key: string) {
    forall a: Attributes :: key in a ==> key in f(a) && f(a)[key] == a[key]
  }

  /** `f` always stores `v` under `key`. */
  ghost predicate Stores(f: Mutator, key: string, v: Value) {
    forall a: Attributes :: key in f(a) && f(a)[key] == v
  }

  lemma {:induction false} PutAllKeeps(a: Attributes, puts: seq<Attribute>, key: string)
    requires key in a && forall p :: p in puts ==> p.key != key
    ensures key in PutAll(a, puts) && PutAll(a, puts)[key] == a[key]
  {
    if puts != [] {
      PutAllKeeps(a, puts[..|puts| - 1], key);
    }
  }

  lemma {:induction false} PutAllStores(a: Attributes, puts: seq<Attribute>, k: nat)
    requires k < |puts| && forall j :: k < j < |puts| ==> puts[j].key != puts[k].key
    ensures puts[k].key in PutAll(a, puts) && PutAll(a, puts)[puts[k].key] == puts[k].v
  {
    if k < |puts| - 1 {
      PutAllStores(a, puts[..|puts| - 1], k);
    }
  }

  ghost predicate AllKeep(fs: seq<Mutator>, key: string) {
    fs == [] || (AllKeep(fs[..|fs| - 1], key) && Keeps(fs[|fs| - 1], key))
  }

  lemma {:induction false} ChainKeepsAt(fs: seq<Mutator>, key: string, a: Attributes)
    requires AllKeep(fs, key) && key in a
    ensures key in ApplyAll(fs, a) && ApplyAll(fs, a)[key] == a[key]
  {
    if fs != [] {
      ChainKeepsAt(fs[..|fs| - 1], key, a);
    }
  }

  lemma {:induction false} ApplyAllConcat(fs: seq<Mutator>, gs: seq<Mutator>, a: Attributes)
    ensures ApplyAll(fs + gs, a) == ApplyAll(gs, ApplyAll(fs, a))
  {
    if gs == [] {
      assert fs + gs == fs;
    } else {
      var n := |gs| - 1;
      assert (fs + gs)[..|fs| + n] == fs + gs[..n];
      ApplyAllConcat(fs, gs[..n], a);
    }
  }

  /** In a chain the last writer of a key wins. */
  lemma LastWriterWins(before: seq<Mutator>, f: Mutator, after: seq<Mutator>, key: string, v: Value)
    requires Stores(f, key, v) && AllKeep(after, key)
    ensures Stores(ChainedMutator(before + [f] + after), key, v)
  {
    forall a: Attributes
      ensures key in ApplyAll(before + [f] + after, a) && ApplyAll(before + [f] + after, a)[key] == v
    {
      ApplyAllConcat(before + [f], after, a);
      assert (before + [f])[..|before|] == before;
      ChainKeepsAt(after, key, f(ApplyAll(before, a)));
    }
  }

  lemma ChainKeeps(fs: seq<Mutator>, key: string)
    requires AllKeep(fs, key)
    ensures Keeps(ChainedMutator(fs), key)
  {
    forall a: Attributes | key in a
      ensures key in ApplyAll(fs, a) && ApplyAll(fs, a)[key] == a[key]
    {
      ChainKeepsAt(fs, key, a);
    }
  }

  // ---------- Labels ----------

  /** The metric has one datapoint, which stores `v` under `key`. */
  predicate Labelled(m: Metric, key: string, v: Value) {
    && |m.dataPoints| == 1
    && key in m.dataPoints[0].attributes
    && m.dataPoints[0].attributes[key] == v
  }

  /** The mutator leaves `v` under `key` on a datapoint that is marked as remapped. */
  predicate Labels(mutator: Mutator, key: string, v: Value) {
    var a := mutator(map[OTEL_REMAPPED := BoolValue(true)]);
    key in a && a[key] == v
  }

  /** The mutator runs on a datapoint whose only attribute is the mark. */
  lemma AddedAttributes(metrics: seq<Remapped>, mutator: Mutator)
    ensures forall m :: m in Added(metrics, mutator) ==>
      |m.dataPoints| == 1 && m.dataPoints[0].attributes == mutator(map["otel_remapped" := BoolValue(true)])
  {
    var marked: Attributes := map["otel_remapped" := BoolValue(true)];
    ConcatMapAll(metrics, BuiltIfValid(mutator), (m: Metric) =>
      |m.dataPoints| == 1 && m.dataPoints[0].attributes == mutator(marked));
  }

  lemma AddedLabelled(metrics: seq<Remapped>, mutator: Mutator, key: string, v: Value)
    requires Labels(mutator, key, v)
    ensures forall m :: m in Added(metrics, mutator) ==> Labelled(m, key, v)
  {
    ConcatMapAll(metrics, BuiltIfValid(mutator), (m: Metric) => Labelled(m, key, v));
  }

  /** A label survives a mutator chained after it that does not touch its key. */
  lemma ChainLabels(mutator: Mutator, extra: Mutator, key: string, v: Value)
    requires Labels(mutator, key, v) && Keeps(extra, key)
    ensures Labels(ChainedMutator([mutator, extra]), key, v)
  {
    ChainOfTwo(mutator, extra, map[OTEL_REMAPPED := BoolValue(true)]);
  }

  lemma ChainAddedLabelled(metrics: seq<Remapped>, mutator: Mutator, extra: Mutator, key: string, v: Value)
    requires Labels(mutator, key, v) && Keeps(extra, key)
    ensures forall m :: m in Added(metrics, ChainedMutator([mutator, extra])) ==> Labelled(m, key, v)
  {
    ChainLabels(mutator, extra, key, v);
    AddedLabelled(metrics, ChainedMutator([mutator, extra]), key, v);
  }

  /** Everything added has a name, one of the two supported kinds, one datapoint and a set time. */
  lemma AddedShape(metrics: seq<Remapped>, mutator: Mutator)
    ensures forall m :: m in Added(metrics, mutator) ==>
      m.name != "" && (m.kind.Gauge? || m.kind.Sum?) &&
      |m.dataPoints| == 1 && m.dataPoints[0].timestamp != 0
  {
    ConcatMapAll(metrics, BuiltIfValid(mutator), (m: Metric) =>
      m.name != "" && (m.kind.Gauge? || m.kind.Sum?) &&
      |m.dataPoints| == 1 && m.dataPoints[0].timestamp != 0);
  }

  /** The metric says what was to be added: name, kind, time and value. */
  predicate Says(m: Metric, r: Remapped) {
    && m.name == r.name && m.kind == r.kind
    && |m.dataPoints| == 1 && m.dataPoints[0].timestamp == r.timestamp && m.dataPoints[0].value == r.Value()
  }

  /** Everything but the time is as it takes to be valid. */
  predicate Recognised(r: Remapped, ts: Timestamp) {
    && r.timestamp == ts && r.name != "" && (r.kind.Gauge? || r.kind.Sum?)
    && (r.intValue.Some? || r.doubleValue.Some?)
  }

  /** Metrics that share a timestamp are added all together or not at all. */
  lemma {:induction false} AllOrNothing(metrics: seq<Remapped>, mutator: Mutator, ts: Timestamp)
    requires forall m :: m in metrics ==> Recognised(m, ts)
    ensures ts == 0 ==> Added(metrics, mutator) == []
    ensures ts != 0 ==> |Added(metrics, mutator)| == |metrics|
    ensures ts != 0 ==> forall k :: 0 <= k < |metrics| ==> Added(metrics, mutator)[k] == Built(metrics[k], mutator)
  {
    if metrics != [] {
      var n := |metrics| - 1;
      AllOrNothing(metrics[..n], mutator, ts);
      assert metrics[n] in metrics;
    }
  }

  /** Either no time is set and `out` is empty, or it says all of `metrics` at that time. */
  ghost predicate NoneOrAll(out: seq<Metric>, metrics: seq<Remapped>, ts: Timestamp) {
    && |out| == (if ts == 0 then 0 else |metrics|)
    && forall k :: 0 <= k < |out| ==> Says(out[k], metrics[k]) && out[k].dataPoints[0].timestamp == ts
  }

  lemma AddedNoneOrAll(metrics: seq<Remapped>, mutator: Mutator, ts: Timestamp)
    requires forall m :: m in metrics ==> Recognised(m, ts)
    ensures NoneOrAll(Added(metrics, mutator), metrics, ts)
  {
    AllOrNothing(metrics, mutator, ts);
    assert forall k :: 0 <= k < |metrics| ==> Recognised(metrics[k], ts);
  }

  /** Adding changes no kinds. */
  lemma AddedKinds(metrics: seq<Remapped>, mutator: Mutator, kind: MetricType)
    requires forall r :: r in metrics ==> r.kind == kind
    ensures forall m :: m in Added(metrics, mutator) ==> m.kind == kind
  {
    ConcatMapAll(metrics, BuiltIfValid(mutator), (m: Metric) => m.kind == kind);
  }

  /** Adding changes no names. */
  lemma AddedNames(metrics: seq<Remapped>, mutator: Mutator, p: string -> bool)
    requires forall r :: r in metrics ==> p(r.name)
    ensures forall m :: m in Added(metrics, mutator) ==> p(m.name)
  {
    ConcatMapAll(metrics, BuiltIfValid(mutator), (m: Metric) => p(m.name));
  }
}
