/** Network metrics: one output per datapoint of a known metric and direction. */
module Network {
  import opened Int64
  import opened Sums
  import opened Pdata
  import opened Readings
  import opened RemappedMetric

  /** The last part of the new name; none for metrics that are not remapped. */
  function Suffix(name: string): string {
    if name == "system.network.io" then ".bytes"
    else if name == "system.network.packets" then ".packets"
    else if name == "system.network.dropped" then ".dropped"
    else if name == "system.network.errors" then ".errors"
    else ""
  }

  predicate Known(name: string) {
    Suffix(name) != ""
  }

  function NewName(name: string, direction: string): string {
    "system.network." + direction + Suffix(name)
  }

  /** What one datapoint is remapped to. */
  function FromPoint(mutator: Mutator): Sample -> seq<Metric> {
    (s: Sample) =>
      if "device" !in s.dp.attributes || "direction" !in s.dp.attributes then []
      else
        var device := StrOf(s.dp.attributes, "device");
        var direction := StrOf(s.dp.attributes, "direction");
        var ts, v := s.dp.timestamp, s.dp.IntValue();
        if direction == "receive" then FromDevice(ts, mutator, s.metric, device, "in", v)
        else if direction == "transmit" then FromDevice(ts, mutator, s.metric, device, "out", v)
        else []
  }

  function FromDevice(ts: Timestamp, mutator: Mutator, name: string, device: string, direction: string,
                      v: int64): seq<Metric> {
    if !Known(name) then []
    else Added([OfInt(Sum, NewName(name, direction), ts, v)],
               ChainedMutator([mutator, PutStr("system.network.name", device)]))
  }

  /** What the metrics `src` are remapped to. */
  function Remap(src: seq<Metric>, mutator: Mutator): seq<Metric> {
    ConcatMap(ConcatMap(src, Points), FromPoint(mutator))
  }

  /** Every metric is read as a sum, whatever its name. */
  predicate WellTyped(src: seq<Metric>) {
    forall m :: m in src ==> m.kind.Sum?
  }

  /** Reads `src` to its end while appending to `out`, which may be the same slice. */
  method RemapNetworkMetrics(src: MetricSlice, out: MetricSlice, mutator: Mutator)
    requires WellTyped(src.items)
    modifies out
    ensures out.items == old(out.items) + Remap(old(src.items), mutator)
  {
    ghost var input, start, done := src.items, out.items, [];
    ghost var f := FromPoint(mutator);
    var i := 0;
    while i < |src.items|
      invariant Scanned(input, start, src == out, i, src.items, out.items, done, Points, f)
      decreases if i < |input| then |input| - i else 0, |src.items| - i
    {
      var metric := src.items[i];
      ghost var before, sofar := src.items, out.items;
      RemapDataPoints(metric, out, mutator);
      if i < |input| {
        ScanOn(input, start, src == out, i, before, sofar, done, Points, f, src.items, out.items);
        done := done + Points(metric);
      } else {
        ScannedOwnOutput(input, start, src == out, i, before, sofar, done, Points, f);
        OutputIsDead(done, mutator, mutator, metric);
        ConcatMapEmpty(Points(metric), f);
        ScanPast(input, start, src == out, i, before, sofar, done, Points, f, src.items, out.items);
      }
      i := i + 1;
    }
    ScanEnds(input, start, src == out, i, src.items, out.items, done, Points, f);
  }

  /** The inner loop: the datapoints of one metric. */
  method RemapDataPoints(metric: Metric, out: MetricSlice, mutator: Mutator)
    modifies out
    ensures out.items == old(out.items) + ConcatMap(Points(metric), FromPoint(mutator))
  {
    for j := 0 to |metric.dataPoints|
      invariant out.items == old(out.items) + ConcatMap(Points(metric)[..j], FromPoint(mutator))
    {
      var dp := metric.dataPoints[j];
      ConcatMapExtends(old(out.items), Points(metric), j, FromPoint(mutator));
      if "device" !in dp.attributes {
        continue;
      }
      if "direction" !in dp.attributes {
        continue;
      }
      var device := StrOf(dp.attributes, "device");
      var direction := StrOf(dp.attributes, "direction");
      if direction == "receive" {
        AddDeviceMetric(out, dp.timestamp, mutator, metric.name, device, "in", dp.IntValue());
      } else if direction == "transmit" {
        AddDeviceMetric(out, dp.timestamp, mutator, metric.name, device, "out", dp.IntValue());
      }
    }
    assert Points(metric)[..|metric.dataPoints|] == Points(metric);
  }

  method AddDeviceMetric(out: MetricSlice, ts: Timestamp, mutator: Mutator, name: string,
                         device: string, direction: string, v: int64)
    modifies out
    ensures out.items == old(out.items) + FromDevice(ts, mutator, name, device, direction, v)
  {
    if !Known(name) {
      return;
    }
    var finalMutator := ChainedMutator([mutator, PutStr("system.network.name", device)]);
    Add(out, finalMutator, [OfInt(Sum, NewName(name, direction), ts, v)]);
  }

  // ---------- Own output is never remapped again ----------

  /** A name this remapper gives. */
  ghost predicate IsNewName(name: string) {
    exists n, d :: Known(n) && (d == "in" || d == "out") && name == NewName(n, d)
  }

  lemma NewNamesAreUnknown(name: string)
    requires IsNewName(name)
    ensures !Known(name)
  {
    assert |name| >= 23;
  }

  lemma PointOutput(s: Sample, mutator: Mutator)
    ensures forall m :: m in FromPoint(mutator)(s) ==> IsNewName(m.name) && m.kind.Sum?
  {
    forall d | d == "in" || d == "out"
      ensures var device := StrOf(s.dp.attributes, "device");
              forall m :: m in FromDevice(s.dp.timestamp, mutator, s.metric, device, d, s.dp.IntValue()) ==>
                IsNewName(m.name) && m.kind.Sum?
    {
      var device := StrOf(s.dp.attributes, "device");
      AddedOne(OfInt(Sum, NewName(s.metric, d), s.dp.timestamp, s.dp.IntValue()),
               ChainedMutator([mutator, PutStr("system.network.name", device)]));
    }
  }

  lemma OutputNames(done: seq<Sample>, mutator: Mutator)
    ensures forall m :: m in ConcatMap(done, FromPoint(mutator)) ==> IsNewName(m.name) && m.kind.Sum?
  {
    forall s | s in done
      ensures forall m :: m in FromPoint(mutator)(s) ==> IsNewName(m.name) && m.kind.Sum?
    {
      PointOutput(s, mutator);
    }
    ConcatMapAll(done, FromPoint(mutator), (m: Metric) => IsNewName(m.name) && m.kind.Sum?);
  }

  lemma OutputIsDead(done: seq<Sample>, m1: Mutator, m2: Mutator, metric: Metric)
    requires metric in ConcatMap(done, FromPoint(m1))
    ensures forall s :: s in Points(metric) ==> FromPoint(m2)(s) == []
    ensures metric.kind.Sum?
  {
    OutputNames(done, m1);
    NewNamesAreUnknown(metric.name);
  }

  lemma ExtraIsIgnored(src: seq<Metric>, extra: seq<Metric>, mutator: Mutator)
    requires forall m :: m in extra ==> !Known(m.name)
    ensures Remap(src + extra, mutator) == Remap(src, mutator)
  {
    ConcatMapConcat(src, extra, Points);
    forall m, s | m in extra && s in Points(m)
      ensures FromPoint(mutator)(s) == []
    {
      assert !Known(m.name) && s.metric == m.name;
    }
    ConcatMapAll(extra, Points, (s: Sample) => FromPoint(mutator)(s) == []);
    ConcatMapIgnores(ConcatMap(src, Points), ConcatMap(extra, Points), FromPoint(mutator));
  }

  /** The input together with its own remapping is well typed and remapped like the input. */
  lemma OutputIsNotReconsumed(src: seq<Metric>, m1: Mutator, m2: Mutator)
    ensures Remap(src + Remap(src, m1), m2) == Remap(src, m2)
    ensures WellTyped(src) ==> WellTyped(src + Remap(src, m1))
  {
    var output := Remap(src, m1);
    OutputNames(ConcatMap(src, Points), m1);
    forall m | m in output
      ensures !Known(m.name)
    {
      NewNamesAreUnknown(m.name);
    }
    ExtraIsIgnored(src, output, m2);
  }

  /** Remapping works datapoint by datapoint. */
  lemma RemapConcat(a: seq<Metric>, b: seq<Metric>, mutator: Mutator)
    ensures Remap(a + b, mutator) == Remap(a, mutator) + Remap(b, mutator)
  {
    ConcatMapConcat(a, b, Points);
    ConcatMapConcat(ConcatMap(a, Points), ConcatMap(b, Points), FromPoint(mutator));
  }

  // ---------- Conservation ----------

  /** The new name tells which metric and which direction it was made from. */
  lemma NewNameInjective(a: string, d: string, b: string, e: string)
    requires Known(a) && Known(b)
    requires (d == "in" || d == "out") && (e == "in" || e == "out")
    requires NewName(a, d) == NewName(b, e)
    ensures a == b && d == e
  {
    assert NewName(a, d)[15] == d[0] && NewName(b, e)[15] == e[0];
    assert d == e;
    assert NewName(a, d)[15 + |d|..] == Suffix(a);
    assert NewName(b, e)[15 + |e|..] == Suffix(b);
  }

  /** The values of the emitted metric `name` that carry this device. */
  function Emitted(name: string, device: string): Metric -> int {
    (m: Metric) =>
      if m.name == name && m.dataPoints != []
         && StrOf(m.dataPoints[0].attributes, "system.network.name") == device
      then m.dataPoints[0].IntValue() else 0
  }

  /** The values of the source metric `name` for this device and direction, where the time
      is set. */
  function Sourced(name: string, device: string, direction: string): Sample -> int {
    (s: Sample) =>
      if s.metric == name && "device" in s.dp.attributes && "direction" in s.dp.attributes
         && StrOf(s.dp.attributes, "device") == device
         && StrOf(s.dp.attributes, "direction") == direction
         && s.dp.timestamp != 0
      then s.dp.IntValue() else 0
  }

  lemma DeviceConserved(ts: Timestamp, mutator: Mutator, n: string, d: string, e: string, v: int64,
                        name: string, device: string, dir: string)
    requires Known(name) && (dir == "in" || dir == "out") && (e == "in" || e == "out")
    ensures SumInt(FromDevice(ts, mutator, n, d, e, v), Emitted(NewName(name, dir), device)) ==
            if n == name && e == dir && d == device && ts != 0 then v else 0
  {
    if Known(n) {
      var m := OfInt(Sum, NewName(n, e), ts, v);
      AddedOne(m, ChainedMutator([mutator, PutStr("system.network.name", d)]));
      BuiltCounts(m, mutator, d, NewName(name, dir), device);
      if NewName(n, e) == NewName(name, dir) {
        NewNameInjective(n, e, name, dir);
      }
    }
  }

  lemma BuiltCounts(m: Remapped, mutator: Mutator, d: string, name: string, device: string)
    requires m.intValue.Some?
    ensures SumInt([Built(m, ChainedMutator([mutator, PutStr("system.network.name", d)]))], Emitted(name, device)) ==
            if m.name == name && d == device then m.intValue.value else 0
  {
    var put := PutStr("system.network.name", d);
    ChainOfTwo(mutator, put, map[OTEL_REMAPPED := BoolValue(true)]);
    assert [Built(m, ChainedMutator([mutator, put]))][..0] == [];
  }

  lemma PointConserved(s: Sample, mutator: Mutator, name: string, device: string, raw: string, dir: string)
    requires Known(name)
    requires (raw == "receive" && dir == "in") || (raw == "transmit" && dir == "out")
    ensures SumInt(FromPoint(mutator)(s), Emitted(NewName(name, dir), device)) == Sourced(name, device, raw)(s)
  {
    var d := StrOf(s.dp.attributes, "device");
    DeviceConserved(s.dp.timestamp, mutator, s.metric, d, "in", s.dp.IntValue(), name, device, dir);
    DeviceConserved(s.dp.timestamp, mutator, s.metric, d, "out", s.dp.IntValue(), name, device, dir);
  }

  /** Per metric, device and direction, what is emitted adds up to what was read with a set
      time. */
  lemma NetworkConservation(src: seq<Metric>, mutator: Mutator, name: string, device: string, raw: string, dir: string)
    requires Known(name)
    requires (raw == "receive" && dir == "in") || (raw == "transmit" && dir == "out")
    ensures SumInt(Remap(src, mutator), Emitted(NewName(name, dir), device)) ==
            SumInt(ConcatMap(src, Points), Sourced(name, device, raw))
  {
    var samples := ConcatMap(src, Points);
    var f, g := Emitted(NewName(name, dir), device), Sourced(name, device, raw);
    forall s | s in samples
      ensures SumInt(FromPoint(mutator)(s), f) == g(s)
    {
      PointConserved(s, mutator, name, device, raw, dir);
    }
    SumIntConcatMap(samples, FromPoint(mutator), f, g);
  }

  // ---------- Name by name ----------

  /** The table of names: source metric and direction against the new name. */
  predicate Translates(metric: string, direction: string, name: string) {
    || (metric == "system.network.io" && direction == "receive" && name == "system.network.in.bytes")
    || (metric == "system.network.io" && direction == "transmit" && name == "system.network.out.bytes")
    || (metric == "system.network.packets" && direction == "receive" && name == "system.network.in.packets")
    || (metric == "system.network.packets" && direction == "transmit" && name == "system.network.out.packets")
    || (metric == "system.network.dropped" && direction == "receive" && name == "system.network.in.dropped")
    || (metric == "system.network.dropped" && direction == "transmit" && name == "system.network.out.dropped")
    || (metric == "system.network.errors" && direction == "receive" && name == "system.network.in.errors")
    || (metric == "system.network.errors" && direction == "transmit" && name == "system.network.out.errors")
  }

  function Inward(direction: string): string {
    if direction == "receive" then "in" else "out"
  }

  lemma TranslatesToNewName(metric: string, direction: string, name: string)
    requires Translates(metric, direction, name)
    ensures Known(metric) && name == NewName(metric, Inward(direction))
  {
    if direction == "receive" {
      TranslatesInward(metric, name);
    } else {
      TranslatesOutward(metric, name);
    }
  }

  lemma TranslatesInward(metric: string, name: string)
    requires Translates(metric, "receive", name)
    ensures Known(metric) && name == NewName(metric, "in")
  {
  }

  lemma TranslatesOutward(metric: string, name: string)
    requires Translates(metric, "transmit", name)
    ensures Known(metric) && name == NewName(metric, "out")
  {
  }

  /** A datapoint of the table becomes one sum with its value and time, labelled with its device. */
  lemma PointByName(s: Sample, mutator: Mutator, direction: string, device: string, name: string)
    requires Translates(s.metric, direction, name) && s.dp.timestamp != 0
    requires HasStr(s.dp, "direction", direction) && HasStr(s.dp, "device", device)
    ensures var out := FromPoint(mutator)(s);
            && |out| == 1 && IsCount(out[0], name, IntIn(s.dp))
            && out[0].dataPoints[0].timestamp == s.dp.timestamp
            && HasStr(out[0].dataPoints[0], "system.network.name", device)
  {
    TranslatesToNewName(s.metric, direction, name);
    var put := PutStr("system.network.name", device);
    AddedOne(OfInt(Sum, name, s.dp.timestamp, s.dp.IntValue()), ChainedMutator([mutator, put]));
    ChainOfTwo(mutator, put, map[OTEL_REMAPPED := BoolValue(true)]);
  }

  /** Every other datapoint is dropped. */
  lemma OthersDropped(s: Sample, mutator: Mutator)
    requires "device" !in s.dp.attributes || s.dp.timestamp == 0 ||
             forall direction, name :: Translates(s.metric, direction, name) ==> !HasStr(s.dp, "direction", direction)
    ensures FromPoint(mutator)(s) == []
  {
    if FromPoint(mutator)(s) != [] {
      PointOutput(s, mutator);
      var direction := StrOf(s.dp.attributes, "direction");
      var put := PutStr("system.network.name", StrOf(s.dp.attributes, "device"));
      AddedOne(OfInt(Sum, NewName(s.metric, Inward(direction)), s.dp.timestamp, s.dp.IntValue()),
               ChainedMutator([mutator, put]));
      KnownTranslates(s.metric, direction);
    }
  }

  lemma KnownTranslates(metric: string, direction: string)
    requires Known(metric) && (direction == "receive" || direction == "transmit")
    ensures Translates(metric, direction, NewName(metric, Inward(direction)))
  {
    if direction == "receive" {
      KnownTranslatesInward(metric);
    } else {
      KnownTranslatesOutward(metric);
    }
  }

  lemma KnownTranslatesInward(metric: string)
    requires Known(metric)
    ensures Translates(metric, "receive", NewName(metric, "in"))
  {
  }

  lemma KnownTranslatesOutward(metric: string)
    requires Known(metric)
    ensures Translates(metric, "transmit", NewName(metric, "out"))
  {
  }

  /** What is emitted under a name of the table for a device adds up to what its source metric
      and direction say about the device, where the time is set. */
  lemma ConservedByName(src: seq<Metric>, mutator: Mutator, metric: string, direction: string, name: string,
                        device: string)
    requires Translates(metric, direction, name)
    ensures SumInt(Remap(src, mutator), Emitted(name, device)) ==
            SumInt(ConcatMap(src, Points), Sourced(metric, device, direction))
  {
    TranslatesToNewName(metric, direction, name);
    NetworkConservation(src, mutator, metric, device, direction, Inward(direction));
  }

  // ---------- Labels ----------

  lemma RemapLabelled(src: seq<Metric>, mutator: Mutator, key: string, v: Value)
    requires Labels(mutator, key, v) && key != "system.network.name"
    ensures forall m :: m in Remap(src, mutator) ==> Labelled(m, key, v)
  {
    forall s, m | s in ConcatMap(src, Points) && m in FromPoint(mutator)(s)
      ensures Labelled(m, key, v)
    {
      PointLabelled(s, mutator, key, v);
    }
    ConcatMapAll(ConcatMap(src, Points), FromPoint(mutator), (m: Metric) => Labelled(m, key, v));
  }

  lemma PointLabelled(s: Sample, mutator: Mutator, key: string, v: Value)
    requires Labels(mutator, key, v) && key != "system.network.name"
    ensures forall m :: m in FromPoint(mutator)(s) ==> Labelled(m, key, v)
  {
    var put := PutStr("system.network.name", StrOf(s.dp.attributes, "device"));
    ChainAddedLabelled([OfInt(Sum, NewName(s.metric, "in"), s.dp.timestamp, s.dp.IntValue())], mutator, put, key, v);
    ChainAddedLabelled([OfInt(Sum, NewName(s.metric, "out"), s.dp.timestamp, s.dp.IntValue())], mutator, put, key, v);
  }
}
