/** What the disk output adds up to, per new name and device. */
module DiskSums {
  import opened Int64
  import opened Sums
  import opened Pdata
  import opened Readings
  import opened RemappedMetric
  import opened Wrappers
  import opened Disk

  /** The value of a datapoint, integer or not. */
  function ValueOf(v: Number): real {
    match v
    case IntNumber(i) => i as real
    case DoubleNumber(Finite(r)) => r
    case _ => 0.0
  }

  /** The values of the emitted metrics of this name that carry this device. */
  function Emitted(name: string, device: string): Metric -> real {
    (m: Metric) =>
      if m.name == name && m.dataPoints != []
         && StrOf(m.dataPoints[0].attributes, "system.diskio.name") == device
      then ValueOf(m.dataPoints[0].value) else 0.0
  }

  function DirectionOf(s: Sample): string {
    StrOf(s.dp.attributes, "direction")
  }

  /** The datapoint is of this device and its time is set. */
  predicate OfDevice(s: Sample, device: string) {
    "device" in s.dp.attributes && StrOf(s.dp.attributes, "device") == device && s.dp.timestamp != 0
  }

  /** The datapoint is remapped under this name for this device. */
  predicate Feeds(s: Sample, name: string, device: string) {
    Known(s.metric) && OfDevice(s, device) && NewName(s.metric, DirectionOf(s)) == name
  }

  /** Milliseconds for the two times. */
  function InNewUnit(name: string, r: real): real {
    if name == OPERATION_TIME || name == IO_TIME then 1000.0 * r else r
  }

  /** The value of a datapoint after the scaling, which wraps around for integers. */
  function Carried(s: Sample): real {
    var k := Multiplier(s.metric);
    match s.dp.value
    case IntNumber(i) => Wrap(i * k) as real
    case DoubleNumber(Finite(r)) => r * k as real
    case _ => 0.0
  }

  /** The scaled value fits: only integers can overflow. */
  predicate Fits(s: Sample) {
    s.dp.value.IntNumber? ==> InRange(s.dp.value.i * Multiplier(s.metric))
  }

  /** Scaling is exact if and only if the scaled value fits. */
  lemma CarriedIffFits(s: Sample)
    ensures Carried(s) == InNewUnit(s.metric, ValueOf(s.dp.value)) <==> Fits(s)
  {
    if s.dp.value.IntNumber? {
      var x := s.dp.value.i * Multiplier(s.metric);
      assert InRange(x) <==> Wrap(x) == x;
      assert x as real == InNewUnit(s.metric, ValueOf(s.dp.value));
    }
  }

  /** What the datapoints remapped under this name for this device carry. */
  function Feeding(name: string, device: string): Sample -> real {
    (s: Sample) => if Feeds(s, name, device) then Carried(s) else 0.0
  }

  // ---------- Per new name ----------

  lemma BuiltCounts(m: Remapped, mutator: Mutator, d: string, name: string, device: string)
    ensures SumReal([Built(m, ChainedMutator([mutator, PutStr("system.diskio.name", d)]))], Emitted(name, device)) ==
            if m.name == name && d == device then ValueOf(m.Value()) else 0.0
  {
    var put := PutStr("system.diskio.name", d);
    var built := Built(m, ChainedMutator([mutator, put]));
    ChainOfTwo(mutator, put, map[OTEL_REMAPPED := BoolValue(true)]);
    assert [built][..0] == [];
    assert SumReal([built], Emitted(name, device)) == Emitted(name, device)(built);
  }

  lemma PointConserved(s: Sample, mutator: Mutator, name: string, device: string)
    ensures SumReal(FromPoint(mutator)(s), Emitted(name, device)) == Feeding(name, device)(s)
  {
    if Known(s.metric) && "device" in s.dp.attributes {
      PointIsOne(s, mutator);
      ValidIff(s);
      BuiltCounts(NewMetric(s.metric, s.dp), mutator, StrOf(s.dp.attributes, "device"), name, device);
    }
  }

  lemma PointIsOne(s: Sample, mutator: Mutator)
    requires Known(s.metric) && "device" in s.dp.attributes
    ensures var m, d := NewMetric(s.metric, s.dp), StrOf(s.dp.attributes, "device");
            FromPoint(mutator)(s) ==
            if m.Valid() then [Built(m, ChainedMutator([mutator, PutStr("system.diskio.name", d)]))] else []
  {
    AddedOne(NewMetric(s.metric, s.dp),
             ChainedMutator([mutator, PutStr("system.diskio.name", StrOf(s.dp.attributes, "device"))]));
  }

  lemma ValidIff(s: Sample)
    requires Known(s.metric)
    ensures NewMetric(s.metric, s.dp).Valid() <==> s.dp.timestamp != 0 && !s.dp.value.NoValue?
    ensures ValueOf(NewMetric(s.metric, s.dp).Value()) == Carried(s)
  {
  }

  /** For every name and device: what is emitted adds up to what the datapoints of the device
      that are remapped to that name carry. */
  lemma DiskConservation(src: seq<Metric>, mutator: Mutator, name: string, device: string)
    ensures SumReal(Remap(src, mutator), Emitted(name, device)) ==
            SumReal(ConcatMap(src, Points), Feeding(name, device))
  {
    SamplesConserved(ConcatMap(src, Points), mutator, name, device);
  }

  lemma {:induction false} SamplesConserved(samples: seq<Sample>, mutator: Mutator, name: string, device: string)
    ensures SumReal(ConcatMap(samples, FromPoint(mutator)), Emitted(name, device)) ==
            SumReal(samples, Feeding(name, device))
  {
    if samples != [] {
      var n := |samples| - 1;
      SamplesConserved(samples[..n], mutator, name, device);
      PointConserved(samples[n], mutator, name, device);
      SumRealConcat(ConcatMap(samples[..n], FromPoint(mutator)), FromPoint(mutator)(samples[n]), Emitted(name, device));
    }
  }

  // ---------- Per source metric and direction ----------

  datatype Source = Source(metric: string, direction: string)

  /** The values of one source metric for this device and direction, where the time is set. */
  function Sourced(source: Source, device: string): Sample -> real {
    (s: Sample) =>
      if s.metric == source.metric && OfDevice(s, device) && DirectionOf(s) == source.direction
      then ValueOf(s.dp.value) else 0.0
  }

  function NameOf(source: Source): string
    requires Known(source.metric)
  {
    NewName(source.metric, source.direction)
  }

  /** The other source that is remapped to the same name, if there is one. */
  function Rival(source: Source): (rival: Option<Source>)
    ensures rival.Some? ==> Known(rival.value.metric) && rival.value.metric != source.metric
  {
    var d := source.direction;
    if source.metric == OPERATION_TIME && "io." <= d + "." then Some(Source(IO_TIME, (d + ".")[3..]))
    else if source.metric == IO_TIME && ("io." + d)[|d| + 2] == '.' then
      Some(Source(OPERATION_TIME, ("io." + d)[..|d| + 2]))
    else None
  }

  lemma RivalIsClash(d: string, e: string)
    ensures Rival(Source(OPERATION_TIME, d)) == Some(Source(IO_TIME, e)) <==> d + "." == "io." + e
    ensures Rival(Source(IO_TIME, e)) == Some(Source(OPERATION_TIME, d)) <==> d + "." == "io." + e
  {
    var x, y := d + ".", "io." + e;
    assert y[3..] == e && x[..|d|] == d;
    assert "io." <= x ==> x == "io." + x[3..];
    assert y[|e| + 2] == '.' ==> y == y[..|e| + 2] + ".";
    if x == y {
      assert y[|e| + 2] == x[|d|] == '.';
    }
  }

  /** Two sources share a name exactly if they are the same or rivals. */
  lemma SharedNameIff(a: Source, b: Source)
    requires Known(a.metric) && Known(b.metric)
    ensures NameOf(a) == NameOf(b) <==> a == b || Rival(a) == Some(b)
  {
    RenamingCollidesIff(a.metric, a.direction, b.metric, b.direction);
    if a.metric == OPERATION_TIME && b.metric == IO_TIME {
      RivalIsClash(a.direction, b.direction);
    } else if a.metric == IO_TIME && b.metric == OPERATION_TIME {
      RivalIsClash(b.direction, a.direction);
    }
  }

  function RivalSum(samples: seq<Sample>, source: Source, device: string): real {
    match Rival(source)
    case Some(r) => SumReal(samples, Sourced(r, device))
    case None => 0.0
  }

  /** No datapoint that is remapped to this name for this device overflows. */
  ghost predicate AllFit(samples: seq<Sample>, name: string, device: string) {
    forall s :: s in samples && Feeds(s, name, device) ==> Fits(s)
  }

  /** The share of the rival in one datapoint. */
  function RivalValue(s: Sample, source: Source, device: string): real {
    match Rival(source)
    case Some(r) => Sourced(r, device)(s)
    case None => 0.0
  }

  lemma PointSplits(s: Sample, source: Source, device: string)
    requires Known(source.metric)
    requires Feeds(s, NameOf(source), device) ==> Fits(s)
    ensures Feeding(NameOf(source), device)(s) ==
            InNewUnit(source.metric, Sourced(source, device)(s) + RivalValue(s, source, device))
  {
    if Known(s.metric) {
      CarriedIffFits(s);
      SharedNameIff(source, Source(s.metric, DirectionOf(s)));
    }
  }

  lemma {:induction false} FeedingSplits(samples: seq<Sample>, source: Source, device: string)
    requires Known(source.metric) && AllFit(samples, NameOf(source), device)
    ensures SumReal(samples, Feeding(NameOf(source), device)) ==
            InNewUnit(source.metric, SumReal(samples, Sourced(source, device)) + RivalSum(samples, source, device))
  {
    if samples != [] {
      var n := |samples| - 1;
      FeedingSplits(samples[..n], source, device);
      PointSplits(samples[n], source, device);
    }
  }

  /** What is emitted under the name of a source. */
  function EmittedFor(src: seq<Metric>, mutator: Mutator, source: Source, device: string): real
    requires Known(source.metric)
  {
    SumReal(Remap(src, mutator), Emitted(NameOf(source), device))
  }

  function SourcedBy(src: seq<Metric>, source: Source, device: string): real {
    SumReal(ConcatMap(src, Points), Sourced(source, device))
  }

  function SourcedByRival(src: seq<Metric>, source: Source, device: string): real {
    RivalSum(ConcatMap(src, Points), source, device)
  }

  /** What is emitted is a source and its rival, in the new unit. */
  predicate AddsUp(emitted: real, metric: string, own: real, rival: real) {
    emitted == InNewUnit(metric, own + rival)
  }

  lemma SamplesFeed(samples: seq<Sample>, mutator: Mutator, source: Source, device: string)
    requires Known(source.metric) && AllFit(samples, NameOf(source), device)
    ensures AddsUp(SumReal(ConcatMap(samples, FromPoint(mutator)), Emitted(NameOf(source), device)), source.metric,
                   SumReal(samples, Sourced(source, device)), RivalSum(samples, source, device))
  {
    SamplesConserved(samples, mutator, NameOf(source), device);
    FeedingSplits(samples, source, device);
  }

  /** Where no value overflows, the name of a source carries what it and its rival sourced, in
      the new unit. */
  lemma SourcesConserved(src: seq<Metric>, mutator: Mutator, source: Source, device: string)
    requires Known(source.metric) && AllFit(ConcatMap(src, Points), NameOf(source), device)
    ensures AddsUp(EmittedFor(src, mutator, source, device), source.metric,
                   SourcedBy(src, source, device), SourcedByRival(src, source, device))
  {
    SamplesFeed(ConcatMap(src, Points), mutator, source, device);
  }

  /** So it carries the source alone if and only if the rival adds up to nothing. */
  lemma SourceConservedIff(src: seq<Metric>, mutator: Mutator, source: Source, device: string)
    requires Known(source.metric) && AllFit(ConcatMap(src, Points), NameOf(source), device)
    ensures EmittedFor(src, mutator, source, device) == InNewUnit(source.metric, SourcedBy(src, source, device)) <==>
            SourcedByRival(src, source, device) == 0.0
  {
    SourcesConserved(src, mutator, source, device);
    OwnAloneIff(source.metric, SourcedBy(src, source, device), SourcedByRival(src, source, device));
  }

  lemma OwnAloneIff(name: string, own: real, rival: real)
    ensures InNewUnit(name, own + rival) == InNewUnit(name, own) <==> rival == 0.0
  {
  }

  /** Bytes, operations and pending operations are always conserved. */
  lemma CountsConserved(src: seq<Metric>, mutator: Mutator, source: Source, device: string)
    requires source.metric == IO || source.metric == OPERATIONS || source.metric == PENDING
    ensures EmittedFor(src, mutator, source, device) == SourcedBy(src, source, device)
  {
    forall s | s in ConcatMap(src, Points) && Feeds(s, NameOf(source), device)
      ensures Fits(s)
    {
      SharedNameIff(source, Source(s.metric, DirectionOf(s)));
    }
    SourceConservedIff(src, mutator, source, device);
  }

  /** The two times under a name they share: each is conserved if and only if the other adds up
      to nothing. */
  lemma TimesConservedIff(src: seq<Metric>, mutator: Mutator, device: string, d: string, e: string)
    requires d + "." == "io." + e
    requires AllFit(ConcatMap(src, Points), NewName(IO_TIME, e), device)
    ensures EmittedFor(src, mutator, Source(IO_TIME, e), device) ==
              1000.0 * SourcedBy(src, Source(IO_TIME, e), device) <==>
            SourcedBy(src, Source(OPERATION_TIME, d), device) == 0.0
    ensures EmittedFor(src, mutator, Source(OPERATION_TIME, d), device) ==
              1000.0 * SourcedBy(src, Source(OPERATION_TIME, d), device) <==>
            SourcedBy(src, Source(IO_TIME, e), device) == 0.0
  {
    RivalIsClash(d, e);
    SharedNameIff(Source(IO_TIME, e), Source(OPERATION_TIME, d));
    SourceConservedIff(src, mutator, Source(IO_TIME, e), device);
    SourceConservedIff(src, mutator, Source(OPERATION_TIME, d), device);
  }

  /** A time whose name nothing else can get is conserved. */
  lemma UnrivalledTimeConserved(src: seq<Metric>, mutator: Mutator, source: Source, device: string)
    requires source.metric == OPERATION_TIME || source.metric == IO_TIME
    requires Rival(source) == None && AllFit(ConcatMap(src, Points), NameOf(source), device)
    ensures EmittedFor(src, mutator, source, device) == 1000.0 * SourcedBy(src, source, device)
  {
    SourceConservedIff(src, mutator, source, device);
  }

  // ---------- Name by name ----------

  /** The table of names: source metric and direction against the new name. */
  predicate Translates(metric: string, d: string, name: string) {
    || (metric == "system.disk.io" && name == "system.diskio." + d + ".bytes")
    || (metric == "system.disk.operations" && name == "system.diskio." + d + ".count")
    || (metric == "system.disk.pending_operations" && name == "system.diskio.io." + d + "ops")
    || (metric == "system.disk.operation_time" && name == "system.diskio." + d + ".time")
    || (metric == "system.disk.io_time" && name == "system.diskio.io." + d + "time")
  }

  lemma TranslatesToNewName(metric: string, d: string, name: string)
    requires Translates(metric, d, name)
    ensures Known(metric) && NewName(metric, d) == name
  {
  }

  /** A datapoint of the table becomes one sum with its value in the new unit and its time,
      labelled with its device. */
  lemma PointByName(s: Sample, mutator: Mutator, device: string, name: string)
    requires Translates(s.metric, DirectionOf(s), name) && s.dp.timestamp != 0 && HasStr(s.dp, "device", device)
    requires !s.dp.value.NoValue? && Fits(s)
    ensures var out := FromPoint(mutator)(s);
            && |out| == 1 && out[0].name == name && out[0].kind == Sum && |out[0].dataPoints| == 1
            && ValueOf(out[0].dataPoints[0].value) == InNewUnit(s.metric, ValueOf(s.dp.value))
            && out[0].dataPoints[0].value.IntNumber? == s.dp.value.IntNumber?
            && out[0].dataPoints[0].timestamp == s.dp.timestamp
            && HasStr(out[0].dataPoints[0], "system.diskio.name", device)
  {
    TranslatesToNewName(s.metric, DirectionOf(s), name);
    var put := PutStr("system.diskio.name", device);
    AddedOne(NewMetric(s.metric, s.dp), ChainedMutator([mutator, put]));
    ChainOfTwo(mutator, put, map[OTEL_REMAPPED := BoolValue(true)]);
    CarriedIffFits(s);
  }

  /** Every other datapoint is dropped. */
  lemma OthersDropped(s: Sample, mutator: Mutator)
    requires "device" !in s.dp.attributes || s.dp.timestamp == 0 || s.dp.value.NoValue? ||
             (s.metric != "system.disk.io" && s.metric != "system.disk.operations" &&
              s.metric != "system.disk.pending_operations" && s.metric != "system.disk.operation_time" &&
              s.metric != "system.disk.io_time")
    ensures FromPoint(mutator)(s) == []
  {
    if Known(s.metric) {
      AddedOne(NewMetric(s.metric, s.dp),
               ChainedMutator([mutator, PutStr("system.diskio.name", StrOf(s.dp.attributes, "device"))]));
    }
  }

  /** What the datapoints of a metric say about a device and direction, where the time is set. */
  function Reported(src: seq<Metric>, metric: string, d: string, device: string): real {
    SourcedBy(src, Source(metric, d), device)
  }

  /** What is emitted under a name for a device. */
  function Under(src: seq<Metric>, mutator: Mutator, name: string, device: string): real {
    SumReal(Remap(src, mutator), Emitted(name, device))
  }

  /** Bytes, operations and pending operations, each under its own name. */
  lemma CountsByName(src: seq<Metric>, mutator: Mutator, d: string, device: string)
    ensures Under(src, mutator, "system.diskio." + d + ".bytes", device) == Reported(src, "system.disk.io", d, device)
    ensures Under(src, mutator, "system.diskio." + d + ".count", device) ==
            Reported(src, "system.disk.operations", d, device)
    ensures Under(src, mutator, "system.diskio.io." + d + "ops", device) ==
            Reported(src, "system.disk.pending_operations", d, device)
  {
    CountByName(src, mutator, "system.disk.io", d, "system.diskio." + d + ".bytes", device);
    CountByName(src, mutator, "system.disk.operations", d, "system.diskio." + d + ".count", device);
    CountByName(src, mutator, "system.disk.pending_operations", d, "system.diskio.io." + d + "ops", device);
  }

  lemma CountByName(src: seq<Metric>, mutator: Mutator, metric: string, d: string, name: string, device: string)
    requires Translates(metric, d, name)
    requires metric == IO || metric == OPERATIONS || metric == PENDING
    ensures Under(src, mutator, name, device) == Reported(src, metric, d, device)
  {
    TranslatesToNewName(metric, d, name);
    CountsConserved(src, mutator, Source(metric, d), device);
  }

  /** The two times in milliseconds, each under its own name together with its rival: an
      operation time shares it with the io time of what follows "io.", and the other way round. */
  lemma TimesByName(src: seq<Metric>, mutator: Mutator, d: string, e: string, device: string)
    requires d + "." == "io." + e
    requires AllFit(ConcatMap(src, Points), "system.diskio." + d + ".time", device)
    ensures "system.diskio." + d + ".time" == "system.diskio.io." + e + "time"
    ensures Under(src, mutator, "system.diskio." + d + ".time", device) ==
            1000.0 * (Reported(src, "system.disk.operation_time", d, device)
                      + Reported(src, "system.disk.io_time", e, device))
  {
    RivalIsClash(d, e);
    TranslatesToNewName("system.disk.operation_time", d, "system.diskio." + d + ".time");
    TranslatesToNewName("system.disk.io_time", e, "system.diskio.io." + e + "time");
    ClashCollides(d, e);
    SourcesConserved(src, mutator, Source("system.disk.operation_time", d), device);
  }

  /** Operation times of any other direction are alone under their name. */
  lemma OperationTimeByName(src: seq<Metric>, mutator: Mutator, d: string, device: string)
    requires forall e :: d + "." != "io." + e
    requires AllFit(ConcatMap(src, Points), "system.diskio." + d + ".time", device)
    ensures Under(src, mutator, "system.diskio." + d + ".time", device) ==
            1000.0 * Reported(src, "system.disk.operation_time", d, device)
  {
    TranslatesToNewName("system.disk.operation_time", d, "system.diskio." + d + ".time");
    assert Rival(Source(OPERATION_TIME, d)) == None by {
      if "io." <= d + "." {
        assert d + "." == "io." + (d + ".")[3..];
      }
    }
    UnrivalledTimeConserved(src, mutator, Source(OPERATION_TIME, d), device);
  }

  /** So are io times of any other direction. */
  lemma IoTimeByName(src: seq<Metric>, mutator: Mutator, e: string, device: string)
    requires forall d :: d + "." != "io." + e
    requires AllFit(ConcatMap(src, Points), "system.diskio.io." + e + "time", device)
    ensures Under(src, mutator, "system.diskio.io." + e + "time", device) ==
            1000.0 * Reported(src, "system.disk.io_time", e, device)
  {
    TranslatesToNewName("system.disk.io_time", e, "system.diskio.io." + e + "time");
    assert Rival(Source(IO_TIME, e)) == None by {
      if ("io." + e)[|e| + 2] == '.' {
        assert ("io." + e)[..|e| + 2] + "." == "io." + e;
      }
    }
    UnrivalledTimeConserved(src, mutator, Source(IO_TIME, e), device);
  }

  /** The shortest input on which the two times meet: two seconds of operations of direction
      "io" and three seconds of io without a direction. */
  lemma TimesMeet(mutator: Mutator, device: string) returns (src: seq<Metric>)
    ensures WellTyped(src)
    ensures SourcedBy(src, Source(OPERATION_TIME, "io"), device) == 2.0
    ensures SourcedBy(src, Source(IO_TIME, ""), device) == 3.0
    ensures EmittedFor(src, mutator, Source(IO_TIME, ""), device) == 5000.0
  {
    var operation := DataPoint(map["device" := StrValue(device), "direction" := StrValue("io")],
                               DoubleNumber(Finite(2.0)), 1, 0);
    var io := DataPoint(map["device" := StrValue(device)], DoubleNumber(Finite(3.0)), 1, 0);
    var a, b := Metric(OPERATION_TIME, Sum, [operation]), Metric(IO_TIME, Sum, [io]);
    src := [a, b];
    var x, y := Sample(OPERATION_TIME, operation), Sample(IO_TIME, io);
    PointsOfTwo(a, b, x, y);
    SumOfTwo(x, y, Sourced(Source(OPERATION_TIME, "io"), device));
    SumOfTwo(x, y, Sourced(Source(IO_TIME, ""), device));
    RivalIsClash("io", "");
    SourcesConserved(src, mutator, Source(IO_TIME, ""), device);
  }

  lemma PointsOfTwo(a: Metric, b: Metric, x: Sample, y: Sample)
    requires Points(a) == [x] && Points(b) == [y]
    ensures ConcatMap([a, b], Points) == [x, y]
  {
    assert [a, b] == [] + [a] + [b];
    ConcatMapSnoc([] + [a], b, Points);
    ConcatMapSnoc([], a, Points);
  }

  lemma SumOfTwo(x: Sample, y: Sample, f: Sample -> real)
    ensures SumReal([x, y], f) == f(x) + f(y)
  {
    assert [x, y] == [] + [x] + [y];
    SumRealSnoc([] + [x], y, f);
    SumRealSnoc([], x, f);
  }
}
