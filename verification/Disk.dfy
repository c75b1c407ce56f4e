/** Disk metrics: one renamed and rescaled output per datapoint. */
module Disk {
  import opened Int64
  import opened Sums
  import opened Pdata
  import opened RemappedMetric
  import opened Wrappers

  const IO := "system.disk.io"
  const OPERATIONS := "system.disk.operations"
  const PENDING := "system.disk.pending_operations"
  const OPERATION_TIME := "system.disk.operation_time"
  const IO_TIME := "system.disk.io_time"

  /** A name pattern with one hole. */
  datatype Template = Template(before: string, after: string)

  function TemplateOf(name: string): Option<Template> {
    if name == IO then Some(Template("system.diskio.", ".bytes"))
    else if name == OPERATIONS then Some(Template("system.diskio.", ".count"))
    else if name == PENDING then Some(Template("system.diskio.io.", "ops"))
    else if name == OPERATION_TIME then Some(Template("system.diskio.", ".time"))
    else if name == IO_TIME then Some(Template("system.diskio.io.", "time"))
    else None
  }

  predicate Known(name: string) {
    TemplateOf(name).Some?
  }

  function NewName(name: string, direction: string): string
    requires Known(name)
  {
    var t := TemplateOf(name).value;
    t.before + direction + t.after
  }

  /** Seconds become milliseconds, everything else stays. */
  function Multiplier(name: string): int64 {
    if name == OPERATION_TIME || name == IO_TIME then 1000 else 1
  }

  function ScaledInt(v: Number, k: int64): Option<int64> {
    if v.IntNumber? then Some(Wrap(v.i * k)) else None
  }

  function ScaledDouble(v: Number, k: int64): Option<Double> {
    if v.DoubleNumber? then Some(if v.d.Finite? then Finite(v.d.r * k as real) else NotFinite) else None
  }

  function NewMetric(name: string, dp: DataPoint): Remapped
    requires Known(name)
  {
    var k := Multiplier(name);
    Remapped(Sum, NewName(name, StrOf(dp.attributes, "direction")), dp.timestamp,
             ScaledInt(dp.value, k), ScaledDouble(dp.value, k))
  }

  /** What one datapoint is remapped to; a missing direction reads as the empty string. */
  function FromPoint(mutator: Mutator): Sample -> seq<Metric> {
    (s: Sample) =>
      if !Known(s.metric) || "device" !in s.dp.attributes then []
      else Added([NewMetric(s.metric, s.dp)],
                 ChainedMutator([mutator, PutStr("system.diskio.name", StrOf(s.dp.attributes, "device"))]))
  }

  function Remap(src: seq<Metric>, mutator: Mutator): seq<Metric> {
    ConcatMap(ConcatMap(src, Points), FromPoint(mutator))
  }

  /** The metrics that are read are sums. */
  predicate WellTyped(src: seq<Metric>) {
    forall m :: m in src && Known(m.name) ==> m.kind.Sum?
  }

  /** Reads `src` to its end while appending to `out`, which may be the same slice. The
      error for an unexpected metric name is never returned. */
  method RemapDiskMetrics(src: MetricSlice, out: MetricSlice, mutator: Mutator) returns (errs: seq<string>)
    requires WellTyped(src.items)
    modifies out
    ensures out.items == old(out.items) + Remap(old(src.items), mutator)
    ensures errs == []
  {
    ghost var input, start, done := src.items, out.items, [];
    ghost var f := FromPoint(mutator);
    errs := [];
    var i := 0;
    while i < |src.items|
      invariant Scanned(input, start, src == out, i, src.items, out.items, done, Points, f)
      invariant errs == []
      decreases if i < |input| then |input| - i else 0, |src.items| - i
    {
      var metric := src.items[i];
      ghost var before, sofar := src.items, out.items;
      var more := RemapMetric(metric, out, mutator);
      if |more| > 0 {
        errs := errs + more;
      }
      if i < |input| {
        ScanOn(input, start, src == out, i, before, sofar, done, Points, f, src.items, out.items);
        done := done + Points(metric);
      } else {
        ScannedOwnOutput(input, start, src == out, i, before, sofar, done, Points, f);
        OutputIsIgnored(done, mutator, metric);
        ScanPast(input, start, src == out, i, before, sofar, done, Points, f, src.items, out.items);
      }
      i := i + 1;
    }
    ScanEnds(input, start, src == out, i, src.items, out.items, done, Points, f);
  }

  /** The switch over metric names, with the error it meets, if any. */
  method RemapMetric(metric: Metric, out: MetricSlice, mutator: Mutator) returns (errs: seq<string>)
    modifies out
    ensures out.items == old(out.items) + ConcatMap(Points(metric), FromPoint(mutator))
    ensures errs == []
  {
    var err: Option<string> := None;
    if metric.name == IO || metric.name == OPERATIONS || metric.name == PENDING {
      err := AddDiskMetric(metric, out, mutator, 1);
    } else if metric.name == OPERATION_TIME || metric.name == IO_TIME {
      err := AddDiskMetric(metric, out, mutator, 1000);
    } else {
      ConcatMapEmpty(Points(metric), FromPoint(mutator));
    }
    errs := match err case Some(e) => [e] case None => [];
  }

  method AddDiskMetric(metric: Metric, out: MetricSlice, mutator: Mutator, multiplier: int64)
      returns (err: Option<string>)
    modifies out
    ensures err.None? <==> Known(metric.name)
    ensures multiplier == Multiplier(metric.name) && err.None? ==>
              out.items == old(out.items) + ConcatMap(Points(metric), FromPoint(mutator))
    ensures err.Some? ==> out.items == old(out.items)
  {
    if !Known(metric.name) {
      return Some("unexpected metric name: " + metric.name);
    }
    for j := 0 to |metric.dataPoints|
      invariant multiplier == Multiplier(metric.name) ==>
                  out.items == old(out.items) + ConcatMap(Points(metric)[..j], FromPoint(mutator))
    {
      var dp := metric.dataPoints[j];
      ConcatMapExtends(old(out.items), Points(metric), j, FromPoint(mutator));
      if "device" in dp.attributes {
        var device := StrOf(dp.attributes, "device");
        var direction := StrOf(dp.attributes, "direction");
        var newM := Remapped(Sum, NewName(metric.name, direction), dp.timestamp, None, None);
        newM := newM.(intValue := ScaledInt(dp.value, multiplier));
        newM := newM.(doubleValue := ScaledDouble(dp.value, multiplier));
        Add(out, ChainedMutator([mutator, PutStr("system.diskio.name", device)]), [newM]);
      }
    }
    assert Points(metric)[..|metric.dataPoints|] == Points(metric);
    return None;
  }

  // ---------- Renaming ----------

  /** The one way two datapoints can get one name: an operation time whose direction is "io"
      or goes on after "io.", against an io time whose direction is what goes on. */
  predicate Clash(a: string, d: string, b: string, e: string) {
    a == OPERATION_TIME && b == IO_TIME && d + "." == "io." + e
  }

  lemma EndsAlike(x: string, s: string, y: string, t: string, k: nat)
    requires x + s == y + t && k < |s| && k < |t|
    ensures s[|s| - 1 - k] == t[|t| - 1 - k]
  {
    assert (x + s)[|x + s| - 1 - k] == s[|s| - 1 - k];
    assert (y + t)[|y + t| - 1 - k] == t[|t| - 1 - k];
  }

  lemma SameEnd(x: string, y: string, s: string)
    requires x + s == y + s
    ensures x == y
  {
    assert x == (x + s)[..|x|];
    assert y == (y + s)[..|y|];
  }

  lemma SameStart(p: string, x: string, y: string)
    requires p + x == p + y
    ensures x == y
  {
    assert x == (p + x)[|p|..];
    assert y == (p + y)[|p|..];
  }

  lemma ClashCollides(d: string, e: string)
    ensures NewName(OPERATION_TIME, d) == NewName(IO_TIME, e) <==> d + "." == "io." + e
  {
    var p := "system.diskio.";
    assert NewName(OPERATION_TIME, d) == (p + (d + ".")) + "time";
    assert NewName(IO_TIME, e) == (p + ("io." + e)) + "time";
    if NewName(OPERATION_TIME, d) == NewName(IO_TIME, e) {
      SameEnd(p + (d + "."), p + ("io." + e), "time");
      SameStart(p, d + ".", "io." + e);
    }
  }

  /** Names from two different metrics end differently unless both are times. */
  lemma DifferentMetrics(a: string, d: string, b: string, e: string)
    requires Known(a) && Known(b) && a != b
    requires NewName(a, d) == NewName(b, e)
    ensures (a == OPERATION_TIME && b == IO_TIME) || (a == IO_TIME && b == OPERATION_TIME)
  {
    var s, t := TemplateOf(a).value, TemplateOf(b).value;
    EndsAlike(s.before + d, s.after, t.before + e, t.after, 0);
    EndsAlike(s.before + d, s.after, t.before + e, t.after, 1);
  }

  /** For all metrics and all directions, two datapoints get the same name only if they are
      of the same metric and direction, or clash. */
  lemma RenamingCollidesIff(a: string, d: string, b: string, e: string)
    requires Known(a) && Known(b)
    ensures NewName(a, d) == NewName(b, e) <==>
            (a == b && d == e) || Clash(a, d, b, e) || Clash(b, e, a, d)
  {
    if a == b {
      var t := TemplateOf(a).value;
      if NewName(a, d) == NewName(a, e) {
        SameEnd(t.before + d, t.before + e, t.after);
        SameStart(t.before, d, e);
      }
    } else {
      ClashCollides(d, e);
      ClashCollides(e, d);
      if NewName(a, d) == NewName(b, e) {
        DifferentMetrics(a, d, b, e);
      }
    }
  }

  predicate DotFree(d: string) {
    '.' !in d
  }

  /** Among directions without a dot the only clash is "io" with no direction at all. */
  lemma RenamingOfDotFree(a: string, d: string, b: string, e: string)
    requires Known(a) && Known(b) && DotFree(d) && DotFree(e)
    ensures NewName(a, d) == NewName(b, e) <==>
            (a == b && d == e)
            || (a == OPERATION_TIME && d == "io" && b == IO_TIME && e == "")
            || (b == OPERATION_TIME && e == "io" && a == IO_TIME && d == "")
  {
    RenamingCollidesIff(a, d, b, e);
    DotFreeClash(d, e);
    DotFreeClash(e, d);
  }

  lemma DotFreeClash(d: string, e: string)
    requires DotFree(d)
    ensures d + "." == "io." + e <==> d == "io" && e == ""
  {
    assert |d| > 2 ==> (d + ".")[2] == d[2] && d[2] in d;
    if d + "." == "io." + e {
      assert ("io." + e)[2] == '.';
      assert |d| == 2 && d == (d + ".")[..2] == ("io." + e)[..2];
      assert e == [];
    }
  }

  // ---------- Own output is never remapped again ----------

  /** A name this remapper gives, whatever the direction. */
  predicate IsNewName(name: string) {
    |name| > 11 && name[7] == 'd' && name[11] == 'i'
  }

  lemma NewNameIsNew(a: string, d: string)
    requires Known(a)
    ensures IsNewName(NewName(a, d))
  {
  }

  lemma NewNamesAreUnknown(name: string)
    requires IsNewName(name)
    ensures !Known(name)
  {
  }

  lemma PointOutput(s: Sample, mutator: Mutator)
    ensures forall m :: m in FromPoint(mutator)(s) ==> IsNewName(m.name) && m.kind.Sum?
  {
    if Known(s.metric) {
      AddedOne(NewMetric(s.metric, s.dp),
               ChainedMutator([mutator, PutStr("system.diskio.name", StrOf(s.dp.attributes, "device"))]));
      NewNameIsNew(s.metric, StrOf(s.dp.attributes, "direction"));
    }
  }

  lemma OutputNames(done: seq<Sample>, mutator: Mutator)
    ensures forall m :: m in ConcatMap(done, FromPoint(mutator)) ==> IsNewName(m.name) && m.kind.Sum?
  {
    forall s | s in done
      ensures forall m :: m in FromPoint(mutator)(s) ==> IsNewName(m.name) && m.kind.Sum?
    {
      PointOutput(s, mutator);
    }
    ConcatMapAll(done, FromPoint(mutator), (m: Metric) => IsNewName(m.name) && m.kind.Sum?);
  }

  lemma OutputIsDead(done: seq<Sample>, mutator: Mutator, metric: Metric)
    requires metric in ConcatMap(done, FromPoint(mutator))
    ensures !Known(metric.name)
  {
    OutputNames(done, mutator);
    NewNamesAreUnknown(metric.name);
  }

  lemma OutputIsIgnored(done: seq<Sample>, mutator: Mutator, metric: Metric)
    requires metric in ConcatMap(done, FromPoint(mutator))
    ensures ConcatMap(Points(metric), FromPoint(mutator)) == []
  {
    OutputIsDead(done, mutator, metric);
    ConcatMapEmpty(Points(metric), FromPoint(mutator));
  }

  lemma ExtraIsIgnored(src: seq<Metric>, extra: seq<Metric>, mutator: Mutator)
    requires forall m :: m in extra ==> !Known(m.name)
    ensures Remap(src + extra, mutator) == Remap(src, mutator)
    ensures WellTyped(src) ==> WellTyped(src + extra)
  {
    ConcatMapConcat(src, extra, Points);
    forall m, s | m in extra && s in Points(m)
      ensures FromPoint(mutator)(s) == []
    {
      assert !Known(m.name) && s.metric == m.name;
    }
    ConcatMapAll(extra, Points, (s: Sample) => FromPoint(mutator)(s) == []);
    ConcatMapIgnores(ConcatMap(src, Points), ConcatMap(extra, Points), FromPoint(mutator));
  }

  /** The input together with its own remapping is well typed and remapped like the input,
      whatever the directions are. */
  lemma OutputIsNotReconsumed(src: seq<Metric>, m1: Mutator, m2: Mutator)
    ensures Remap(src + Remap(src, m1), m2) == Remap(src, m2)
    ensures WellTyped(src) ==> WellTyped(src + Remap(src, m1))
  {
    forall m | m in Remap(src, m1)
      ensures !Known(m.name)
    {
      OutputIsDead(ConcatMap(src, Points), m1, m);
    }
    ExtraIsIgnored(src, Remap(src, m1), m2);
  }

  lemma RemapConcat(a: seq<Metric>, b: seq<Metric>, mutator: Mutator)
    ensures Remap(a + b, mutator) == Remap(a, mutator) + Remap(b, mutator)
  {
    ConcatMapConcat(a, b, Points);
    ConcatMapConcat(ConcatMap(a, Points), ConcatMap(b, Points), FromPoint(mutator));
  }

  // ---------- Labels ----------

  lemma RemapLabelled(src: seq<Metric>, mutator: Mutator, key: string, v: Value)
    requires Labels(mutator, key, v) && key != "system.diskio.name"
    ensures forall m :: m in Remap(src, mutator) ==> Labelled(m, key, v)
  {
    forall s, m | s in ConcatMap(src, Points) && m in FromPoint(mutator)(s)
      ensures Labelled(m, key, v)
    {
      ChainAddedLabelled([NewMetric(s.metric, s.dp)], mutator,
                         PutStr("system.diskio.name", StrOf(s.dp.attributes, "device")), key, v);
    }
    ConcatMapAll(ConcatMap(src, Points), FromPoint(mutator), (m: Metric) => Labelled(m, key, v));
  }
}
