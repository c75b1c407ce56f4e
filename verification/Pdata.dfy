/** The part of the metric data model that the remappers touch. */
module Pdata {
  import opened Int64
  import opened Sums

  datatype Value = StrValue(s: string) | NumValue(n: int64) | BoolValue(b: bool)

  type Attributes = map<string, Value>

  /** The string under `key`, empty when the key is absent or holds something else. */
  function StrOf(a: Attributes, key: string): string {
    if key in a && a[key].StrValue? then a[key].s else ""
  }

  /** The integer under `key`, zero when the key is absent or holds something else. */
  function NumOf(a: Attributes, key: string): int64 {
    if key in a && a[key].NumValue? then a[key].n else 0
  }

  /** Floating point values are reals; a quotient by zero is only known not to be finite. */
  datatype Double = Finite(r: real) | NotFinite

  datatype Number = NoValue | IntNumber(i: int64) | DoubleNumber(d: Double)

  /** Nanoseconds since the epoch in 64 bits; zero means unset. */
  type Timestamp = t: nat | t < TWO_64

  datatype DataPoint = DataPoint(
    attributes: Attributes,
    value: Number,
    timestamp: Timestamp,
    startTimestamp: Timestamp)
  {
    /** The integer value; zero when the point holds no integer. */
    function IntValue(): int64 {
      if value.IntNumber? then value.i else 0
    }

    /** The floating point value; zero when the point holds none. */
    function DoubleValue(): real {
      if value.DoubleNumber? && value.d.Finite? then value.d.r else 0.0
    }
  }

  const EMPTY_POINT := DataPoint(map[], NoValue, 0, 0)

  datatype MetricType = Unset | Gauge | Sum | Histogram | ExponentialHistogram | Summary

  datatype Metric = Metric(name: string, kind: MetricType, dataPoints: seq<DataPoint>)

  /** A growing list of metrics that callers share. */
  class MetricSlice {
    var items: seq<Metric>

    constructor ()
      ensures items == []
    {
      items := [];
    }

    method AppendEmpty() returns (k: nat)
      modifies this
      ensures k == |old(items)|
      ensures items == old(items) + [Metric("", Unset, [])]
    {
      k := |items|;
      items := items + [Metric("", Unset, [])];
    }

    method SetName(k: nat, name: string)
      requires k < |items|
      modifies this
      ensures items == old(items)[k := old(items)[k].(name := name)]
    {
      items := items[k := items[k].(name := name)];
    }

    /** Gives metric `k` its type and one empty datapoint. */
    method SetEmpty(k: nat, kind: MetricType)
      requires k < |items|
      modifies this
      ensures items == old(items)[k := old(items)[k].(kind := kind, dataPoints := [EMPTY_POINT])]
    {
      items := items[k := items[k].(kind := kind, dataPoints := [EMPTY_POINT])];
    }

    /** Overwrites the only datapoint of metric `k`. */
    method SetPoint(k: nat, dp: DataPoint)
      requires k < |items| && |items[k].dataPoints| == 1
      modifies this
      ensures items == old(items)[k := old(items)[k].(dataPoints := [dp])]
    {
      assert items[k].dataPoints[0 := dp] == [dp];
      items := items[k := items[k].(dataPoints := items[k].dataPoints[0 := dp])];
    }
  }

  /** The integer value of metric `k`. */
  function IntAt(out: seq<Metric>, k: nat): int64
    requires k < |out|
  {
    if out[k].dataPoints == [] then 0 else out[k].dataPoints[0].IntValue()
  }

  /** The floating point value of metric `k`. */
  function RealAt(out: seq<Metric>, k: nat): real
    requires k < |out|
  {
    if out[k].dataPoints == [] then 0.0 else out[k].dataPoints[0].DoubleValue()
  }

  // ---------- Reading a slice datapoint by datapoint ----------

  /** A datapoint together with the name of its metric. */
  datatype Sample = Sample(metric: string, dp: DataPoint)

  function Points(m: Metric): seq<Sample> {
    seq(|m.dataPoints|, j requires 0 <= j < |m.dataPoints| => Sample(m.name, m.dataPoints[j]))
  }

  function FirstPoint(m: Metric): seq<Sample> {
    if m.dataPoints == [] then [] else [Sample(m.name, m.dataPoints[0])]
  }

  function TimeOf(s: Sample): Timestamp {
    s.dp.timestamp
  }

  function StartOf(s: Sample): Timestamp {
    s.dp.startTimestamp
  }

  /** The first non-zero value of a time field in reading order, zero if there is none. */
  function FirstSet(ss: seq<Sample>, field: Sample -> Timestamp): Timestamp {
    if ss == [] then 0
    else
      var before := FirstSet(ss[..|ss| - 1], field);
      if before != 0 then before else field(ss[|ss| - 1])
  }

  function FirstTimestamp(ss: seq<Sample>): Timestamp {
    FirstSet(ss, TimeOf)
  }

  /** What the first value is, without reading in order. */
  lemma {:induction false} FirstSetMeaning(ss: seq<Sample>, field: Sample -> Timestamp)
    ensures FirstSet(ss, field) == 0 <==> forall k :: 0 <= k < |ss| ==> field(ss[k]) == 0
    ensures FirstSet(ss, field) != 0 ==>
      exists k :: 0 <= k < |ss| && field(ss[k]) == FirstSet(ss, field)
               && forall j :: 0 <= j < k ==> field(ss[j]) == 0
  {
    if ss != [] {
      var n := |ss| - 1;
      var front := ss[..n];
      FirstSetMeaning(front, field);
      assert forall k :: 0 <= k < n ==> front[k] == ss[k];
      if FirstSet(front, field) != 0 {
        var k :| 0 <= k < n && field(front[k]) == FirstSet(front, field)
          && forall j :: 0 <= j < k ==> field(front[j]) == 0;
        assert field(ss[k]) == FirstSet(ss, field);
      } else if field(ss[n]) != 0 {
        assert field(ss[n]) == FirstSet(ss, field);
      }
    }
  }

  lemma FirstSetSnoc(ss: seq<Sample>, s: Sample, field: Sample -> Timestamp)
    ensures FirstSet(ss + [s], field) == if FirstSet(ss, field) != 0 then FirstSet(ss, field) else field(s)
  {
    assert (ss + [s])[..|ss|] == ss;
  }

  lemma FirstTimestampSnoc(ss: seq<Sample>, s: Sample)
    ensures FirstTimestamp(ss + [s]) ==
            if FirstTimestamp(ss) != 0 then FirstTimestamp(ss) else s.dp.timestamp
  {
    FirstSetSnoc(ss, s, TimeOf);
  }

  /** The integer of the last datapoint of a kind, zero if there is none. */
  function LastInt(ss: seq<Sample>, p: Sample -> bool): int64 {
    if ss == [] then 0
    else if p(ss[|ss| - 1]) then ss[|ss| - 1].dp.IntValue()
    else LastInt(ss[..|ss| - 1], p)
  }

  /** The floating point value of the last datapoint of a kind, zero if there is none. */
  function LastReal(ss: seq<Sample>, p: Sample -> bool): real {
    if ss == [] then 0.0
    else if p(ss[|ss| - 1]) then ss[|ss| - 1].dp.DoubleValue()
    else LastReal(ss[..|ss| - 1], p)
  }

  /** Datapoints of this metric. */
  function Of(metric: string): Sample -> bool {
    (s: Sample) => s.metric == metric
  }

  /** Datapoints of this metric with this attribute. */
  function With(metric: string, key: string, v: string): Sample -> bool {
    (s: Sample) => s.metric == metric && StrOf(s.dp.attributes, key) == v
  }

  lemma PointsPrefix(m: Metric, j: nat)
    requires j < |m.dataPoints|
    ensures Points(m)[..j + 1] == Points(m)[..j] + [Sample(m.name, m.dataPoints[j])]
  {
  }

  // ---------- Appending to a slice while reading it ----------

  /** `i` metrics of `src` are read and remapped sample by sample into `out`, which began as
      `start`. When both are one slice, `src` has grown beyond `input`. */
  ghost predicate Scanned(input: seq<Metric>, start: seq<Metric>, same: bool, i: nat, src: seq<Metric>,
                          out: seq<Metric>, done: seq<Sample>, read: Metric -> seq<Sample>, f: Sample -> seq<Metric>) {
    && i <= |src| && input <= src
    && (if same then start == input && src == out else src == input)
    && out == start + ConcatMap(done, f)
    && done == ConcatMap(if i <= |input| then input[..i] else input, read)
  }

  /** Whatever is read beyond the input was appended by the scan itself. */
  lemma ScannedOwnOutput(input: seq<Metric>, start: seq<Metric>, same: bool, i: nat, src: seq<Metric>, out: seq<Metric>,
                         done: seq<Sample>, read: Metric -> seq<Sample>, f: Sample -> seq<Metric>)
    requires Scanned(input, start, same, i, src, out, done, read, f) && |input| <= i < |src|
    ensures same && src[i] in ConcatMap(done, f)
  {
    assert src[i] == ConcatMap(done, f)[i - |input|];
  }

  /** Reading it again adds nothing, when it is ignored. */
  lemma ScanPast(input: seq<Metric>, start: seq<Metric>, same: bool, i: nat, src: seq<Metric>, out: seq<Metric>,
                 done: seq<Sample>, read: Metric -> seq<Sample>, f: Sample -> seq<Metric>,
                 src': seq<Metric>, out': seq<Metric>)
    requires Scanned(input, start, same, i, src, out, done, read, f) && |input| <= i < |src|
    requires ConcatMap(read(src[i]), f) == []
    requires out' == out + ConcatMap(read(src[i]), f)
    requires src' == if same then out' else src
    ensures Scanned(input, start, same, i + 1, src', out', done, read, f) && src' == src
  {
    assert out' == out;
    assert input[..|input|] == input;
  }

  lemma ScanEnds(input: seq<Metric>, start: seq<Metric>, same: bool, i: nat, src: seq<Metric>, out: seq<Metric>,
                 done: seq<Sample>, read: Metric -> seq<Sample>, f: Sample -> seq<Metric>)
    requires Scanned(input, start, same, i, src, out, done, read, f) && i >= |src|
    ensures done == ConcatMap(input, read) && out == start + ConcatMap(ConcatMap(input, read), f)
  {
    assert input[..|input|] == input;
  }

  /** One more metric of the input. */
  lemma ScanOn(input: seq<Metric>, start: seq<Metric>, same: bool, i: nat, src: seq<Metric>, out: seq<Metric>,
               done: seq<Sample>, read: Metric -> seq<Sample>, f: Sample -> seq<Metric>,
               src': seq<Metric>, out': seq<Metric>)
    requires Scanned(input, start, same, i, src, out, done, read, f) && i < |input|
    requires out' == out + ConcatMap(read(src[i]), f)
    requires src' == if same then out' else src
    ensures Scanned(input, start, same, i + 1, src', out', done + read(src[i]), read, f)
  {
    assert src[i] == input[i];
    ConcatMapPrefix(input, i, read);
    ConcatMapConcat(done, read(src[i]), f);
    Associative(start, ConcatMap(done, f), ConcatMap(read(src[i]), f));
  }
}
