/** What a slice of metrics says, by literal names: the vocabulary in which outputs are compared
    with sources, independent of the order and the accumulators of any scan. */
module Readings {
  import opened Int64
  import opened Sums
  import opened Pdata

  // ---------- Sources ----------

  /** The datapoints of all metrics of this name, in order. */
  function PointsOf(src: seq<Metric>, metric: string): seq<DataPoint> {
    if src == [] then []
    else
      var m := src[|src| - 1];
      PointsOf(src[..|src| - 1], metric) + if m.name == metric then m.dataPoints else []
  }

  /** The first datapoint of each metric of this name, in order. */
  function FirstsOf(src: seq<Metric>, metric: string): seq<DataPoint> {
    if src == [] then []
    else
      var m := src[|src| - 1];
      FirstsOf(src[..|src| - 1], metric) + if m.name == metric && m.dataPoints != [] then [m.dataPoints[0]] else []
  }

  /** The datapoint has this string attribute. */
  predicate HasStr(dp: DataPoint, key: string, v: string) {
    key in dp.attributes && dp.attributes[key] == StrValue(v)
  }

  /** The datapoints with this string attribute, in order. */
  function Where(ps: seq<DataPoint>, key: string, v: string): seq<DataPoint> {
    if ps == [] then []
    else
      var dp := ps[|ps| - 1];
      Where(ps[..|ps| - 1], key, v) + if HasStr(dp, key, v) then [dp] else []
  }

  function IntIn(dp: DataPoint): int64 {
    match dp.value
    case IntNumber(i) => i
    case _ => 0
  }

  function RealIn(dp: DataPoint): real {
    match dp.value
    case DoubleNumber(Finite(r)) => r
    case _ => 0.0
  }

  function IntSum(ps: seq<DataPoint>): int {
    if ps == [] then 0 else IntSum(ps[..|ps| - 1]) + IntIn(ps[|ps| - 1])
  }

  function RealSum(ps: seq<DataPoint>): real {
    if ps == [] then 0.0 else RealSum(ps[..|ps| - 1]) + RealIn(ps[|ps| - 1])
  }

  /** The integer of the last one, zero if there is none. */
  function LatestInt(ps: seq<DataPoint>): int64 {
    if ps == [] then 0 else IntIn(ps[|ps| - 1])
  }

  /** The floating point value of the last one, zero if there is none. */
  function LatestReal(ps: seq<DataPoint>): real {
    if ps == [] then 0.0 else RealIn(ps[|ps| - 1])
  }

  // ---------- Outputs ----------

  predicate Holds(m: Metric, kind: MetricType, name: string, v: Number) {
    m.name == name && m.kind == kind && |m.dataPoints| == 1 && m.dataPoints[0].value == v
  }

  /** A sum with one datapoint that holds an integer. */
  predicate IsCount(m: Metric, name: string, i: int) {
    InRange(i) && Holds(m, Sum, name, IntNumber(i))
  }

  /** A gauge with one datapoint that holds a floating point value. */
  predicate IsGauge(m: Metric, name: string, r: real) {
    Holds(m, Gauge, name, DoubleNumber(Finite(r)))
  }

  /** A sum with one datapoint that holds a floating point value. */
  predicate IsTime(m: Metric, name: string, r: real) {
    Holds(m, Sum, name, DoubleNumber(Finite(r)))
  }

  // ---------- Scans ----------

  /** The datapoints of the samples of a kind, in order. */
  function Kept(ss: seq<Sample>, p: Sample -> bool): seq<DataPoint> {
    if ss == [] then []
    else
      var s := ss[|ss| - 1];
      Kept(ss[..|ss| - 1], p) + if p(s) then [s.dp] else []
  }

  lemma {:induction false} KeptConcat(a: seq<Sample>, b: seq<Sample>, p: Sample -> bool)
    ensures Kept(a + b, p) == Kept(a, p) + Kept(b, p)
  {
    if b == [] {
      assert a + b == a;
    } else {
      var n := |b| - 1;
      assert (a + b)[..|a| + n] == a + b[..n];
      KeptConcat(a, b[..n], p);
    }
  }

  lemma {:induction false} KeptNone(ss: seq<Sample>, p: Sample -> bool)
    requires forall s :: s in ss ==> !p(s)
    ensures Kept(ss, p) == []
  {
    if ss != [] {
      KeptNone(ss[..|ss| - 1], p);
    }
  }

  lemma {:induction false} WhereConcat(a: seq<DataPoint>, b: seq<DataPoint>, key: string, v: string)
    ensures Where(a + b, key, v) == Where(a, key, v) + Where(b, key, v)
  {
    if b == [] {
      assert a + b == a;
    } else {
      var n := |b| - 1;
      assert (a + b)[..|a| + n] == a + b[..n];
      WhereConcat(a, b[..n], key, v);
    }
  }

  /** Samples of this metric with this string attribute. */
  function Picks(metric: string, key: string, v: string): Sample -> bool {
    (s: Sample) => s.metric == metric && HasStr(s.dp, key, v)
  }

  lemma {:induction false} KeptOfMetric(m: Metric, n: nat, key: string, v: string)
    requires n <= |m.dataPoints|
    ensures Kept(Points(m)[..n], Picks(m.name, key, v)) == Where(m.dataPoints[..n], key, v)
  {
    if n > 0 {
      KeptOfMetric(m, n - 1, key, v);
      assert Points(m)[..n][..n - 1] == Points(m)[..n - 1];
      assert m.dataPoints[..n][..n - 1] == m.dataPoints[..n - 1];
    }
  }

  /** The scan reads all datapoints of this metric, and no sample under a wrong name. */
  ghost predicate ReadsAll(read: Metric -> seq<Sample>, metric: string) {
    && (forall m: Metric :: m.name == metric ==> read(m) == Points(m))
    && (forall m: Metric, s :: m.name != metric && s in read(m) ==> s.metric != metric)
  }

  /** The scan reads the first datapoint of this metric. */
  ghost predicate ReadsFirst(read: Metric -> seq<Sample>, metric: string) {
    && (forall m: Metric :: m.name == metric ==> read(m) == FirstPoint(m))
    && (forall m: Metric, s :: m.name != metric && s in read(m) ==> s.metric != metric)
  }

  lemma {:induction false} KeptIsWhere(src: seq<Metric>, read: Metric -> seq<Sample>, metric: string, key: string,
                                       v: string)
    requires ReadsAll(read, metric)
    ensures Kept(ConcatMap(src, read), Picks(metric, key, v)) == Where(PointsOf(src, metric), key, v)
  {
    if src != [] {
      var n := |src| - 1;
      var m, p := src[n], Picks(metric, key, v);
      KeptIsWhere(src[..n], read, metric, key, v);
      KeptConcat(ConcatMap(src[..n], read), read(m), p);
      WhereConcat(PointsOf(src[..n], metric), if m.name == metric then m.dataPoints else [], key, v);
      if m.name == metric {
        KeptOfMetric(m, |m.dataPoints|, key, v);
        assert Points(m)[..|m.dataPoints|] == Points(m) && m.dataPoints[..|m.dataPoints|] == m.dataPoints;
      } else {
        KeptNone(read(m), p);
      }
    }
  }

  lemma {:induction false} KeptIsFirsts(src: seq<Metric>, read: Metric -> seq<Sample>, metric: string)
    requires ReadsFirst(read, metric)
    ensures Kept(ConcatMap(src, read), Of(metric)) == FirstsOf(src, metric)
  {
    if src != [] {
      var n := |src| - 1;
      var m, p := src[n], Of(metric);
      KeptIsFirsts(src[..n], read, metric);
      KeptConcat(ConcatMap(src[..n], read), read(m), p);
      if m.name != metric {
        KeptNone(read(m), p);
      } else if m.dataPoints != [] {
        var s := Sample(m.name, m.dataPoints[0]);
        assert [s] == [] + [s];
        KeptConcat([], [s], p);
      }
    }
  }

  // ---------- What registers hold ----------

  lemma RealSumSnoc(ps: seq<DataPoint>, dp: DataPoint)
    ensures RealSum(ps + [dp]) == RealSum(ps) + dp.DoubleValue()
  {
    assert (ps + [dp])[..|ps|] == ps;
  }

  lemma IntSumSnoc(ps: seq<DataPoint>, dp: DataPoint)
    ensures IntSum(ps + [dp]) == IntSum(ps) + dp.IntValue()
  {
    assert (ps + [dp])[..|ps|] == ps;
  }

  lemma {:induction false} RealRegister(ss: seq<Sample>, f: Sample -> real, p: Sample -> bool)
    requires forall s :: s in ss ==> f(s) == if p(s) then s.dp.DoubleValue() else 0.0
    ensures SumReal(ss, f) == RealSum(Kept(ss, p))
  {
    if ss != [] {
      var n := |ss| - 1;
      RealRegister(ss[..n], f, p);
      assert ss[n] in ss;
      RealSumSnoc(Kept(ss[..n], p), ss[n].dp);
      assert Kept(ss[..n], p) + [] == Kept(ss[..n], p);
    }
  }

  lemma {:induction false} IntRegister(ss: seq<Sample>, f: Sample -> int, p: Sample -> bool)
    requires forall s :: s in ss ==> f(s) == if p(s) then s.dp.IntValue() else 0
    ensures SumInt(ss, f) == IntSum(Kept(ss, p))
  {
    if ss != [] {
      var n := |ss| - 1;
      IntRegister(ss[..n], f, p);
      assert ss[n] in ss;
      IntSumSnoc(Kept(ss[..n], p), ss[n].dp);
      assert Kept(ss[..n], p) + [] == Kept(ss[..n], p);
    }
  }

  lemma {:induction false} LastIntRegister(ss: seq<Sample>, q: Sample -> bool, p: Sample -> bool)
    requires forall s :: s in ss ==> q(s) == p(s)
    ensures LastInt(ss, q) == LatestInt(Kept(ss, p))
  {
    if ss != [] {
      LastIntRegister(ss[..|ss| - 1], q, p);
      assert ss[|ss| - 1] in ss;
    }
  }

  lemma {:induction false} LastRealRegister(ss: seq<Sample>, q: Sample -> bool, p: Sample -> bool)
    requires forall s :: s in ss ==> q(s) == p(s)
    ensures LastReal(ss, q) == LatestReal(Kept(ss, p))
  {
    if ss != [] {
      LastRealRegister(ss[..|ss| - 1], q, p);
      assert ss[|ss| - 1] in ss;
    }
  }
}
