/** Memory metrics: interdependent 64-bit accumulators over the memory states. */
module Memory {
  import opened Int64
  import opened Sums
  import opened Pdata
  import opened Readings
  import opened RemappedMetric

  const USAGE := "system.memory.usage"
  const UTILIZATION := "system.memory.utilization"

  function Reads(m: Metric): seq<Sample> {
    if m.name == USAGE || m.name == UTILIZATION then Points(m) else []
  }

  predicate WellTyped(src: seq<Metric>) {
    forall m :: m in src ==>
      && (m.name == USAGE ==> m.kind.Sum?)
      && (m.name == UTILIZATION ==> m.kind.Gauge?)
  }

  function StateOf(s: Sample): string {
    StrOf(s.dp.attributes, "state")
  }

  // ---------- What the accumulators mean ----------

  /** The bytes of a usage datapoint in this state, zero for other datapoints. */
  function Bytes(state: string): Sample -> int {
    (s: Sample) => if s.metric == USAGE && StateOf(s) == state then s.dp.IntValue() else 0
  }

  predicate CountsInTotal(state: string) {
    state == "cached" || state == "free" || state == "used" || state == "buffered"
  }

  predicate IsActuallyUsed(state: string) {
    state == "used" || state == "buffered" || state == "slab_unreclaimable" || state == "slab_reclaimable"
  }

  function TotalBytes(): Sample -> int {
    (s: Sample) => if s.metric == USAGE && CountsInTotal(StateOf(s)) then s.dp.IntValue() else 0
  }

  function ActualBytes(): Sample -> int {
    (s: Sample) => if s.metric == USAGE && IsActuallyUsed(StateOf(s)) then s.dp.IntValue() else 0
  }

  function ActualShare(): Sample -> real {
    (s: Sample) => if s.metric == UTILIZATION && IsActuallyUsed(StateOf(s)) then s.dp.DoubleValue() else 0.0
  }

  /** The last usage read in this state, zero if there is none. */
  function LastBytes(ss: seq<Sample>, state: string): int64 {
    LastInt(ss, With(USAGE, "state", state))
  }

  /** One minus the last free share read, zero if there is none. */
  function UsedShare(ss: seq<Sample>): real {
    if ss == [] then 0.0
    else
      var s := ss[|ss| - 1];
      if s.metric == UTILIZATION && StateOf(s) == "free" then 1.0 - s.dp.DoubleValue() else UsedShare(ss[..|ss| - 1])
  }

  /** The registers during the scan; until its end `usedBytes` only holds minus the free bytes. */
  datatype Registers = Registers(total: int64, free: int64, cached: int64, usedBytes: int64, actualUsedBytes: int64,
                                 usedPercent: real, actualUsedPercent: real)

  function RegistersOf(ss: seq<Sample>): Registers {
    Registers(Wrap(SumInt(ss, TotalBytes())), LastBytes(ss, "free"), LastBytes(ss, "cached"),
              Wrap(-SumInt(ss, Bytes("free"))), Wrap(SumInt(ss, ActualBytes())),
              UsedShare(ss), SumReal(ss, ActualShare()))
  }

  function AddUsage(r: Registers, state: string, v: int64): Registers {
    if state == "cached" then r.(cached := v, total := Wrap(r.total + v))
    else if state == "free" then r.(free := v, usedBytes := Wrap(r.usedBytes - v), total := Wrap(r.total + v))
    else if state == "used" || state == "buffered" then
      r.(total := Wrap(r.total + v), actualUsedBytes := Wrap(r.actualUsedBytes + v))
    else if state == "slab_unreclaimable" || state == "slab_reclaimable" then
      r.(actualUsedBytes := Wrap(r.actualUsedBytes + v))
    else r
  }

  function AddShare(r: Registers, state: string, v: real): Registers {
    if state == "free" then r.(usedPercent := 1.0 - v)
    else if IsActuallyUsed(state) then r.(actualUsedPercent := r.actualUsedPercent + v)
    else r
  }

  function Output(ts: Timestamp, r: Registers, usedBytes: int64, actualFree: int64): seq<Remapped> {
    [OfInt(Sum, "system.memory.total", ts, r.total),
     OfInt(Sum, "system.memory.free", ts, r.free),
     OfInt(Sum, "system.memory.cached", ts, r.cached),
     OfInt(Sum, "system.memory.used.bytes", ts, usedBytes),
     OfInt(Sum, "system.memory.actual.used.bytes", ts, r.actualUsedBytes),
     OfInt(Sum, "system.memory.actual.free", ts, actualFree),
     OfReal(Gauge, "system.memory.used.pct", ts, r.usedPercent),
     OfReal(Gauge, "system.memory.actual.used.pct", ts, r.actualUsedPercent)]
  }

  /** What the datapoints read are remapped to, in terms of sums over states. */
  function OutputOf(ss: seq<Sample>): seq<Remapped> {
    Output(FirstTimestamp(ss), RegistersOf(ss),
           Wrap(SumInt(ss, TotalBytes()) - SumInt(ss, Bytes("free"))),
           Wrap(SumInt(ss, TotalBytes()) - SumInt(ss, ActualBytes())))
  }

  function Remap(src: seq<Metric>, mutator: Mutator): seq<Metric> {
    Added(OutputOf(ConcatMap(src, Reads)), mutator)
  }

  // ---------- The scan ----------

  method RemapMemoryMetrics(src: MetricSlice, out: MetricSlice, mutator: Mutator)
    requires WellTyped(src.items)
    modifies out
    ensures out.items == old(out.items) + Remap(old(src.items), mutator)
  {
    var timestamp, r := ReadMemoryMetrics(src);
    ghost var ss := ConcatMap(src.items, Reads);
    var usedBytes := Wrap(r.usedBytes + r.total);
    var actualFree := Wrap(r.total - r.actualUsedBytes);
    FinalRegisters(ss);
    Add(out, mutator, Output(timestamp, r, usedBytes, actualFree));
  }

  lemma FinalRegisters(ss: seq<Sample>)
    ensures var r := RegistersOf(ss);
            OutputOf(ss) == Output(FirstTimestamp(ss), r, Wrap(r.usedBytes + r.total),
                                   Wrap(r.total - r.actualUsedBytes))
  {
    WrapAdd(-SumInt(ss, Bytes("free")), SumInt(ss, TotalBytes()));
    WrapSub(SumInt(ss, TotalBytes()), SumInt(ss, ActualBytes()));
  }

  method ReadMemoryMetrics(src: MetricSlice) returns (timestamp: Timestamp, r: Registers)
    requires WellTyped(src.items)
    ensures timestamp == FirstTimestamp(ConcatMap(src.items, Reads))
    ensures r == RegistersOf(ConcatMap(src.items, Reads))
  {
    timestamp := 0;
    r := Registers(0, 0, 0, 0, 0, 0.0, 0.0);
    ghost var done: seq<Sample> := [];
    for i := 0 to |src.items|
      invariant done == ConcatMap(src.items[..i], Reads)
      invariant timestamp == FirstTimestamp(done) && r == RegistersOf(done)
    {
      var metric := src.items[i];
      ConcatMapPrefix(src.items, i, Reads);
      ghost var before := done;
      if metric.name == USAGE || metric.name == UTILIZATION {
        for j := 0 to |metric.dataPoints|
          invariant done == before + Points(metric)[..j]
          invariant timestamp == FirstTimestamp(done) && r == RegistersOf(done)
        {
          var dp := metric.dataPoints[j];
          ghost var s := Points(metric)[j];
          FirstTimestampSnoc(done, s);
          if timestamp == 0 {
            timestamp := dp.timestamp;
          }
          if metric.name == USAGE {
            UsageRead(done, s);
            r := AddUsage(r, StrOf(dp.attributes, "state"), dp.IntValue());
          } else {
            ShareRead(done, s);
            r := AddShare(r, StrOf(dp.attributes, "state"), dp.DoubleValue());
          }
          PointsPrefix(metric, j);
          Associative(before, Points(metric)[..j], [s]);
          done := done + [s];
        }
        assert Points(metric)[..|metric.dataPoints|] == Points(metric);
      }
    }
    assert src.items[..|src.items|] == src.items;
  }

  lemma UsageRead(ss: seq<Sample>, s: Sample)
    requires s.metric == USAGE
    ensures RegistersOf(ss + [s]) == AddUsage(RegistersOf(ss), StateOf(s), s.dp.IntValue())
  {
    assert (ss + [s])[..|ss|] == ss;
    BytesRead(SumInt(ss, TotalBytes()), TotalBytes()(s));
    BytesRead(SumInt(ss, ActualBytes()), ActualBytes()(s));
    BytesRead(-SumInt(ss, Bytes("free")), -Bytes("free")(s));
  }

  lemma ShareRead(ss: seq<Sample>, s: Sample)
    requires s.metric == UTILIZATION
    ensures RegistersOf(ss + [s]) == AddShare(RegistersOf(ss), StateOf(s), s.dp.DoubleValue())
  {
    assert (ss + [s])[..|ss|] == ss;
  }

  /** One wrapping addition to a register that holds a wrapped sum. */
  lemma BytesRead(sum: int, v: int)
    ensures Wrap(sum + v) == Wrap(Wrap(sum) + v)
  {
    WrapAdd(sum, v);
  }

  // ---------- Identities ----------

  function SumOverStates(ss: seq<Sample>, a: string, b: string, c: string, d: string): int {
    SumInt(ss, Bytes(a)) + SumInt(ss, Bytes(b)) + SumInt(ss, Bytes(c)) + SumInt(ss, Bytes(d))
  }

  lemma {:induction false} SumsByState(ss: seq<Sample>)
    ensures SumInt(ss, TotalBytes()) == SumOverStates(ss, "cached", "free", "used", "buffered")
    ensures SumInt(ss, ActualBytes()) == SumOverStates(ss, "used", "buffered", "slab_unreclaimable", "slab_reclaimable")
  {
    if ss != [] {
      SumsByState(ss[..|ss| - 1]);
    }
  }

  /** Some time is set, so that the eight metrics are emitted. */
  predicate Emits(src: seq<Metric>) {
    FirstTimestamp(ConcatMap(src, Reads)) != 0
  }

  /** The names of the six integers, in order. */
  predicate NamesInOrder(out: seq<Metric>) {
    && |out| == 8
    && out[0].name == "system.memory.total" && out[1].name == "system.memory.free"
    && out[2].name == "system.memory.cached" && out[3].name == "system.memory.used.bytes"
    && out[4].name == "system.memory.actual.used.bytes" && out[5].name == "system.memory.actual.free"
  }

  lemma PlannedValues(ss: seq<Sample>)
    ensures var out, ts := OutputOf(ss), FirstTimestamp(ss);
            var total, free, actual := SumInt(ss, TotalBytes()), SumInt(ss, Bytes("free")), SumInt(ss, ActualBytes());
            && |out| == 8
            && out[0] == OfInt(Sum, "system.memory.total", ts, Wrap(total))
            && out[1] == OfInt(Sum, "system.memory.free", ts, LastBytes(ss, "free"))
            && out[2] == OfInt(Sum, "system.memory.cached", ts, LastBytes(ss, "cached"))
            && out[3] == OfInt(Sum, "system.memory.used.bytes", ts, Wrap(total - free))
            && out[4] == OfInt(Sum, "system.memory.actual.used.bytes", ts, Wrap(actual))
            && out[5] == OfInt(Sum, "system.memory.actual.free", ts, Wrap(total - actual))
  {
  }

  lemma EmittedSays(src: seq<Metric>, mutator: Mutator)
    requires Emits(src)
    ensures var out, plan := Remap(src, mutator), OutputOf(ConcatMap(src, Reads));
            && |out| == |plan| == 8
            && Says(out[0], plan[0]) && Says(out[1], plan[1]) && Says(out[2], plan[2])
            && Says(out[3], plan[3]) && Says(out[4], plan[4]) && Says(out[5], plan[5])
  {
    NoneOrEight(src, mutator);
  }

  /** The six integers of an output. */
  predicate ValuesAre(out: seq<Metric>, ss: seq<Sample>) {
    var total, free, actual := SumInt(ss, TotalBytes()), SumInt(ss, Bytes("free")), SumInt(ss, ActualBytes());
    && NamesInOrder(out)
    && IntAt(out, 0) == Wrap(total) && IntAt(out, 1) == LastBytes(ss, "free")
    && IntAt(out, 2) == LastBytes(ss, "cached") && IntAt(out, 3) == Wrap(total - free)
    && IntAt(out, 4) == Wrap(actual) && IntAt(out, 5) == Wrap(total - actual)
  }

  /** The emitted integers, read off the output. */
  lemma EmittedValues(src: seq<Metric>, mutator: Mutator)
    requires Emits(src)
    ensures ValuesAre(Remap(src, mutator), ConcatMap(src, Reads))
  {
    EmittedSays(src, mutator);
    PlannedValues(ConcatMap(src, Reads));
  }

  /** The memory identities on 64-bit registers, for every series of datapoints. */
  predicate IdentitiesHold(out: seq<Metric>, ss: seq<Sample>) {
    && NamesInOrder(out)
    && IntAt(out, 0) == Wrap(SumOverStates(ss, "cached", "free", "used", "buffered"))
    && IntAt(out, 3) ==
       Wrap(SumInt(ss, Bytes("cached")) + SumInt(ss, Bytes("used")) + SumInt(ss, Bytes("buffered")))
    && IntAt(out, 5) ==
       Wrap(SumInt(ss, Bytes("cached")) + SumInt(ss, Bytes("free"))
            - SumInt(ss, Bytes("slab_unreclaimable")) - SumInt(ss, Bytes("slab_reclaimable")))
  }

  lemma MemoryIdentities(src: seq<Metric>, mutator: Mutator)
    requires Emits(src)
    ensures IdentitiesHold(Remap(src, mutator), ConcatMap(src, Reads))
  {
    EmittedValues(src, mutator);
    IdentitiesFollow(Remap(src, mutator), ConcatMap(src, Reads));
  }

  lemma IdentitiesFollow(out: seq<Metric>, ss: seq<Sample>)
    requires ValuesAre(out, ss)
    ensures IdentitiesHold(out, ss)
  {
    WrappedByState(ss);
  }

  lemma WrappedByState(ss: seq<Sample>)
    ensures Wrap(SumInt(ss, TotalBytes())) == Wrap(SumOverStates(ss, "cached", "free", "used", "buffered"))
    ensures Wrap(SumInt(ss, TotalBytes()) - SumInt(ss, Bytes("free"))) ==
            Wrap(SumInt(ss, Bytes("cached")) + SumInt(ss, Bytes("used")) + SumInt(ss, Bytes("buffered")))
    ensures Wrap(SumInt(ss, TotalBytes()) - SumInt(ss, ActualBytes())) ==
            Wrap(SumInt(ss, Bytes("cached")) + SumInt(ss, Bytes("free"))
                 - SumInt(ss, Bytes("slab_unreclaimable")) - SumInt(ss, Bytes("slab_reclaimable")))
  {
    SumsByState(ss);
  }

  lemma ActualFreePlusUsedIsTotal(src: seq<Metric>, mutator: Mutator)
    requires Emits(src)
    ensures var out := Remap(src, mutator);
            NamesInOrder(out) && Wrap(IntAt(out, 5) + IntAt(out, 4)) == IntAt(out, 0)
  {
    EmittedValues(src, mutator);
    PartsFollow(Remap(src, mutator), ConcatMap(src, Reads));
  }

  lemma PartsFollow(out: seq<Metric>, ss: seq<Sample>)
    requires ValuesAre(out, ss)
    ensures NamesInOrder(out) && Wrap(IntAt(out, 5) + IntAt(out, 4)) == IntAt(out, 0)
  {
    WrappedParts(SumInt(ss, TotalBytes()), SumInt(ss, ActualBytes()));
  }

  /** Used and free make up the total exactly when the last free value is the sum of all of
      them, in particular when there is at most one. */
  lemma UsedPlusFreeIff(src: seq<Metric>, mutator: Mutator)
    requires Emits(src)
    ensures var ss, out := ConcatMap(src, Reads), Remap(src, mutator);
            && NamesInOrder(out)
            && (Wrap(IntAt(out, 3) + IntAt(out, 1)) == IntAt(out, 0) <==>
                Wrap(SumInt(ss, Bytes("free"))) == LastBytes(ss, "free"))
  {
    var ss := ConcatMap(src, Reads);
    EmittedValues(src, mutator);
    WrappedDifference(SumInt(ss, TotalBytes()), SumInt(ss, Bytes("free")), LastBytes(ss, "free"));
  }

  /** The shortest input on which they do not: two free datapoints of one byte each. */
  lemma TwoFreeDatapoints(mutator: Mutator) returns (src: seq<Metric>)
    ensures WellTyped(src) && Emits(src)
    ensures var out := Remap(src, mutator);
            NamesInOrder(out) && IntAt(out, 0) == 2 && IntAt(out, 3) == 0 && IntAt(out, 1) == 1
  {
    var dp := DataPoint(map["state" := StrValue("free")], IntNumber(1), 1, 0);
    var s := Sample(USAGE, dp);
    src := [Metric(USAGE, MetricType.Sum, [dp, dp])];
    assert ConcatMap(src, Reads) == [s, s] by {
      assert src == [] + src && Points(src[0]) == [s, s];
      ConcatMapSnoc([], src[0], Reads);
    }
    TwoFreeSums(s);
    EmittedValues(src, mutator);
  }

  lemma TwoFreeSums(s: Sample)
    requires IsFree(s) && s.dp.IntValue() == 1 && s.dp.timestamp == 1
    ensures SumInt([s, s], TotalBytes()) == SumInt([s, s], Bytes("free")) == 2
    ensures LastBytes([s, s], "free") == 1 && FirstTimestamp([s, s]) == 1
  {
    var none: seq<Sample> := [];
    assert [s, s] == none + [s] + [s];
    SumIntSnoc(none, s, TotalBytes());
    SumIntSnoc(none + [s], s, TotalBytes());
    SumIntSnoc(none, s, Bytes("free"));
    SumIntSnoc(none + [s], s, Bytes("free"));
    FirstTimestampSnoc(none, s);
    FirstTimestampSnoc(none + [s], s);
  }

  lemma WrappedParts(total: int, part: int)
    ensures Wrap(Wrap(total - part) + Wrap(part)) == Wrap(total)
  {
    WrapAdd(total - part, part);
  }

  lemma WrappedDifference(total: int, free: int, last: int64)
    ensures Wrap(Wrap(total - free) + last) == Wrap(total) <==> Wrap(free) == last
  {
    WrapAdd(total - free, last);
    WrapEqualIff(total - free + last, total);
    WrapEqualIff(last, free);
  }

  predicate IsFree(s: Sample) {
    s.metric == USAGE && StateOf(s) == "free"
  }

  ghost predicate AtMostOneFree(ss: seq<Sample>) {
    forall i, j :: 0 <= i < j < |ss| ==> !(IsFree(ss[i]) && IsFree(ss[j]))
  }

  lemma {:induction false} OneFreeIsTheSum(ss: seq<Sample>)
    requires AtMostOneFree(ss)
    ensures SumInt(ss, Bytes("free")) == LastBytes(ss, "free")
  {
    if ss != [] {
      var n := |ss| - 1;
      if IsFree(ss[n]) {
        forall s | s in ss[..n]
          ensures Bytes("free")(s) == 0
        {
          var i :| 0 <= i < n && ss[i] == s;
        }
        SumIntZero(ss[..n], Bytes("free"));
      } else {
        OneFreeIsTheSum(ss[..n]);
      }
    }
  }

  /** With one free datapoint at most, used plus free is the total. */
  lemma UsedPlusFreeIsTotal(src: seq<Metric>, mutator: Mutator)
    requires Emits(src) && AtMostOneFree(ConcatMap(src, Reads))
    ensures var out := Remap(src, mutator);
            NamesInOrder(out) && Wrap(IntAt(out, 3) + IntAt(out, 1)) == IntAt(out, 0)
  {
    OneFreeIsTheSum(ConcatMap(src, Reads));
    UsedPlusFreeIff(src, mutator);
  }

  // ---------- Overflow ----------

  function AllBytes(): Sample -> int {
    (s: Sample) => if s.metric == USAGE then s.dp.IntValue() else 0
  }

  /** All values are non-negative and their sum fits. */
  ghost predicate Modest(ss: seq<Sample>) {
    && (forall s :: s in ss ==> AllBytes()(s) >= 0)
    && SumInt(ss, AllBytes()) < TWO_63
  }

  /** Then no register overflows after any number of datapoints... */
  lemma {:induction false} NoOverflow(ss: seq<Sample>, n: nat)
    requires Modest(ss) && n <= |ss|
    ensures Modest(ss[..n])
    ensures RegistersOf(ss[..n]).total == SumInt(ss[..n], TotalBytes())
    ensures RegistersOf(ss[..n]).actualUsedBytes == SumInt(ss[..n], ActualBytes())
    ensures RegistersOf(ss[..n]).usedBytes == -SumInt(ss[..n], Bytes("free"))
    decreases |ss| - n
  {
    if n == |ss| {
      assert ss[..n] == ss;
    } else {
      NoOverflow(ss, n + 1);
      assert ss[..n + 1] == ss[..n] + [ss[n]];
      SumIntSnoc(ss[..n], ss[n], AllBytes());
    }
    SumBounds(ss[..n]);
  }

  lemma {:induction false} SumBounds(ss: seq<Sample>)
    requires forall s :: s in ss ==> AllBytes()(s) >= 0
    ensures 0 <= SumInt(ss, Bytes("free")) <= SumInt(ss, TotalBytes()) <= SumInt(ss, AllBytes())
    ensures 0 <= SumInt(ss, ActualBytes()) <= SumInt(ss, AllBytes())
  {
    if ss != [] {
      SumBounds(ss[..|ss| - 1]);
      assert AllBytes()(ss[|ss| - 1]) >= 0;
    }
  }

  /** ...and the identities hold in the integers. */
  lemma IdentitiesWithoutOverflow(src: seq<Metric>, mutator: Mutator)
    requires Emits(src) && Modest(ConcatMap(src, Reads))
    ensures var ss, out := ConcatMap(src, Reads), Remap(src, mutator);
            && NamesInOrder(out)
            && IntAt(out, 5) + IntAt(out, 4) == IntAt(out, 0)
            && IntAt(out, 3) ==
               SumInt(ss, Bytes("cached")) + SumInt(ss, Bytes("used")) + SumInt(ss, Bytes("buffered"))
            && (AtMostOneFree(ss) ==> IntAt(out, 3) + IntAt(out, 1) == IntAt(out, 0))
  {
    var ss := ConcatMap(src, Reads);
    EmittedValues(src, mutator);
    ModestValues(ss);
    if AtMostOneFree(ss) {
      OneFreeIsTheSum(ss);
    }
  }

  lemma ModestValues(ss: seq<Sample>)
    requires Modest(ss)
    ensures var total, free, actual := SumInt(ss, TotalBytes()), SumInt(ss, Bytes("free")), SumInt(ss, ActualBytes());
            && Wrap(total) == total && Wrap(actual) == actual
            && Wrap(total - free) == total - free && Wrap(total - actual) == total - actual
            && total - free == SumInt(ss, Bytes("cached")) + SumInt(ss, Bytes("used")) + SumInt(ss, Bytes("buffered"))
  {
    SumBounds(ss);
    SumsByState(ss);
  }

  // ---------- Output ----------

  lemma OutputShape(ss: seq<Sample>)
    ensures forall k :: 0 <= k < |OutputOf(ss)| ==>
      Recognised(OutputOf(ss)[k], FirstTimestamp(ss)) && Unread(OutputOf(ss)[k].name)
  {
  }

  predicate Unread(name: string) {
    name != USAGE && name != UTILIZATION
  }

  /** Nothing or eight metrics are appended, all with the first time that is set. */
  lemma NoneOrEight(src: seq<Metric>, mutator: Mutator)
    ensures var ss := ConcatMap(src, Reads);
            NoneOrAll(Remap(src, mutator), OutputOf(ss), FirstTimestamp(ss)) && |OutputOf(ss)| == 8
  {
    var ss := ConcatMap(src, Reads);
    OutputShape(ss);
    AddedNoneOrAll(OutputOf(ss), mutator, FirstTimestamp(ss));
  }

  // ---------- Name by name ----------

  /** The sum of the datapoints in this state. */
  function Total(usage: seq<DataPoint>, state: string): int {
    IntSum(Where(usage, "state", state))
  }

  function Share(utilization: seq<DataPoint>, state: string): real {
    RealSum(Where(utilization, "state", state))
  }

  /** One minus the last free share, zero when there is none. */
  function NotFree(free: seq<DataPoint>): real {
    if free == [] then 0.0 else 1.0 - LatestReal(free)
  }

  lemma BytesByName(src: seq<Metric>, state: string)
    requires state != ""
    ensures SumInt(ConcatMap(src, Reads), Bytes(state)) == Total(PointsOf(src, USAGE), state)
    ensures LastBytes(ConcatMap(src, Reads), state) ==
            LatestInt(Where(PointsOf(src, USAGE), "state", state))
  {
    var picks := Picks(USAGE, "state", state);
    KeptIsWhere(src, Reads, USAGE, "state", state);
    IntRegister(ConcatMap(src, Reads), Bytes(state), picks);
    LastIntRegister(ConcatMap(src, Reads), With(USAGE, "state", state), picks);
  }

  lemma {:induction false} UsedShareKept(ss: seq<Sample>)
    ensures UsedShare(ss) == NotFree(Kept(ss, Picks(UTILIZATION, "state", "free")))
  {
    if ss != [] {
      var n, picks := |ss| - 1, Picks(UTILIZATION, "state", "free");
      UsedShareKept(ss[..n]);
      assert Kept(ss[..n], picks) + [] == Kept(ss[..n], picks);
    }
  }

  /** The utilization of a datapoint in this state. */
  function ShareIn(state: string): Sample -> real {
    (s: Sample) => if s.metric == UTILIZATION && StateOf(s) == state then s.dp.DoubleValue() else 0.0
  }

  lemma {:induction false} SharesByState(ss: seq<Sample>)
    ensures SumReal(ss, ActualShare()) ==
            SumReal(ss, ShareIn("used")) + SumReal(ss, ShareIn("buffered")) +
            SumReal(ss, ShareIn("slab_unreclaimable")) + SumReal(ss, ShareIn("slab_reclaimable"))
  {
    if ss != [] {
      SharesByState(ss[..|ss| - 1]);
    }
  }

  lemma ShareByName(src: seq<Metric>, state: string)
    requires state != ""
    ensures SumReal(ConcatMap(src, Reads), ShareIn(state)) == Share(PointsOf(src, UTILIZATION), state)
  {
    KeptIsWhere(src, Reads, UTILIZATION, "state", state);
    RealRegister(ConcatMap(src, Reads), ShareIn(state), Picks(UTILIZATION, "state", state));
  }

  lemma RealsByName(src: seq<Metric>)
    ensures SameReals(ConcatMap(src, Reads), PointsOf(src, UTILIZATION))
  {
    UsedShareKept(ConcatMap(src, Reads));
    KeptIsWhere(src, Reads, UTILIZATION, "state", "free");
    SharesByState(ConcatMap(src, Reads));
    ShareByName(src, "used");
    ShareByName(src, "buffered");
    ShareByName(src, "slab_unreclaimable");
    ShareByName(src, "slab_reclaimable");
  }

  /** The eight metrics by name. */
  predicate AreEight(out: seq<Metric>, total: int64, free: int64, cached: int64, used: int64, actualUsed: int64,
                   actualFree: int64, usedPct: real, actualPct: real) {
    && |out| == 8
    && IsCount(out[0], "system.memory.total", total)
    && IsCount(out[1], "system.memory.free", free)
    && IsCount(out[2], "system.memory.cached", cached)
    && IsCount(out[3], "system.memory.used.bytes", used)
    && IsCount(out[4], "system.memory.actual.used.bytes", actualUsed)
    && IsCount(out[5], "system.memory.actual.free", actualFree)
    && IsGauge(out[6], "system.memory.used.pct", usedPct)
    && IsGauge(out[7], "system.memory.actual.used.pct", actualPct)
  }

  lemma OutputSays(out: seq<Metric>, ts: Timestamp, r: Registers, used: int64, actualFree: int64)
    requires NoneOrAll(out, Output(ts, r, used, actualFree), ts) && ts != 0
    ensures AreEight(out, r.total, r.free, r.cached, used, r.actualUsedBytes, actualFree, r.usedPercent,
                   r.actualUsedPercent)
  {
  }

  /** The eight metrics in terms of the datapoints of the two sources: under each name the
      usages or utilizations of its own states, on 64 bits. */
  predicate AreByState(out: seq<Metric>, usage: seq<DataPoint>, utilization: seq<DataPoint>) {
    AreEight(out,
             Wrap(Total(usage, "cached") + Total(usage, "free") + Total(usage, "used") + Total(usage, "buffered")),
             LatestInt(Where(usage, "state", "free")),
             LatestInt(Where(usage, "state", "cached")),
             Wrap(Total(usage, "cached") + Total(usage, "used") + Total(usage, "buffered")),
             Wrap(Total(usage, "used") + Total(usage, "buffered") +
                  Total(usage, "slab_unreclaimable") + Total(usage, "slab_reclaimable")),
             Wrap(Total(usage, "cached") + Total(usage, "free") -
                  Total(usage, "slab_unreclaimable") - Total(usage, "slab_reclaimable")),
             NotFree(Where(utilization, "state", "free")),
             Share(utilization, "used") + Share(utilization, "buffered") +
             Share(utilization, "slab_unreclaimable") + Share(utilization, "slab_reclaimable"))
  }

  /** Under each name the usages or utilizations of its own states. */
  lemma EmittedByName(src: seq<Metric>, mutator: Mutator)
    requires Remap(src, mutator) != []
    ensures AreByState(Remap(src, mutator),
                       PointsOf(src, "system.memory.usage"), PointsOf(src, "system.memory.utilization"))
  {
    EmittedPlan(src, mutator);
    RealsByName(src);
    IntegersByName(src);
    ByState(Remap(src, mutator), ConcatMap(src, Reads), PointsOf(src, USAGE), PointsOf(src, UTILIZATION));
  }

  /** The sums over samples are those over the datapoints of the two sources. */
  predicate SameIntegers(ss: seq<Sample>, usage: seq<DataPoint>) {
    && SumInt(ss, TotalBytes()) ==
         Total(usage, "cached") + Total(usage, "free") + Total(usage, "used") + Total(usage, "buffered")
    && SumInt(ss, ActualBytes()) ==
         Total(usage, "used") + Total(usage, "buffered") +
         Total(usage, "slab_unreclaimable") + Total(usage, "slab_reclaimable")
    && SumInt(ss, Bytes("free")) == Total(usage, "free")
    && LastBytes(ss, "free") == LatestInt(Where(usage, "state", "free"))
    && LastBytes(ss, "cached") == LatestInt(Where(usage, "state", "cached"))
  }

  predicate SameReals(ss: seq<Sample>, utilization: seq<DataPoint>) {
    && UsedShare(ss) == NotFree(Where(utilization, "state", "free"))
    && SumReal(ss, ActualShare()) ==
         Share(utilization, "used") + Share(utilization, "buffered") +
         Share(utilization, "slab_unreclaimable") + Share(utilization, "slab_reclaimable")
  }

  lemma ByState(out: seq<Metric>, ss: seq<Sample>, usage: seq<DataPoint>, utilization: seq<DataPoint>)
    requires SumsArePlanned(out, ss) && SameIntegers(ss, usage) && SameReals(ss, utilization)
    ensures AreByState(out, usage, utilization)
  {
    Renamed(out, SumInt(ss, TotalBytes()), SumInt(ss, Bytes("free")), SumInt(ss, ActualBytes()),
            LastBytes(ss, "free"), LastBytes(ss, "cached"), UsedShare(ss), SumReal(ss, ActualShare()),
            Total(usage, "cached"), Total(usage, "free"), Total(usage, "used"), Total(usage, "buffered"),
            Total(usage, "slab_unreclaimable"), Total(usage, "slab_reclaimable"));
  }

  lemma Renamed(out: seq<Metric>, total: int, totalFree: int, actual: int, lastFree: int64, lastCached: int64,
                usedPct: real, actualPct: real,
                cached: int, free: int, used: int, buffered: int, unreclaimable: int, reclaimable: int)
    requires AreEight(out, Wrap(total), lastFree, lastCached, Wrap(total - totalFree), Wrap(actual),
                      Wrap(total - actual), usedPct, actualPct)
    requires total == cached + free + used + buffered && totalFree == free
    requires actual == used + buffered + unreclaimable + reclaimable
    ensures AreEight(out, Wrap(cached + free + used + buffered), lastFree, lastCached,
                     Wrap(cached + used + buffered), Wrap(used + buffered + unreclaimable + reclaimable),
                     Wrap(cached + free - unreclaimable - reclaimable), usedPct, actualPct)
  {
    assert total - totalFree == cached + used + buffered;
    assert total - actual == cached + free - unreclaimable - reclaimable;
  }

  /** The emitted metrics in terms of sums over states. */
  lemma EmittedPlan(src: seq<Metric>, mutator: Mutator)
    requires Remap(src, mutator) != []
    ensures SumsArePlanned(Remap(src, mutator), ConcatMap(src, Reads))
  {
    var ss := ConcatMap(src, Reads);
    NoneOrEight(src, mutator);
    SumsSaid(Remap(src, mutator), ss);
  }

  predicate SumsArePlanned(out: seq<Metric>, ss: seq<Sample>) {
    var total, free, actual := SumInt(ss, TotalBytes()), SumInt(ss, Bytes("free")), SumInt(ss, ActualBytes());
    AreEight(out, Wrap(total), LastBytes(ss, "free"), LastBytes(ss, "cached"), Wrap(total - free), Wrap(actual),
           Wrap(total - actual), UsedShare(ss), SumReal(ss, ActualShare()))
  }

  lemma SumsSaid(out: seq<Metric>, ss: seq<Sample>)
    requires NoneOrAll(out, OutputOf(ss), FirstTimestamp(ss)) && FirstTimestamp(ss) != 0
    ensures SumsArePlanned(out, ss)
  {
    OutputSays(out, FirstTimestamp(ss), RegistersOf(ss),
               Wrap(SumInt(ss, TotalBytes()) - SumInt(ss, Bytes("free"))),
               Wrap(SumInt(ss, TotalBytes()) - SumInt(ss, ActualBytes())));
  }

  lemma IntegersByName(src: seq<Metric>)
    ensures SameIntegers(ConcatMap(src, Reads), PointsOf(src, USAGE))
  {
    SumsByState(ConcatMap(src, Reads));
    BytesByName(src, "cached");
    BytesByName(src, "free");
    BytesByName(src, "used");
    BytesByName(src, "buffered");
    BytesByName(src, "slab_unreclaimable");
    BytesByName(src, "slab_reclaimable");
  }

  // ---------- Own output is never remapped again ----------

  lemma OutputIsDead(src: seq<Metric>, mutator: Mutator)
    ensures forall m :: m in Remap(src, mutator) ==> Unread(m.name)
  {
    OutputShape(ConcatMap(src, Reads));
    AddedNames(OutputOf(ConcatMap(src, Reads)), mutator, Unread);
  }

  lemma ExtraIsIgnored(src: seq<Metric>, extra: seq<Metric>, mutator: Mutator)
    requires forall m :: m in extra ==> Unread(m.name)
    ensures Remap(src + extra, mutator) == Remap(src, mutator)
    ensures WellTyped(src) ==> WellTyped(src + extra)
  {
    ConcatMapIgnores(src, extra, Reads);
  }

  /** The input together with its own remapping is well typed and remapped like the input. */
  lemma OutputIsNotReconsumed(src: seq<Metric>, m1: Mutator, m2: Mutator)
    ensures Remap(src + Remap(src, m1), m2) == Remap(src, m2)
    ensures WellTyped(src) ==> WellTyped(src + Remap(src, m1))
  {
    OutputIsDead(src, m1);
    ExtraIsIgnored(src, Remap(src, m1), m2);
  }
}
