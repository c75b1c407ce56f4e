/** What the filesystem output adds up to, per device and over all devices. */
module FilesystemSums {
  import opened Int64
  import opened Sums
  import opened Pdata
  import opened Readings
  import opened Reals
  import opened RemappedMetric
  import opened Filesystem

  /** The device an emitted metric is labelled with. */
  function LabelOf(m: Metric): DeviceKey {
    if m.dataPoints == [] then DeviceKey("", "", "")
    else
      var a := m.dataPoints[0].attributes;
      DeviceKey(StrOf(a, "system.filesystem.device_name"), StrOf(a, "system.filesystem.mount_point"),
                StrOf(a, "system.filesystem.type"))
  }

  function AmountIn(m: Metric): int {
    if m.dataPoints == [] then 0 else m.dataPoints[0].IntValue()
  }

  /** How many metrics have this name and device. */
  function Count(name: string, key: DeviceKey): Metric -> int {
    (m: Metric) => if m.name == name && LabelOf(m) == key then 1 else 0
  }

  /** The integer value of the metrics of this name and device. */
  function Amount(name: string, key: DeviceKey): Metric -> int {
    (m: Metric) => if m.name == name && LabelOf(m) == key then AmountIn(m) else 0
  }

  /** The integer value of the metrics of this name. */
  function AmountOf(name: string): Metric -> int {
    (m: Metric) => if m.name == name then AmountIn(m) else 0
  }

  // ---------- Single metrics ----------

  /** The one metric built is labelled with its own device, whatever the mutator before. */
  lemma LabelIsKey(ts: Timestamp, mutator: Mutator, name: string, key: DeviceKey, value: Number)
    ensures LabelOf(Built(NewMetric(ts, name, value), ChainedMutator([mutator, PutKey(key)]))) == key
  {
    var a: Attributes := map[OTEL_REMAPPED := BoolValue(true)];
    ChainOfTwo(mutator, PutKey(key), a);
    PutAllStores(mutator(a), DeviceLabels(key), 0);
    PutAllStores(mutator(a), DeviceLabels(key), 1);
    PutAllStores(mutator(a), DeviceLabels(key), 2);
  }

  lemma SumOfOne(m: Metric, f: Metric -> int)
    ensures SumInt([m], f) == f(m)
  {
    assert [m][..0] == [];
  }

  predicate Emits(ts: Timestamp, name: string, value: Number) {
    ts != 0 && name != "" && !value.NoValue?
  }

  lemma FileMetricTally(ts: Timestamp, mutator: Mutator, name: string, key: DeviceKey, value: Number,
                        n: string, k: DeviceKey)
    ensures SumInt(FileMetric(ts, mutator, name, key, value), Count(n, k)) ==
            if name == n && key == k && Emits(ts, name, value) then 1 else 0
    ensures SumInt(FileMetric(ts, mutator, name, key, value), Amount(n, k)) ==
            if name == n && key == k && Emits(ts, name, value) && value.IntNumber? then value.i else 0
    ensures SumInt(FileMetric(ts, mutator, name, key, value), AmountOf(n)) ==
            if name == n && Emits(ts, name, value) && value.IntNumber? then value.i else 0
  {
    FileMetricIs(ts, mutator, name, key, value);
    if NewMetric(ts, name, value).Valid() {
      var m := Built(NewMetric(ts, name, value), ChainedMutator([mutator, PutKey(key)]));
      LabelIsKey(ts, mutator, name, key, value);
      SumOfOne(m, Count(n, k));
      SumOfOne(m, Amount(n, k));
      SumOfOne(m, AmountOf(n));
    }
  }

  // ---------- Per device ----------

  /** The names of summaries: none of them is given to a single datapoint. */
  predicate IsSummary(name: string) {
    name == TOTAL || name == USED_PCT || name == FILES
  }

  lemma PointsAreNoSummaries(ss: seq<Sample>, mutator: Mutator, name: string, f: Metric -> int)
    requires IsSummary(name)
    requires forall m: Metric :: m.name != name ==> f(m) == 0
    ensures SumInt(ConcatMap(ss, FromPoint(mutator)), f) == 0
  {
    forall s | s in ss
      ensures forall m :: m in FromPoint(mutator)(s) ==> !IsSummary(m.name)
    {
      PointNames(s, mutator);
    }
    ConcatMapAll(ss, FromPoint(mutator), (m: Metric) => !IsSummary(m.name));
    SumIntZero(ConcatMap(ss, FromPoint(mutator)), f);
  }

  /** How many metrics named `name` the registers give, and with which integer. */
  function ExpectedCount(name: string, d: Registers): int {
    if (name == TOTAL || name == USED_PCT) && d.totalUsage > 0 then 1
    else if name == FILES && d.totalInodeUsage > 0 then 1
    else 0
  }

  function ExpectedAmount(name: string, d: Registers): int {
    if name == TOTAL && d.totalUsage > 0 then d.totalUsage
    else if name == FILES && d.totalInodeUsage > 0 then d.totalInodeUsage
    else 0
  }

  function Pct(d: Registers): Number
    requires d.totalUsage > 0
  {
    DoubleNumber(Finite(d.usedBytes as real / d.totalUsage as real))
  }

  lemma SumsTally(ts: Timestamp, mutator: Mutator, key: DeviceKey, d: Registers, n: string, k: DeviceKey)
    requires IsSummary(n)
    ensures SumInt(FromSums(ts, mutator, key, d), Count(n, k)) ==
            if key == k && ts != 0 then ExpectedCount(n, d) else 0
    ensures SumInt(FromSums(ts, mutator, key, d), Amount(n, k)) ==
            if key == k && ts != 0 then ExpectedAmount(n, d) else 0
    ensures SumInt(FromSums(ts, mutator, key, d), AmountOf(n)) == if ts != 0 then ExpectedAmount(n, d) else 0
  {
    var usage := if d.totalUsage > 0 then UsagePart(ts, mutator, key, d) else [];
    var inodes := if d.totalInodeUsage > 0
                  then FileMetric(ts, mutator, FILES, key, IntNumber(d.totalInodeUsage)) else [];
    assert FromSums(ts, mutator, key, d) == usage + inodes;
    FileMetricTally(ts, mutator, FILES, key, IntNumber(d.totalInodeUsage), n, k);
    if d.totalUsage > 0 {
      UsageTally(ts, mutator, key, d, n, k);
    }
    SumIntConcat(usage, inodes, Count(n, k));
    SumIntConcat(usage, inodes, Amount(n, k));
    SumIntConcat(usage, inodes, AmountOf(n));
  }

  function UsagePart(ts: Timestamp, mutator: Mutator, key: DeviceKey, d: Registers): seq<Metric>
    requires d.totalUsage > 0
  {
    FileMetric(ts, mutator, TOTAL, key, IntNumber(d.totalUsage)) + FileMetric(ts, mutator, USED_PCT, key, Pct(d))
  }

  lemma UsageTally(ts: Timestamp, mutator: Mutator, key: DeviceKey, d: Registers, n: string, k: DeviceKey)
    requires d.totalUsage > 0
    ensures SumInt(UsagePart(ts, mutator, key, d), Count(n, k)) ==
            if key == k && ts != 0 && (n == TOTAL || n == USED_PCT) then 1 else 0
    ensures SumInt(UsagePart(ts, mutator, key, d), Amount(n, k)) ==
            if key == k && ts != 0 && n == TOTAL then d.totalUsage else 0
    ensures SumInt(UsagePart(ts, mutator, key, d), AmountOf(n)) ==
            if ts != 0 && n == TOTAL then d.totalUsage else 0
  {
    var total := FileMetric(ts, mutator, TOTAL, key, IntNumber(d.totalUsage));
    var pct := FileMetric(ts, mutator, USED_PCT, key, Pct(d));
    FileMetricTally(ts, mutator, TOTAL, key, IntNumber(d.totalUsage), n, k);
    FileMetricTally(ts, mutator, USED_PCT, key, Pct(d), n, k);
    SumIntConcat(total, pct, Count(n, k));
    SumIntConcat(total, pct, Amount(n, k));
    SumIntConcat(total, pct, AmountOf(n));
  }

  /** Each device seen gets exactly one summary of each kind when the corresponding sum is
      positive and the last time is set, with the wrapped sum as its value, and otherwise
      none; in every order of devices. */
  lemma SummariesAreExact(ss: seq<Sample>, mutator: Mutator, order: seq<DeviceKey>, name: string, key: DeviceKey)
    requires IsOrder(order, ss) && IsSummary(name)
    ensures SumInt(Output(ss, mutator, order), Count(name, key)) ==
            if key in Keys(ss) && LastTimestamp(ss) != 0 then ExpectedCount(name, SumsFor(ss, key)) else 0
    ensures SumInt(Output(ss, mutator, order), Amount(name, key)) ==
            if key in Keys(ss) && LastTimestamp(ss) != 0 then ExpectedAmount(name, SumsFor(ss, key)) else 0
  {
    var ts, d := LastTimestamp(ss), SumsFor(ss, key);
    var f := FromDevice(ss, mutator);
    var count := if ts != 0 then ExpectedCount(name, d) else 0;
    var amount := if ts != 0 then ExpectedAmount(name, d) else 0;
    forall k | k in order
      ensures Indicator(count, key)(k) == SumInt(f(k), Count(name, key))
      ensures Indicator(amount, key)(k) == SumInt(f(k), Amount(name, key))
    {
      SumsTally(ts, mutator, k, SumsFor(ss, k), name, key);
    }
    SumIntConcatMap(order, f, Count(name, key), Indicator(count, key));
    SumIntConcatMap(order, f, Amount(name, key), Indicator(amount, key));
    SumIndicator(order, count, key);
    SumIndicator(order, amount, key);
    PointsAreNoSummaries(ss, mutator, name, Count(name, key));
    PointsAreNoSummaries(ss, mutator, name, Amount(name, key));
    SumIntConcat(ConcatMap(ss, FromPoint(mutator)), ConcatMap(order, f), Count(name, key));
    SumIntConcat(ConcatMap(ss, FromPoint(mutator)), ConcatMap(order, f), Amount(name, key));
  }

  /** A sum over the datapoints of one device. */
  function DeviceSum(ss: seq<Sample>, f: Sample -> int, key: DeviceKey): int {
    GroupSum(ss, f, KeyOf)(key)
  }

  // ---------- The used percentage ----------

  /** A percentage is the quotient of the two sums of its own device. */
  predicate PctOfItsDevice(ss: seq<Sample>, m: Metric) {
    m.name == USED_PCT ==>
      var d := SumsFor(ss, LabelOf(m));
      d.totalUsage > 0 && m.dataPoints != [] && m.dataPoints[0].value == Pct(d)
  }

  lemma PctOfSums(ss: seq<Sample>, ts: Timestamp, mutator: Mutator, key: DeviceKey)
    ensures forall m :: m in FromSums(ts, mutator, key, SumsFor(ss, key)) ==> PctOfItsDevice(ss, m)
  {
    var d := SumsFor(ss, key);
    FileMetricName(ts, mutator, TOTAL, key, IntNumber(d.totalUsage));
    FileMetricName(ts, mutator, FILES, key, IntNumber(d.totalInodeUsage));
    if d.totalUsage > 0 {
      FileMetricIs(ts, mutator, USED_PCT, key, Pct(d));
      LabelIsKey(ts, mutator, USED_PCT, key, Pct(d));
    }
  }

  lemma PctIsUsedOverTotal(ss: seq<Sample>, mutator: Mutator, order: seq<DeviceKey>)
    ensures forall m :: m in Output(ss, mutator, order) ==> PctOfItsDevice(ss, m)
  {
    forall k | k in order
      ensures forall m :: m in FromDevice(ss, mutator)(k) ==> PctOfItsDevice(ss, m)
    {
      PctOfSums(ss, LastTimestamp(ss), mutator, k);
    }
    ConcatMapAll(order, FromDevice(ss, mutator), (m: Metric) => PctOfItsDevice(ss, m));
    forall s | s in ss
      ensures forall m :: m in FromPoint(mutator)(s) ==> m.name != USED_PCT
    {
      PointNames(s, mutator);
    }
    ConcatMapAll(ss, FromPoint(mutator), (m: Metric) => m.name != USED_PCT);
  }

  /** The metric holds the share that `used` is of `total`. */
  predicate IsShare(m: Metric, used: int, total: int) {
    total > 0 && m.dataPoints != [] && m.dataPoints[0].value == DoubleNumber(Finite(used as real / total as real))
  }

  /** The bytes of the device are non-negative and their sum fits. */
  ghost predicate Modest(ss: seq<Sample>, key: DeviceKey) {
    && (forall s :: s in ss && KeyOf(s) == key ==> UsageBytes()(s) >= 0)
    && DeviceSum(ss, UsageBytes(), key) < TWO_63
  }

  lemma ModestSums(ss: seq<Sample>, key: DeviceKey)
    requires Modest(ss, key)
    ensures SumsFor(ss, key).totalUsage == DeviceSum(ss, UsageBytes(), key)
    ensures SumsFor(ss, key).usedBytes == DeviceSum(ss, UsedBytes(), key)
    ensures 0 <= DeviceSum(ss, UsedBytes(), key) <= DeviceSum(ss, UsageBytes(), key)
  {
    var total, used := OnlyKey(UsageBytes(), KeyOf, key), OnlyKey(UsedBytes(), KeyOf, key);
    forall s | s in ss
      ensures 0 <= used(s) <= total(s)
    {
      assert KeyOf(s) == key ==> UsageBytes()(s) >= 0;
    }
    SumIntAtMost(ss, used, total);
    SumIntNonNegative(ss, used);
  }

  /** Then every percentage emitted for it is its used bytes over its used and free bytes in the
      integers, and lies between zero and one. */
  lemma PctBetweenZeroAndOne(ss: seq<Sample>, mutator: Mutator, order: seq<DeviceKey>, m: Metric)
    requires m in Output(ss, mutator, order) && m.name == USED_PCT
    requires Modest(ss, LabelOf(m))
    ensures IsShare(m, DeviceSum(ss, UsedBytes(), LabelOf(m)), DeviceSum(ss, UsageBytes(), LabelOf(m)))
    ensures 0.0 <= m.dataPoints[0].DoubleValue() <= 1.0
  {
    var used, total := DeviceSum(ss, UsedBytes(), LabelOf(m)), DeviceSum(ss, UsageBytes(), LabelOf(m));
    PctIsUsedOverTotal(ss, mutator, order);
    ModestSums(ss, LabelOf(m));
    Fraction(used as real, total as real);
  }

  // ---------- Without overflow ----------

  /** Where the sums of a device fit: one total and one percentage exactly if its used and free
      bytes add up to something positive, one file count exactly if its inodes do; with those
      sums, and the used bytes over the total, as values. */
  lemma SummariesWithoutOverflow(ss: seq<Sample>, mutator: Mutator, order: seq<DeviceKey>, key: DeviceKey)
    requires IsOrder(order, ss) && key in Keys(ss) && LastTimestamp(ss) != 0
    requires InRange(DeviceSum(ss, UsageBytes(), key)) && InRange(DeviceSum(ss, InodeCount(), key))
    ensures var out, bytes := Output(ss, mutator, order), DeviceSum(ss, UsageBytes(), key);
            && SumInt(out, Count(TOTAL, key)) == SumInt(out, Count(USED_PCT, key)) == (if bytes > 0 then 1 else 0)
            && (bytes > 0 ==> SumInt(out, Amount(TOTAL, key)) == bytes)
    ensures var out, inodes := Output(ss, mutator, order), DeviceSum(ss, InodeCount(), key);
            && SumInt(out, Count(FILES, key)) == (if inodes > 0 then 1 else 0)
            && (inodes > 0 ==> SumInt(out, Amount(FILES, key)) == inodes)
    ensures InRange(DeviceSum(ss, UsedBytes(), key)) ==>
              forall m :: m in Output(ss, mutator, order) && m.name == USED_PCT && LabelOf(m) == key ==>
                IsShare(m, DeviceSum(ss, UsedBytes(), key), DeviceSum(ss, UsageBytes(), key))
  {
    PctIsUsedOverTotal(ss, mutator, order);
    SummariesAreExact(ss, mutator, order, TOTAL, key);
    SummariesAreExact(ss, mutator, order, USED_PCT, key);
    SummariesAreExact(ss, mutator, order, FILES, key);
  }

  // ---------- Conservation ----------

  lemma PointTally(s: Sample, mutator: Mutator)
    requires s.dp.timestamp != 0
    ensures SumInt(FromPoint(mutator)(s), AmountOf(USED_BYTES)) + SumInt(FromPoint(mutator)(s), AmountOf(FREE)) ==
            UsageBytes()(s)
  {
    var ts, key, v := s.dp.timestamp, KeyOf(s), IntNumber(s.dp.IntValue());
    if StateOf(s) == "used" {
      FileMetricTally(ts, mutator, USED_BYTES, key, v, USED_BYTES, key);
      FileMetricTally(ts, mutator, USED_BYTES, key, v, FREE, key);
    } else if s.metric == USAGE {
      FreeTally(ts, mutator, key, v);
    } else {
      FileMetricTally(ts, mutator, FREE_FILES, key, v, USED_BYTES, key);
      FileMetricTally(ts, mutator, FREE_FILES, key, v, FREE, key);
    }
  }

  lemma FreeTally(ts: Timestamp, mutator: Mutator, key: DeviceKey, v: Number)
    requires ts != 0 && v.IntNumber?
    ensures var free := FileMetric(ts, mutator, FREE, key, v) + FileMetric(ts, mutator, AVAILABLE, key, v);
            SumInt(free, AmountOf(USED_BYTES)) == 0 && SumInt(free, AmountOf(FREE)) == v.i
  {
    var free, available := FileMetric(ts, mutator, FREE, key, v), FileMetric(ts, mutator, AVAILABLE, key, v);
    FileMetricTally(ts, mutator, FREE, key, v, USED_BYTES, key);
    FileMetricTally(ts, mutator, FREE, key, v, FREE, key);
    FileMetricTally(ts, mutator, AVAILABLE, key, v, USED_BYTES, key);
    FileMetricTally(ts, mutator, AVAILABLE, key, v, FREE, key);
    SumIntConcat(free, available, AmountOf(USED_BYTES));
    SumIntConcat(free, available, AmountOf(FREE));
  }

  /** Used and free bytes emitted datapoint by datapoint. */
  lemma {:induction false} PointsConserved(ss: seq<Sample>, mutator: Mutator)
    requires forall s :: s in ss ==> s.dp.timestamp != 0
    ensures var points := ConcatMap(ss, FromPoint(mutator));
            SumInt(points, AmountOf(USED_BYTES)) + SumInt(points, AmountOf(FREE)) == SumInt(ss, UsageBytes())
  {
    if ss != [] {
      var n := |ss| - 1;
      PointsConserved(ss[..n], mutator);
      PointTally(ss[n], mutator);
      var before, last := ConcatMap(ss[..n], FromPoint(mutator)), FromPoint(mutator)(ss[n]);
      SumIntConcat(before, last, AmountOf(USED_BYTES));
      SumIntConcat(before, last, AmountOf(FREE));
    }
  }

  lemma SummariesAreNot(ss: seq<Sample>, mutator: Mutator, order: seq<DeviceKey>, name: string, f: Metric -> int)
    requires !IsSummary(name) && forall m: Metric :: m.name != name ==> f(m) == 0
    ensures SumInt(ConcatMap(order, FromDevice(ss, mutator)), f) == 0
  {
    forall k | k in order
      ensures forall m :: m in FromDevice(ss, mutator)(k) ==> IsSummary(m.name)
    {
      SummaryNames(LastTimestamp(ss), mutator, k, SumsFor(ss, k));
    }
    ConcatMapAll(order, FromDevice(ss, mutator), (m: Metric) => IsSummary(m.name));
    SumIntZero(ConcatMap(order, FromDevice(ss, mutator)), f);
  }

  lemma SummaryNames(ts: Timestamp, mutator: Mutator, k: DeviceKey, d: Registers)
    ensures forall m :: m in FromSums(ts, mutator, k, d) ==> IsSummary(m.name)
  {
    FileMetricName(ts, mutator, TOTAL, k, IntNumber(d.totalUsage));
    FileMetricName(ts, mutator, FILES, k, IntNumber(d.totalInodeUsage));
    if d.totalUsage > 0 {
      FileMetricName(ts, mutator, USED_PCT, k, Pct(d));
    }
  }

  lemma SummariesHaveNo(ss: seq<Sample>, mutator: Mutator, order: seq<DeviceKey>, name: string)
    requires name == USED_BYTES || name == FREE
    ensures SumInt(ConcatMap(order, FromDevice(ss, mutator)), AmountOf(name)) == 0
  {
    SummariesAreNot(ss, mutator, order, name, AmountOf(name));
  }

  /** The totals of all devices add up to all bytes counted. */
  lemma TotalsConserved(ss: seq<Sample>, mutator: Mutator, order: seq<DeviceKey>)
    requires IsOrder(order, ss) && (ss != [] ==> LastTimestamp(ss) != 0)
    requires forall k :: k in Keys(ss) ==> Modest(ss, k)
    ensures SumInt(ConcatMap(order, FromDevice(ss, mutator)), AmountOf(TOTAL)) == SumInt(ss, UsageBytes())
  {
    var f, g := FromDevice(ss, mutator), GroupSum(ss, UsageBytes(), KeyOf);
    forall k | k in order
      ensures g(k) == SumInt(f(k), AmountOf(TOTAL))
    {
      ModestSums(ss, k);
      SumsTally(LastTimestamp(ss), mutator, k, SumsFor(ss, k), TOTAL, k);
    }
    SumIntConcatMap(order, f, AmountOf(TOTAL), g);
    Regroup(ss, UsageBytes(), KeyOf, order);
  }

  /** With non-negative values, set times and sums that fit: the totals emitted for all
      devices, the used and free bytes emitted for all datapoints, and the bytes read with a
      complete key in a used or free state are the same amount. */
  lemma FilesystemConservation(ss: seq<Sample>, mutator: Mutator, order: seq<DeviceKey>)
    requires IsOrder(order, ss)
    requires forall s :: s in ss ==> s.dp.timestamp != 0
    requires forall k :: k in Keys(ss) ==> Modest(ss, k)
    ensures var out := Output(ss, mutator, order);
            && SumInt(out, AmountOf(TOTAL)) == SumInt(ss, UsageBytes())
            && SumInt(out, AmountOf(USED_BYTES)) + SumInt(out, AmountOf(FREE)) == SumInt(ss, UsageBytes())
  {
    var points, summaries := ConcatMap(ss, FromPoint(mutator)), ConcatMap(order, FromDevice(ss, mutator));
    assert ss != [] ==> ss[|ss| - 1] in ss;
    TotalsConserved(ss, mutator, order);
    PointsConserved(ss, mutator);
    PointsAreNoSummaries(ss, mutator, TOTAL, AmountOf(TOTAL));
    SummariesHaveNo(ss, mutator, order, USED_BYTES);
    SummariesHaveNo(ss, mutator, order, FREE);
    SumIntConcat(points, summaries, AmountOf(TOTAL));
    SumIntConcat(points, summaries, AmountOf(USED_BYTES));
    SumIntConcat(points, summaries, AmountOf(FREE));
  }

  // ---------- Name by name ----------

  /** The table of names: source metric and state against the new name of one datapoint. */
  predicate Translates(metric: string, state: string, name: string) {
    || (metric == "system.filesystem.usage" && state == "used" && name == "system.filesystem.used.bytes")
    || (metric == "system.filesystem.usage" && state == "free" && name == "system.filesystem.free")
    || (metric == "system.filesystem.usage" && state == "free" && name == "system.filesystem.available")
    || (metric == "system.filesystem.inodes.usage" && state == "free" && name == "system.filesystem.free_files")
  }

  /** The datapoint of this metric is about this device, with all three attributes, and state. */
  predicate IsAbout(s: Sample, metric: string, state: string, key: DeviceKey) {
    s.metric == metric && HasKey(s.dp) && KeyIn(s.dp) == key && HasStr(s.dp, "state", state)
  }

  /** Its value where the time is set. */
  function Timed(metric: string, state: string, key: DeviceKey): Sample -> int {
    (s: Sample) => if IsAbout(s, metric, state, key) && s.dp.timestamp != 0 then IntIn(s.dp) else 0
  }

  /** One for such a datapoint. */
  function TimedOne(metric: string, state: string, key: DeviceKey): Sample -> int {
    (s: Sample) => if IsAbout(s, metric, state, key) && s.dp.timestamp != 0 then 1 else 0
  }

  /** Its value at any time. */
  function Anytime(metric: string, state: string, key: DeviceKey): Sample -> int {
    (s: Sample) => if IsAbout(s, metric, state, key) then IntIn(s.dp) else 0
  }

  /** A datapoint emits under a name of the table exactly what it says. */
  lemma PointByName(s: Sample, mutator: Mutator, metric: string, state: string, name: string, key: DeviceKey)
    requires Translates(metric, state, name)
    ensures SumInt(FromPoint(mutator)(s), Amount(name, key)) == Timed(metric, state, key)(s)
    ensures SumInt(FromPoint(mutator)(s), Count(name, key)) == TimedOne(metric, state, key)(s)
  {
    var ts, own, v := s.dp.timestamp, KeyOf(s), IntNumber(s.dp.IntValue());
    if StateOf(s) == "used" && s.metric == USAGE {
      FileMetricTally(ts, mutator, USED_BYTES, own, v, name, key);
    } else if StateOf(s) == "free" && s.metric == USAGE {
      FreeByName(ts, mutator, own, v, name, key);
    } else if StateOf(s) == "free" && s.metric == INODES {
      FileMetricTally(ts, mutator, FREE_FILES, own, v, name, key);
    }
  }

  lemma FreeByName(ts: Timestamp, mutator: Mutator, own: DeviceKey, v: Number, name: string, key: DeviceKey)
    requires v.IntNumber?
    ensures var free := FileMetric(ts, mutator, FREE, own, v) + FileMetric(ts, mutator, AVAILABLE, own, v);
            var n := if own == key && (name == FREE || name == AVAILABLE) && ts != 0 then 1 else 0;
            SumInt(free, Count(name, key)) == n && SumInt(free, Amount(name, key)) == if n == 1 then v.i else 0
  {
    var free, available := FileMetric(ts, mutator, FREE, own, v), FileMetric(ts, mutator, AVAILABLE, own, v);
    FileMetricTally(ts, mutator, FREE, own, v, name, key);
    FileMetricTally(ts, mutator, AVAILABLE, own, v, name, key);
    SumIntConcat(free, available, Count(name, key));
    SumIntConcat(free, available, Amount(name, key));
  }

  /** The metric is a sum of this time, labelled with this device. */
  predicate IsOf(m: Metric, ts: Timestamp, key: DeviceKey) {
    && m.kind == Sum && |m.dataPoints| == 1 && m.dataPoints[0].timestamp == ts
    && HasStr(m.dataPoints[0], "system.filesystem.device_name", key.device)
    && HasStr(m.dataPoints[0], "system.filesystem.mount_point", key.mpoint)
    && HasStr(m.dataPoints[0], "system.filesystem.type", key.fstype)
  }

  /** The key of a datapoint whose three attributes are strings. */
  lemma KeyByName(dp: DataPoint, device: string, mpoint: string, fstype: string)
    requires HasStr(dp, "device", device) && HasStr(dp, "mountpoint", mpoint) && HasStr(dp, "type", fstype)
    ensures HasKey(dp) && KeyIn(dp).device == device && KeyIn(dp).mpoint == mpoint && KeyIn(dp).fstype == fstype
  {
  }

  lemma LabelsByName(ts: Timestamp, mutator: Mutator, name: string, key: DeviceKey, value: Number)
    ensures IsOf(Built(NewMetric(ts, name, value), ChainedMutator([mutator, PutKey(key)])), ts, key)
  {
    var a: Attributes := map[OTEL_REMAPPED := BoolValue(true)];
    ChainOfTwo(mutator, PutKey(key), a);
    PutAllStores(mutator(a), DeviceLabels(key), 0);
    PutAllStores(mutator(a), DeviceLabels(key), 1);
    PutAllStores(mutator(a), DeviceLabels(key), 2);
  }

  lemma FileMetricIsOf(ts: Timestamp, mutator: Mutator, name: string, key: DeviceKey, value: Number)
    ensures forall m :: m in FileMetric(ts, mutator, name, key, value) ==> IsOf(m, ts, key)
  {
    FileMetricIs(ts, mutator, name, key, value);
    LabelsByName(ts, mutator, name, key, value);
  }

  /** What a datapoint emits has its time and device. */
  lemma PointIsOf(s: Sample, mutator: Mutator)
    ensures forall m :: m in FromPoint(mutator)(s) ==> IsOf(m, s.dp.timestamp, KeyIn(s.dp))
  {
    var ts, key, v := s.dp.timestamp, KeyOf(s), IntNumber(s.dp.IntValue());
    FileMetricIsOf(ts, mutator, USED_BYTES, key, v);
    FileMetricIsOf(ts, mutator, FREE, key, v);
    FileMetricIsOf(ts, mutator, AVAILABLE, key, v);
    FileMetricIsOf(ts, mutator, FREE_FILES, key, v);
  }

  /** The summaries of a device have its labels and the time of the last datapoint read. */
  lemma SummaryIsOf(ss: seq<Sample>, mutator: Mutator, key: DeviceKey)
    ensures forall m :: m in FromDevice(ss, mutator)(key) ==> IsOf(m, LastTimestamp(ss), key)
  {
    var ts, d := LastTimestamp(ss), SumsFor(ss, key);
    FileMetricIsOf(ts, mutator, TOTAL, key, IntNumber(d.totalUsage));
    FileMetricIsOf(ts, mutator, FILES, key, IntNumber(d.totalInodeUsage));
    if d.totalUsage > 0 {
      FileMetricIsOf(ts, mutator, USED_PCT, key, Pct(d));
    }
  }

  /** Reading only the two metrics loses nothing of what is said about them. */
  lemma ReadsSuffice(src: seq<Metric>, g: Sample -> int)
    requires forall s: Sample :: Unread(s.metric) ==> g(s) == 0
    ensures SumInt(ConcatMap(src, Reads), g) == SumInt(ConcatMap(src, Points), g)
  {
    forall m | m in src
      ensures SumInt(Reads(m), g) == SumInt(Points(m), g)
    {
      if Unread(m.name) {
        SumIntZero(Points(m), g);
      }
    }
    SumIntSameParts(src, Reads, Points, g);
  }

  /** Under each name of the table, for every device and order: as many metrics as its source
      has datapoints about the device in its state with a set time, and the same amount. */
  lemma PointsByName(src: seq<Metric>, mutator: Mutator, order: seq<DeviceKey>,
                     metric: string, state: string, name: string, key: DeviceKey)
    requires Translates(metric, state, name)
    ensures SumInt(Remap(src, mutator, order), Amount(name, key)) ==
            SumInt(ConcatMap(src, Points), Timed(metric, state, key))
    ensures SumInt(Remap(src, mutator, order), Count(name, key)) ==
            SumInt(ConcatMap(src, Points), TimedOne(metric, state, key))
  {
    var ss, f := ConcatMap(src, Reads), FromPoint(mutator);
    forall s | s in ss
      ensures Timed(metric, state, key)(s) == SumInt(f(s), Amount(name, key))
      ensures TimedOne(metric, state, key)(s) == SumInt(f(s), Count(name, key))
    {
      PointByName(s, mutator, metric, state, name, key);
    }
    SumIntConcatMap(ss, f, Amount(name, key), Timed(metric, state, key));
    SumIntConcatMap(ss, f, Count(name, key), TimedOne(metric, state, key));
    SummariesAreNot(ss, mutator, order, name, Amount(name, key));
    SummariesAreNot(ss, mutator, order, name, Count(name, key));
    SumIntConcat(ConcatMap(ss, f), ConcatMap(order, FromDevice(ss, mutator)), Amount(name, key));
    SumIntConcat(ConcatMap(ss, f), ConcatMap(order, FromDevice(ss, mutator)), Count(name, key));
    ReadsSuffice(src, Timed(metric, state, key));
    ReadsSuffice(src, TimedOne(metric, state, key));
  }

  /** What all datapoints of a metric say about a device in a state. */
  function About(src: seq<Metric>, metric: string, state: string, key: DeviceKey): int {
    SumInt(ConcatMap(src, Points), Anytime(metric, state, key))
  }

  lemma DeviceSumsByName(src: seq<Metric>, key: DeviceKey)
    ensures var ss := ConcatMap(src, Reads);
            && DeviceSum(ss, UsedBytes(), key) == About(src, "system.filesystem.usage", "used", key)
            && DeviceSum(ss, UsageBytes(), key) ==
                 About(src, "system.filesystem.usage", "used", key) + About(src, "system.filesystem.usage", "free", key)
            && DeviceSum(ss, InodeCount(), key) ==
                 About(src, "system.filesystem.inodes.usage", "used", key) +
                 About(src, "system.filesystem.inodes.usage", "free", key)
  {
    var ss := ConcatMap(src, Reads);
    ReadsSuffice(src, Anytime(USAGE, "used", key));
    ReadsSuffice(src, Anytime(USAGE, "free", key));
    ReadsSuffice(src, Anytime(INODES, "used", key));
    ReadsSuffice(src, Anytime(INODES, "free", key));
    DeviceSumsByState(ss, key);
  }

  lemma {:induction false} DeviceSumsByState(ss: seq<Sample>, key: DeviceKey)
    ensures DeviceSum(ss, UsedBytes(), key) == SumInt(ss, Anytime(USAGE, "used", key))
    ensures DeviceSum(ss, UsageBytes(), key) ==
            SumInt(ss, Anytime(USAGE, "used", key)) + SumInt(ss, Anytime(USAGE, "free", key))
    ensures DeviceSum(ss, InodeCount(), key) ==
            SumInt(ss, Anytime(INODES, "used", key)) + SumInt(ss, Anytime(INODES, "free", key))
  {
    if ss != [] {
      DeviceSumsByState(ss[..|ss| - 1], key);
    }
  }

  /** The summaries of a device whose sums fit, by name: one total of used plus free bytes and
      one percentage of used bytes in it exactly if that is positive, one number of files of
      used plus free inodes exactly if that is. */
  lemma SummariesByName(src: seq<Metric>, mutator: Mutator, order: seq<DeviceKey>, key: DeviceKey,
                        used: int, total: int, files: int)
    requires var ss := ConcatMap(src, Reads); IsOrder(order, ss) && key in Keys(ss) && LastTimestamp(ss) != 0
    requires used == About(src, "system.filesystem.usage", "used", key)
    requires total == used + About(src, "system.filesystem.usage", "free", key)
    requires files == About(src, "system.filesystem.inodes.usage", "used", key) +
                      About(src, "system.filesystem.inodes.usage", "free", key)
    requires InRange(used) && InRange(total) && InRange(files)
    ensures var out := Remap(src, mutator, order);
            && SumInt(out, Count("system.filesystem.total", key)) == (if total > 0 then 1 else 0)
            && SumInt(out, Amount("system.filesystem.total", key)) == (if total > 0 then total else 0)
            && SumInt(out, Count("system.filesystem.used.pct", key)) == (if total > 0 then 1 else 0)
            && SumInt(out, Count("system.filesystem.files", key)) == (if files > 0 then 1 else 0)
            && SumInt(out, Amount("system.filesystem.files", key)) == (if files > 0 then files else 0)
    ensures forall m | m in Remap(src, mutator, order) ::
              m.name == "system.filesystem.used.pct" && LabelOf(m) == key ==> IsShare(m, used, total)
  {
    var ss := ConcatMap(src, Reads);
    DeviceSumsByName(src, key);
    SummariesWithoutOverflow(ss, mutator, order, key);
    SummariesAreExact(ss, mutator, order, TOTAL, key);
    SummariesAreExact(ss, mutator, order, FILES, key);
  }
}
