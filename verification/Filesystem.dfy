/** Filesystem metrics: one output per datapoint, then one summary per device, gathered in a
    map from device keys to mutable records. */
module Filesystem {
  import opened Int64
  import opened Sums
  import opened Pdata
  import opened Readings
  import opened RemappedMetric
  import opened Wrappers

  const USAGE := "system.filesystem.usage"
  const INODES := "system.filesystem.inodes.usage"

  const USED_BYTES := "system.filesystem.used.bytes"
  const FREE := "system.filesystem.free"
  const AVAILABLE := "system.filesystem.available"
  const FREE_FILES := "system.filesystem.free_files"
  const TOTAL := "system.filesystem.total"
  const USED_PCT := "system.filesystem.used.pct"
  const FILES := "system.filesystem.files"

  datatype DeviceKey = DeviceKey(device: string, mpoint: string, fstype: string)

  function Reads(m: Metric): seq<Sample> {
    if m.name == USAGE || m.name == INODES then Points(m) else []
  }

  predicate WellTyped(src: seq<Metric>) {
    forall m :: m in src && (m.name == USAGE || m.name == INODES) ==> m.kind.Sum?
  }

  /** The key is complete only when all three attributes are there. */
  predicate HasKey(dp: DataPoint) {
    "device" in dp.attributes && "mountpoint" in dp.attributes && "type" in dp.attributes
  }

  function KeyIn(dp: DataPoint): DeviceKey {
    DeviceKey(StrOf(dp.attributes, "device"), StrOf(dp.attributes, "mountpoint"), StrOf(dp.attributes, "type"))
  }

  function KeyOf(s: Sample): DeviceKey {
    KeyIn(s.dp)
  }

  function GetDeviceKey(dp: DataPoint): (key: Option<DeviceKey>)
    ensures HasKey(dp) ==> key == Some(KeyIn(dp))
    ensures forall d, m, t :: HasStr(dp, "device", d) && HasStr(dp, "mountpoint", m) && HasStr(dp, "type", t) ==>
              key.Some? && key.value.device == d && key.value.mpoint == m && key.value.fstype == t
    ensures !HasKey(dp) ==> key == None
  {
    if "device" !in dp.attributes then None
    else if "mountpoint" !in dp.attributes then None
    else if "type" !in dp.attributes then None
    else
      var device, mpoint := StrOf(dp.attributes, "device"), StrOf(dp.attributes, "mountpoint");
      Some(DeviceKey(device, mpoint, StrOf(dp.attributes, "type")))
  }

  // ---------- One metric for one device ----------

  /** Labels the datapoint with the device. */
  function PutKey(key: DeviceKey): Mutator {
    (a: Attributes) => PutAll(a, DeviceLabels(key))
  }

  function DeviceLabels(key: DeviceKey): seq<Attribute> {
    [Attribute("system.filesystem.device_name", StrValue(key.device)),
     Attribute("system.filesystem.mount_point", StrValue(key.mpoint)),
     Attribute("system.filesystem.type", StrValue(key.fstype))]
  }

  function NewMetric(ts: Timestamp, name: string, value: Number): Remapped {
    Remapped(Sum, name, ts,
             if value.IntNumber? then Some(value.i) else None,
             if value.DoubleNumber? then Some(value.d) else None)
  }

  function FileMetric(ts: Timestamp, mutator: Mutator, name: string, key: DeviceKey, value: Number): seq<Metric> {
    Added([NewMetric(ts, name, value)], ChainedMutator([mutator, PutKey(key)]))
  }

  method AddFileSystemMetric(out: MetricSlice, ts: Timestamp, mutator: Mutator, name: string, key: DeviceKey,
                             value: Number)
    modifies out
    ensures out.items == old(out.items) + FileMetric(ts, mutator, name, key, value)
  {
    Add(out, ChainedMutator([mutator, PutKey(key)]), [NewMetric(ts, name, value)]);
  }

  // ---------- Datapoint by datapoint ----------

  function StateOf(s: Sample): string {
    StrOf(s.dp.attributes, "state")
  }

  /** What one datapoint is remapped to at once. */
  function FromPoint(mutator: Mutator): Sample -> seq<Metric> {
    (s: Sample) =>
      var ts, key, v := s.dp.timestamp, KeyOf(s), IntNumber(s.dp.IntValue());
      if !HasKey(s.dp) then []
      else if StateOf(s) == "used" && s.metric == USAGE then FileMetric(ts, mutator, USED_BYTES, key, v)
      else if StateOf(s) == "free" && s.metric == USAGE then
        FileMetric(ts, mutator, FREE, key, v) + FileMetric(ts, mutator, AVAILABLE, key, v)
      else if StateOf(s) == "free" && s.metric == INODES then FileMetric(ts, mutator, FREE_FILES, key, v)
      else []
  }

  // ---------- Sums per device ----------

  /** The bytes of a usage datapoint with a complete key that is used or free. */
  function UsageBytes(): Sample -> int {
    (s: Sample) => if HasKey(s.dp) && s.metric == USAGE && (StateOf(s) == "used" || StateOf(s) == "free")
                   then s.dp.IntValue() else 0
  }

  function UsedBytes(): Sample -> int {
    (s: Sample) => if HasKey(s.dp) && s.metric == USAGE && StateOf(s) == "used" then s.dp.IntValue() else 0
  }

  function InodeCount(): Sample -> int {
    (s: Sample) => if HasKey(s.dp) && s.metric == INODES && (StateOf(s) == "used" || StateOf(s) == "free")
                   then s.dp.IntValue() else 0
  }

  /** The devices seen. */
  function Keys(ss: seq<Sample>): set<DeviceKey> {
    set s | s in ss && HasKey(s.dp) :: KeyOf(s)
  }

  /** The time of the last datapoint read, with or without a key; zero if there is none. */
  function LastTimestamp(ss: seq<Sample>): Timestamp {
    if ss == [] then 0 else ss[|ss| - 1].dp.timestamp
  }

  /** The three registers of a device. */
  datatype Registers = Registers(totalUsage: int64, usedBytes: int64, totalInodeUsage: int64)

  function SumsFor(ss: seq<Sample>, key: DeviceKey): Registers {
    Registers(Wrap(GroupSum(ss, UsageBytes(), KeyOf)(key)),
          Wrap(GroupSum(ss, UsedBytes(), KeyOf)(key)),
          Wrap(GroupSum(ss, InodeCount(), KeyOf)(key)))
  }

  /** What the registers of a device are remapped to. */
  function FromSums(ts: Timestamp, mutator: Mutator, key: DeviceKey, d: Registers): seq<Metric> {
    (if d.totalUsage > 0 then
       FileMetric(ts, mutator, TOTAL, key, IntNumber(d.totalUsage)) +
       FileMetric(ts, mutator, USED_PCT, key, DoubleNumber(Finite(d.usedBytes as real / d.totalUsage as real)))
     else []) +
    (if d.totalInodeUsage > 0 then FileMetric(ts, mutator, FILES, key, IntNumber(d.totalInodeUsage)) else [])
  }

  function FromDevice(ss: seq<Sample>, mutator: Mutator): DeviceKey -> seq<Metric> {
    (key: DeviceKey) => FromSums(LastTimestamp(ss), mutator, key, SumsFor(ss, key))
  }

  /** An order in which the map of devices may be walked. */
  ghost predicate IsOrder(order: seq<DeviceKey>, ss: seq<Sample>) {
    Distinct(order) && forall k :: k in order <==> k in Keys(ss)
  }

  /** What the datapoints read are remapped to, when the devices are walked in this order. */
  function Output(ss: seq<Sample>, mutator: Mutator, order: seq<DeviceKey>): seq<Metric> {
    ConcatMap(ss, FromPoint(mutator)) + ConcatMap(order, FromDevice(ss, mutator))
  }

  function Remap(src: seq<Metric>, mutator: Mutator, order: seq<DeviceKey>): seq<Metric> {
    Output(ConcatMap(src, Reads), mutator, order)
  }

  // ---------- The scan ----------

  /** The mutable record of a device; `owner` only says which device it belongs to. */
  class DeviceMetrics {
    var totalUsage: int64
    var usedBytes: int64
    var totalInodeUsage: int64
    ghost const owner: DeviceKey

    constructor (ghost owner: DeviceKey)
      ensures totalUsage == 0 && usedBytes == 0 && totalInodeUsage == 0
      ensures this.owner == owner
    {
      totalUsage, usedBytes, totalInodeUsage := 0, 0, 0;
      this.owner := owner;
    }

    function Value(): Registers
      reads this
    {
      Registers(totalUsage, usedBytes, totalInodeUsage)
    }
  }

  type Devices = map<DeviceKey, DeviceMetrics>

  /** The registers of every device seen. */
  type Tally = map<DeviceKey, Registers>

  /** Every device of the tally has a record of its own with its registers. */
  ghost predicate Tracks(devices: Devices, tally: Tally)
    reads devices.Values
  {
    && devices.Keys == tally.Keys
    && forall k :: k in devices ==> devices[k].owner == k && devices[k].Value() == tally[k]
  }

  /** The effect of one datapoint with a complete key on the registers of its device. */
  function AddPoint(d: Registers, metric: string, state: string, v: int64): Registers {
    if metric == USAGE && state == "used" then
      d.(totalUsage := Wrap(d.totalUsage + v), usedBytes := Wrap(d.usedBytes + v))
    else if metric == USAGE && state == "free" then d.(totalUsage := Wrap(d.totalUsage + v))
    else if metric == INODES && (state == "used" || state == "free") then
      d.(totalInodeUsage := Wrap(d.totalInodeUsage + v))
    else d
  }

  function RegistersIn(tally: Tally, key: DeviceKey): Registers {
    if key in tally then tally[key] else Registers(0, 0, 0)
  }

  function TallyPoint(tally: Tally, s: Sample): Tally {
    if !HasKey(s.dp) then tally
    else tally[KeyOf(s) := AddPoint(RegistersIn(tally, KeyOf(s)), s.metric, StateOf(s), s.dp.IntValue())]
  }

  /** The tally after reading these datapoints one after the other. */
  function TallyOf(ss: seq<Sample>): Tally {
    if ss == [] then map[] else TallyPoint(TallyOf(ss[..|ss| - 1]), ss[|ss| - 1])
  }

  lemma TallySnoc(ss: seq<Sample>, s: Sample)
    ensures TallyOf(ss + [s]) == TallyPoint(TallyOf(ss), s)
  {
    assert (ss + [s])[..|ss|] == ss;
  }

  /** The tally holds exactly the devices seen, each with the sums over its own datapoints. */
  lemma {:induction false} TallyHoldsSums(ss: seq<Sample>, key: DeviceKey)
    ensures key in TallyOf(ss) <==> key in Keys(ss)
    ensures RegistersIn(TallyOf(ss), key) == SumsFor(ss, key)
  {
    if ss != [] {
      var n := |ss| - 1;
      assert ss == ss[..n] + [ss[n]];
      TallyHoldsSums(ss[..n], key);
      KeysSnoc(ss[..n], ss[n]);
      SumsSnoc(ss[..n], ss[n], key);
    }
  }

  lemma SumsSnoc(ss: seq<Sample>, s: Sample, key: DeviceKey)
    ensures SumsFor(ss + [s], key) ==
            if HasKey(s.dp) && KeyOf(s) == key then AddPoint(SumsFor(ss, key), s.metric, StateOf(s), s.dp.IntValue())
            else SumsFor(ss, key)
  {
    GroupSnoc(ss, s, UsageBytes(), key);
    GroupSnoc(ss, s, UsedBytes(), key);
    GroupSnoc(ss, s, InodeCount(), key);
  }

  lemma GroupSnoc(ss: seq<Sample>, s: Sample, f: Sample -> int, key: DeviceKey)
    ensures GroupSum(ss + [s], f, KeyOf)(key) ==
            GroupSum(ss, f, KeyOf)(key) + if KeyOf(s) == key then f(s) else 0
    ensures Wrap(GroupSum(ss + [s], f, KeyOf)(key)) ==
            Wrap(Wrap(GroupSum(ss, f, KeyOf)(key)) + if KeyOf(s) == key then f(s) else 0)
  {
    SumIntSnoc(ss, s, OnlyKey(f, KeyOf, key));
    WrapAdd(GroupSum(ss, f, KeyOf)(key), if KeyOf(s) == key then f(s) else 0);
  }

  lemma KeysSnoc(ss: seq<Sample>, s: Sample)
    ensures Keys(ss + [s]) == Keys(ss) + if HasKey(s.dp) then {KeyOf(s)} else {}
  {
  }

  /** Looks the record of a device up, with a new one for a new device. */
  method RecordOf(devices: Devices, key: DeviceKey, ghost tally: Tally)
      returns (devices': Devices, record: DeviceMetrics)
    requires Tracks(devices, tally)
    ensures Tracks(devices', tally[key := RegistersIn(tally, key)])
    ensures record == devices'[key]
    ensures fresh(devices'.Values - devices.Values)
  {
    devices' := devices;
    if key !in devices {
      record := new DeviceMetrics(key);
      devices' := devices[key := record];
    }
    record := devices'[key];
  }

  /** One datapoint: its own outputs, and its share in the record of its device. */
  method ReadPoint(devices: Devices, s: Sample, out: MetricSlice, mutator: Mutator, ghost tally: Tally)
      returns (devices': Devices)
    requires Tracks(devices, tally)
    requires s.metric == USAGE || s.metric == INODES
    modifies out, devices.Values
    ensures Tracks(devices', TallyPoint(tally, s))
    ensures fresh(devices'.Values - devices.Values)
    ensures out.items == old(out.items) + FromPoint(mutator)(s)
  {
    var found := GetDeviceKey(s.dp);
    if found.None? {
      return devices;
    }
    var key := found.value;
    var dmetrics;
    devices', dmetrics := RecordOf(devices, key, tally);
    AddToRecord(dmetrics, s, out, mutator, key);
  }

  /** The switch over states: registers and outputs of one datapoint. */
  method AddToRecord(dmetrics: DeviceMetrics, s: Sample, out: MetricSlice, mutator: Mutator, key: DeviceKey)
    requires s.metric == USAGE || s.metric == INODES
    requires HasKey(s.dp) && key == KeyOf(s)
    modifies out, dmetrics
    ensures dmetrics.Value() == AddPoint(old(dmetrics.Value()), s.metric, StateOf(s), s.dp.IntValue())
    ensures out.items == old(out.items) + FromPoint(mutator)(s)
  {
    var dp, value := s.dp, s.dp.IntValue();
    var state := StrOf(dp.attributes, "state");
    if state == "used" {
      if s.metric == USAGE {
        dmetrics.totalUsage := Wrap(dmetrics.totalUsage + value);
        dmetrics.usedBytes := Wrap(dmetrics.usedBytes + value);
        AddFileSystemMetric(out, dp.timestamp, mutator, USED_BYTES, key, IntNumber(value));
      } else {
        dmetrics.totalInodeUsage := Wrap(dmetrics.totalInodeUsage + value);
      }
    } else if state == "free" {
      if s.metric == USAGE {
        dmetrics.totalUsage := Wrap(dmetrics.totalUsage + value);
        AddFileSystemMetric(out, dp.timestamp, mutator, FREE, key, IntNumber(value));
        AddFileSystemMetric(out, dp.timestamp, mutator, AVAILABLE, key, IntNumber(value));
        Associative(old(out.items), FileMetric(dp.timestamp, mutator, FREE, key, IntNumber(value)),
                    FileMetric(dp.timestamp, mutator, AVAILABLE, key, IntNumber(value)));
      } else {
        dmetrics.totalInodeUsage := Wrap(dmetrics.totalInodeUsage + value);
        AddFileSystemMetric(out, dp.timestamp, mutator, FREE_FILES, key, IntNumber(value));
      }
    }
  }

  lemma OnePointFurther(metric: Metric, j: nat, before: seq<Sample>)
    requires j < |metric.dataPoints|
    ensures var ss, s := before + Points(metric)[..j], Points(metric)[j];
            && TallyOf(before + Points(metric)[..j + 1]) == TallyPoint(TallyOf(ss), s)
            && LastTimestamp(before + Points(metric)[..j + 1]) == s.dp.timestamp
  {
    var s := Points(metric)[j];
    PointsPrefix(metric, j);
    Associative(before, Points(metric)[..j], [s]);
    TallySnoc(before + Points(metric)[..j], s);
  }

  /** The inner loop: the datapoints of one metric. The time of the last one is kept. */
  method ReadDataPoints(metric: Metric, devices: Devices, timestamp: Timestamp, out: MetricSlice, mutator: Mutator,
                        ghost before: seq<Sample>)
      returns (devices': Devices, timestamp': Timestamp)
    requires metric.name == USAGE || metric.name == INODES
    requires Tracks(devices, TallyOf(before)) && timestamp == LastTimestamp(before)
    modifies out, devices.Values
    ensures Tracks(devices', TallyOf(before + Points(metric))) && timestamp' == LastTimestamp(before + Points(metric))
    ensures fresh(devices'.Values - devices.Values)
    ensures out.items == old(out.items) + ConcatMap(Points(metric), FromPoint(mutator))
  {
    devices', timestamp' := devices, timestamp;
    ghost var f := FromPoint(mutator);
    assert before + Points(metric)[..0] == before;
    for j := 0 to |metric.dataPoints|
      invariant Tracks(devices', TallyOf(before + Points(metric)[..j]))
      invariant timestamp' == LastTimestamp(before + Points(metric)[..j])
      invariant fresh(devices'.Values - devices.Values)
      invariant out.items == old(out.items) + ConcatMap(Points(metric)[..j], f)
    {
      var s := Sample(metric.name, metric.dataPoints[j]);
      OnePointFurther(metric, j, before);
      ConcatMapExtends(old(out.items), Points(metric), j, f);
      timestamp' := s.dp.timestamp;
      devices' := ReadPoint(devices', s, out, mutator, TallyOf(before + Points(metric)[..j]));
    }
    assert Points(metric)[..|metric.dataPoints|] == Points(metric);
  }

  /** Reads `src` to its end while appending to `out`, which may be the same slice, then
      walks the devices in any order; `order` is the one taken. */
  method RemapFilesystemMetrics(src: MetricSlice, out: MetricSlice, mutator: Mutator)
      returns (ghost order: seq<DeviceKey>)
    requires WellTyped(src.items)
    modifies out
    ensures IsOrder(order, ConcatMap(old(src.items), Reads))
    ensures out.items == old(out.items) + Remap(old(src.items), mutator, order)
  {
    var devices, timestamp := ReadFilesystemMetrics(src, out, mutator);
    ghost var ss := ConcatMap(old(src.items), Reads);
    forall k: DeviceKey
      ensures k in TallyOf(ss) <==> k in Keys(ss)
      ensures RegistersIn(TallyOf(ss), k) == SumsFor(ss, k)
    {
      TallyHoldsSums(ss, k);
    }
    order := AddDevices(devices, timestamp, out, mutator, TallyOf(ss), FromDevice(ss, mutator));
    Associative(old(out.items), ConcatMap(ss, FromPoint(mutator)), ConcatMap(order, FromDevice(ss, mutator)));
  }

  /** The first phase: the scan over all metrics of the slice. */
  method ReadFilesystemMetrics(src: MetricSlice, out: MetricSlice, mutator: Mutator)
      returns (devices: Devices, timestamp: Timestamp)
    requires WellTyped(src.items)
    modifies out
    ensures Tracks(devices, TallyOf(ConcatMap(old(src.items), Reads))) && fresh(devices.Values)
    ensures timestamp == LastTimestamp(ConcatMap(old(src.items), Reads))
    ensures out.items == old(out.items) + ConcatMap(ConcatMap(old(src.items), Reads), FromPoint(mutator))
  {
    ghost var input, start, done := src.items, out.items, [];
    ghost var f := FromPoint(mutator);
    timestamp := 0;
    devices := map[];
    var i := 0;
    while i < |src.items|
      invariant Scanned(input, start, src == out, i, src.items, out.items, done, Reads, f)
      invariant Tracks(devices, TallyOf(done)) && fresh(devices.Values) && timestamp == LastTimestamp(done)
      decreases if i < |input| then |input| - i else 0, |src.items| - i
    {
      var metric := src.items[i];
      ghost var before, sofar := src.items, out.items;
      devices, timestamp := ReadMetric(metric, devices, timestamp, out, mutator, done);
      if i < |input| {
        ScanOn(input, start, src == out, i, before, sofar, done, Reads, f, src.items, out.items);
        done := done + Reads(metric);
      } else {
        ScannedOwnOutput(input, start, src == out, i, before, sofar, done, Reads, f);
        PointOutputNames(done, mutator);
        assert done + Reads(metric) == done;
        ScanPast(input, start, src == out, i, before, sofar, done, Reads, f, src.items, out.items);
      }
      i := i + 1;
    }
    ScanEnds(input, start, src == out, i, src.items, out.items, done, Reads, f);
  }

  /** The switch over metric names. */
  method ReadMetric(metric: Metric, devices: Devices, timestamp: Timestamp, out: MetricSlice, mutator: Mutator,
                    ghost before: seq<Sample>)
      returns (devices': Devices, timestamp': Timestamp)
    requires Tracks(devices, TallyOf(before)) && timestamp == LastTimestamp(before)
    modifies out, devices.Values
    ensures Tracks(devices', TallyOf(before + Reads(metric))) && timestamp' == LastTimestamp(before + Reads(metric))
    ensures fresh(devices'.Values - devices.Values)
    ensures out.items == old(out.items) + ConcatMap(Reads(metric), FromPoint(mutator))
    ensures Unread(metric.name) ==> out.items == old(out.items)
  {
    if metric.name == USAGE || metric.name == INODES {
      devices', timestamp' := ReadDataPoints(metric, devices, timestamp, out, mutator, before);
    } else {
      devices', timestamp' := devices, timestamp;
      assert before + Reads(metric) == before;
    }
  }

  /** `f` maps the device `k` to what its registers are remapped to. */
  ghost predicate Summarises(f: DeviceKey -> seq<Metric>, ts: Timestamp, mutator: Mutator, k: DeviceKey, d: Registers) {
    f(k) == FromSums(ts, mutator, k, d)
  }

  ghost predicate SummarisesAll(f: DeviceKey -> seq<Metric>, ts: Timestamp, mutator: Mutator, tally: Tally) {
    forall k {:trigger Summarises(f, ts, mutator, k, tally[k])} ::
      k in tally ==> Summarises(f, ts, mutator, k, tally[k])
  }

  /** The second phase: one summary per device, in the order of a map. */
  method AddDevices(devices: Devices, timestamp: Timestamp, out: MetricSlice, mutator: Mutator,
                    ghost tally: Tally, ghost f: DeviceKey -> seq<Metric>)
      returns (ghost order: seq<DeviceKey>)
    requires Tracks(devices, tally)
    requires SummarisesAll(f, timestamp, mutator, tally)
    modifies out
    ensures Walked(order, devices.Keys, {})
    ensures out.items == old(out.items) + ConcatMap(order, f)
  {
    var remaining := devices.Keys;
    order := [];
    while remaining != {}
      invariant Walked(order, devices.Keys, remaining)
      invariant Tracks(devices, tally)
      invariant out.items == old(out.items) + ConcatMap(order, f)
      decreases |remaining|
    {
      var key :| key in remaining;
      WalkOn(order, devices.Keys, remaining, key);
      ConcatMapSnoc(order, key, f);
      Associative(old(out.items), ConcatMap(order, f), f(key));
      remaining := remaining - {key};
      order := order + [key];
      AddDevice(devices[key], key, timestamp, out, mutator, tally, f);
    }
  }

  /** `order` visits each of `all` once, except those that remain. */
  ghost predicate Walked(order: seq<DeviceKey>, all: set<DeviceKey>, remaining: set<DeviceKey>) {
    remaining <= all && Distinct(order) && forall k :: k in order <==> k in all && k !in remaining
  }

  lemma WalkOn(order: seq<DeviceKey>, all: set<DeviceKey>, remaining: set<DeviceKey>, key: DeviceKey)
    requires Walked(order, all, remaining) && key in remaining
    ensures Walked(order + [key], all, remaining - {key})
  {
  }

  method AddDevice(d: DeviceMetrics, key: DeviceKey, timestamp: Timestamp, out: MetricSlice, mutator: Mutator,
                   ghost tally: Tally, ghost f: DeviceKey -> seq<Metric>)
    requires SummarisesAll(f, timestamp, mutator, tally)
    requires key in tally && d.Value() == tally[key]
    modifies out
    ensures out.items == old(out.items) + f(key)
  {
    assert Summarises(f, timestamp, mutator, key, tally[key]);
    if d.totalUsage > 0 {
      AddFileSystemMetric(out, timestamp, mutator, TOTAL, key, IntNumber(d.totalUsage));
      var usedPercentage := d.usedBytes as real / d.totalUsage as real;
      AddFileSystemMetric(out, timestamp, mutator, USED_PCT, key, DoubleNumber(Finite(usedPercentage)));
    }
    if d.totalInodeUsage > 0 {
      AddFileSystemMetric(out, timestamp, mutator, FILES, key, IntNumber(d.totalInodeUsage));
    }
  }

  // ---------- Own output is never remapped again ----------

  predicate Unread(name: string) {
    name != USAGE && name != INODES
  }

  lemma FileMetricIs(ts: Timestamp, mutator: Mutator, name: string, key: DeviceKey, value: Number)
    ensures FileMetric(ts, mutator, name, key, value) ==
            if NewMetric(ts, name, value).Valid()
            then [Built(NewMetric(ts, name, value), ChainedMutator([mutator, PutKey(key)]))] else []
  {
    AddedOne(NewMetric(ts, name, value), ChainedMutator([mutator, PutKey(key)]));
  }

  lemma FileMetricName(ts: Timestamp, mutator: Mutator, name: string, key: DeviceKey, value: Number)
    ensures forall m :: m in FileMetric(ts, mutator, name, key, value) ==> m.name == name && m.kind.Sum?
  {
    FileMetricIs(ts, mutator, name, key, value);
  }

  /** A name this remapper gives. */
  predicate IsNewName(name: string) {
    |name| > 11 && name[7] == 'f' && Unread(name)
  }

  lemma PointNames(s: Sample, mutator: Mutator)
    ensures forall m :: m in FromPoint(mutator)(s) ==>
      m.name == USED_BYTES || m.name == FREE || m.name == AVAILABLE || m.name == FREE_FILES
    ensures forall m :: m in FromPoint(mutator)(s) ==> m.kind.Sum?
  {
    var ts, key, v := s.dp.timestamp, KeyOf(s), IntNumber(s.dp.IntValue());
    FileMetricName(ts, mutator, USED_BYTES, key, v);
    FileMetricName(ts, mutator, FREE, key, v);
    FileMetricName(ts, mutator, AVAILABLE, key, v);
    FileMetricName(ts, mutator, FREE_FILES, key, v);
  }

  lemma PointNamesAreNew()
    ensures IsNewName(USED_BYTES) && IsNewName(FREE) && IsNewName(AVAILABLE) && IsNewName(FREE_FILES)
  {
  }

  lemma PointOutputNames(done: seq<Sample>, mutator: Mutator)
    ensures forall m :: m in ConcatMap(done, FromPoint(mutator)) ==> IsNewName(m.name) && m.kind.Sum?
  {
    PointNamesAreNew();
    forall s | s in done
      ensures forall m :: m in FromPoint(mutator)(s) ==> IsNewName(m.name) && m.kind.Sum?
    {
      PointNames(s, mutator);
    }
    ConcatMapAll(done, FromPoint(mutator), (m: Metric) => IsNewName(m.name) && m.kind.Sum?);
  }

  lemma SummaryNamesAreNew()
    ensures IsNewName(TOTAL) && IsNewName(USED_PCT) && IsNewName(FILES)
  {
  }

  lemma SumsNames(ts: Timestamp, mutator: Mutator, key: DeviceKey, d: Registers)
    ensures forall m :: m in FromSums(ts, mutator, key, d) ==> IsNewName(m.name) && m.kind.Sum?
  {
    SummaryNamesAreNew();
    if d.totalUsage > 0 {
      FileMetricName(ts, mutator, TOTAL, key, IntNumber(d.totalUsage));
      FileMetricName(ts, mutator, USED_PCT, key,
                     DoubleNumber(Finite(d.usedBytes as real / d.totalUsage as real)));
    }
    FileMetricName(ts, mutator, FILES, key, IntNumber(d.totalInodeUsage));
  }

  lemma OutputNames(ss: seq<Sample>, mutator: Mutator, order: seq<DeviceKey>)
    ensures forall m :: m in Output(ss, mutator, order) ==> IsNewName(m.name) && m.kind.Sum?
  {
    forall k | k in order
      ensures forall m :: m in FromDevice(ss, mutator)(k) ==> IsNewName(m.name) && m.kind.Sum?
    {
      SumsNames(LastTimestamp(ss), mutator, k, SumsFor(ss, k));
    }
    ConcatMapAll(order, FromDevice(ss, mutator), (m: Metric) => IsNewName(m.name) && m.kind.Sum?);
    PointOutputNames(ss, mutator);
  }

  lemma ExtraIsIgnored(src: seq<Metric>, extra: seq<Metric>)
    requires forall m :: m in extra ==> Unread(m.name)
    ensures ConcatMap(src + extra, Reads) == ConcatMap(src, Reads)
    ensures WellTyped(src) ==> WellTyped(src + extra)
  {
    ConcatMapIgnores(src, extra, Reads);
  }

  /** The input together with its own remapping, in any order of devices, is well typed and
      reads as the input alone; so it has the same remappings. */
  lemma OutputIsNotReconsumed(src: seq<Metric>, m1: Mutator, o1: seq<DeviceKey>, m2: Mutator, o2: seq<DeviceKey>)
    ensures ConcatMap(src + Remap(src, m1, o1), Reads) == ConcatMap(src, Reads)
    ensures Remap(src + Remap(src, m1, o1), m2, o2) == Remap(src, m2, o2)
    ensures WellTyped(src) ==> WellTyped(src + Remap(src, m1, o1))
  {
    OutputNames(ConcatMap(src, Reads), m1, o1);
    ExtraIsIgnored(src, Remap(src, m1, o1));
  }

  /** The order in which the map is walked changes only the order of the output. */
  lemma OrderOnlyReorders(ss: seq<Sample>, mutator: Mutator, o1: seq<DeviceKey>, o2: seq<DeviceKey>)
    requires IsOrder(o1, ss) && IsOrder(o2, ss)
    ensures multiset(Output(ss, mutator, o1)) == multiset(Output(ss, mutator, o2))
  {
    DistinctListings(o1, o2);
    ConcatMapPermuted(o1, o2, FromDevice(ss, mutator));
  }

  // ---------- Labels ----------

  predicate IsDeviceLabel(key: string) {
    key == "system.filesystem.device_name" || key == "system.filesystem.mount_point" || key == "system.filesystem.type"
  }

  lemma PutKeyKeeps(device: DeviceKey, key: string)
    requires !IsDeviceLabel(key)
    ensures Keeps(PutKey(device), key)
  {
    forall a: Attributes | key in a
      ensures var r := PutKey(device)(a); key in r && r[key] == a[key]
    {
      PutAllKeeps(a, DeviceLabels(device), key);
    }
  }

  lemma FileMetricLabelled(ts: Timestamp, mutator: Mutator, name: string, device: DeviceKey, value: Number,
                           key: string, v: Value)
    requires Labels(mutator, key, v) && !IsDeviceLabel(key)
    ensures forall m :: m in FileMetric(ts, mutator, name, device, value) ==> Labelled(m, key, v)
  {
    PutKeyKeeps(device, key);
    ChainAddedLabelled([NewMetric(ts, name, value)], mutator, PutKey(device), key, v);
  }

  lemma PointLabelled(s: Sample, mutator: Mutator, key: string, v: Value)
    requires Labels(mutator, key, v) && !IsDeviceLabel(key)
    ensures forall m :: m in FromPoint(mutator)(s) ==> Labelled(m, key, v)
  {
    var ts, device, value := s.dp.timestamp, KeyOf(s), IntNumber(s.dp.IntValue());
    FileMetricLabelled(ts, mutator, USED_BYTES, device, value, key, v);
    FileMetricLabelled(ts, mutator, FREE, device, value, key, v);
    FileMetricLabelled(ts, mutator, AVAILABLE, device, value, key, v);
    FileMetricLabelled(ts, mutator, FREE_FILES, device, value, key, v);
  }

  lemma SumsLabelled(ts: Timestamp, mutator: Mutator, device: DeviceKey, d: Registers, key: string, v: Value)
    requires Labels(mutator, key, v) && !IsDeviceLabel(key)
    ensures forall m :: m in FromSums(ts, mutator, device, d) ==> Labelled(m, key, v)
  {
    if d.totalUsage > 0 {
      FileMetricLabelled(ts, mutator, TOTAL, device, IntNumber(d.totalUsage), key, v);
      FileMetricLabelled(ts, mutator, USED_PCT, device,
                         DoubleNumber(Finite(d.usedBytes as real / d.totalUsage as real)), key, v);
    }
    FileMetricLabelled(ts, mutator, FILES, device, IntNumber(d.totalInodeUsage), key, v);
  }

  lemma OutputLabelled(ss: seq<Sample>, mutator: Mutator, order: seq<DeviceKey>, key: string, v: Value)
    requires Labels(mutator, key, v) && !IsDeviceLabel(key)
    ensures forall m :: m in Output(ss, mutator, order) ==> Labelled(m, key, v)
  {
    forall s | s in ss
      ensures forall m :: m in FromPoint(mutator)(s) ==> Labelled(m, key, v)
    {
      PointLabelled(s, mutator, key, v);
    }
    forall k | k in order
      ensures forall m :: m in FromDevice(ss, mutator)(k) ==> Labelled(m, key, v)
    {
      SumsLabelled(LastTimestamp(ss), mutator, k, SumsFor(ss, k), key, v);
    }
    ConcatMapAll(ss, FromPoint(mutator), (m: Metric) => Labelled(m, key, v));
    ConcatMapAll(order, FromDevice(ss, mutator), (m: Metric) => Labelled(m, key, v));
  }
}
