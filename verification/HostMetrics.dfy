/** The entry point: which scopes are remapped, by which remapper, under which labels. */
module HostMetrics {
  import opened Int64
  import opened Sums
  import opened Pdata
  import opened RemappedMetric
  import opened Wrappers
  import Cpu
  import Memory
  import Load
  import Process
  import Processes
  import Network
  import Disk
  import Filesystem
  import opened SourceNames

  const SCOPE_PREFIX := "github.com/open-telemetry/opentelemetry-collector-contrib/receiver/hostmetricsreceiver"

  /** Only scopes of the host metrics receiver are remapped. */
  predicate Valid(scope: string) {
    SCOPE_PREFIX <= scope
  }

  function StripSlashes(path: string): string {
    if path != "" && path[|path| - 1] == '/' then StripSlashes(path[..|path| - 1]) else path
  }

  function AfterLastSlash(path: string): string {
    if path == "" then ""
    else if path[|path| - 1] == '/' then ""
    else AfterLastSlash(path[..|path| - 1]) + [path[|path| - 1]]
  }

  /** The last element of a slash-separated path. */
  function Base(path: string): string {
    if path == "" then "."
    else
      var last := AfterLastSlash(StripSlashes(path));
      if last == "" then "/" else last
  }

  function DatasetOf(scraper: string): Option<string> {
    if scraper == "cpuscraper" then Some("system.cpu")
    else if scraper == "diskscraper" then Some("system.diskio")
    else if scraper == "filesystemscraper" then Some("system.filesystem")
    else if scraper == "loadscraper" then Some("system.load")
    else if scraper == "memoryscraper" then Some("system.memory")
    else if scraper == "networkscraper" then Some("system.network")
    else if scraper == "pagingscraper" then Some("system.memory")
    else if scraper == "processesscraper" then Some("system.process.summary")
    else if scraper == "processscraper" then Some("system.process")
    else None
  }

  /** The mutator that labels every datapoint of a scope. */
  function DatasetMutator(dataset: string, systemIntegration: bool): Mutator {
    (a: Attributes) =>
      var b := a[EVENT_DATASET := StrValue(dataset)][EVENT_MODULE := StrValue("system")];
      if systemIntegration then b[DATASTREAM_DATASET := StrValue(dataset)] else b
  }

  /** What each remapper asks of the metrics it reads. */
  predicate WellTyped(scraper: string, src: seq<Metric>) {
    if scraper == "cpuscraper" then Cpu.WellTyped(src)
    else if scraper == "memoryscraper" then Memory.WellTyped(src)
    else if scraper == "loadscraper" then Load.WellTyped(src)
    else if scraper == "processscraper" then Process.WellTyped(src)
    else if scraper == "processesscraper" then Processes.WellTyped(src)
    else if scraper == "networkscraper" then Network.WellTyped(src)
    else if scraper == "diskscraper" then Disk.WellTyped(src)
    else if scraper == "filesystemscraper" then Filesystem.WellTyped(src)
    else true
  }

  /** What the environment supplies: the resource, the rendering of a start time and, for the
      filesystem scraper, the order in which its map of devices is walked. */
  datatype Context = Context(resource: Attributes, format: int64 -> string, order: seq<Filesystem.DeviceKey>)

  function RemapBy(scraper: string, src: seq<Metric>, mutator: Mutator, c: Context): seq<Metric> {
    if scraper == "cpuscraper" then Cpu.Remap(src, mutator)
    else if scraper == "memoryscraper" then Memory.Remap(src, mutator)
    else if scraper == "loadscraper" then Load.Remap(src, mutator)
    else if scraper == "processscraper" then Process.Remap(src, c.resource, mutator, c.format)
    else if scraper == "processesscraper" then Processes.Remap(src, mutator)
    else if scraper == "networkscraper" then Network.Remap(src, mutator)
    else if scraper == "diskscraper" then Disk.Remap(src, mutator)
    else if scraper == "filesystemscraper" then Filesystem.Remap(src, mutator, c.order)
    else []
  }

  /** What one call appends. */
  function Appended(systemIntegration: bool, scope: string, src: seq<Metric>, c: Context): seq<Metric> {
    var dataset := DatasetOf(Base(scope));
    if !Valid(scope) || dataset.None? then []
    else RemapBy(Base(scope), src, DatasetMutator(dataset.value, systemIntegration), c)
  }

  class Remapper {
    const systemIntegrationDataset: bool

    constructor (systemIntegrationDataset: bool)
      ensures this.systemIntegrationDataset == systemIntegrationDataset
    {
      this.systemIntegrationDataset := systemIntegrationDataset;
    }

    /** Remaps the metrics of a scope into `out`, which may be the slice of the scope itself. */
    method Remap(scope: string, src: MetricSlice, out: MetricSlice, resource: Attributes, format: int64 -> string)
        returns (ghost c: Context)
      requires Valid(scope) ==> WellTyped(Base(scope), src.items)
      modifies out
      ensures c.resource == resource && c.format == format
      ensures Valid(scope) && Base(scope) == "filesystemscraper" ==>
                Filesystem.IsOrder(c.order, ConcatMap(old(src.items), Filesystem.Reads))
      ensures out.items == old(out.items) + Appended(systemIntegrationDataset, scope, old(src.items), c)
    {
      c := Context(resource, format, []);
      if !Valid(scope) {
        return;
      }
      var scraper := Base(scope);
      var dataset := DatasetOf(scraper);
      if dataset.None? {
        assert scraper != "filesystemscraper";
        return;
      }
      c := Dispatch(scraper, src, out, resource, DatasetMutator(dataset.value, systemIntegrationDataset), format);
    }

    /** The table of remappers; a scraper without an entry changes nothing. */
    method Dispatch(scraper: string, src: MetricSlice, out: MetricSlice, resource: Attributes, mutator: Mutator,
                    format: int64 -> string)
        returns (ghost c: Context)
      requires WellTyped(scraper, src.items)
      modifies out
      ensures c.resource == resource && c.format == format
      ensures scraper == "filesystemscraper" ==>
                Filesystem.IsOrder(c.order, ConcatMap(old(src.items), Filesystem.Reads))
      ensures out.items == old(out.items) + RemapBy(scraper, old(src.items), mutator, c)
    {
      c := Context(resource, format, []);
      if scraper == "filesystemscraper" {
        ghost var order := Filesystem.RemapFilesystemMetrics(src, out, mutator);
        c := c.(order := order);
      } else if scraper == "networkscraper" {
        Network.RemapNetworkMetrics(src, out, mutator);
      } else if scraper == "diskscraper" {
        var errs := Disk.RemapDiskMetrics(src, out, mutator);
      } else {
        DispatchSummary(scraper, src, out, resource, mutator, format);
      }
    }

    /** The entries of the table that first read everything and then append a summary. */
    method DispatchSummary(scraper: string, src: MetricSlice, out: MetricSlice, resource: Attributes, mutator: Mutator,
                           format: int64 -> string)
      requires IsSummary(scraper) && WellTyped(scraper, src.items)
      modifies out
      ensures forall order ::
                var c := Context(resource, format, order);
                out.items == old(out.items) + RemapBy(scraper, old(src.items), mutator, c)
    {
      if scraper == "cpuscraper" {
        Cpu.RemapCPUMetrics(src, out, mutator);
      } else if scraper == "memoryscraper" {
        Memory.RemapMemoryMetrics(src, out, mutator);
      } else if scraper == "loadscraper" {
        Load.RemapLoadMetrics(src, out, mutator);
      } else if scraper == "processscraper" {
        Process.RemapProcessMetrics(src, out, resource, mutator, format);
      } else if scraper == "processesscraper" {
        Processes.RemapProcessesMetrics(src, out, mutator);
      }
    }
  }

  /** The remapper appends one summary, if any. */
  predicate IsSummary(scraper: string) {
    scraper != "filesystemscraper" && scraper != "networkscraper" && scraper != "diskscraper"
  }

  // ---------- Labels ----------

  /** A key that no remapper writes for a purpose of its own. */
  predicate IsCommonKey(key: string) {
    key == OTEL_REMAPPED || key == EVENT_DATASET || key == EVENT_MODULE || key == DATASTREAM_DATASET
  }

  lemma RemapByKeepsLabels(scraper: string, src: seq<Metric>, mutator: Mutator, c: Context, key: string, v: Value)
    requires Labels(mutator, key, v) && IsCommonKey(key)
    requires scraper == "processesscraper" && key == EVENT_DATASET ==> v == StrValue(Processes.SUMMARY_DATASET)
    ensures forall m :: m in RemapBy(scraper, src, mutator, c) ==> Labelled(m, key, v)
  {
    if scraper == "cpuscraper" {
      AddedLabelled(Cpu.Output(ConcatMap(src, Cpu.Reads)), mutator, key, v);
    } else if scraper == "memoryscraper" {
      AddedLabelled(Memory.OutputOf(ConcatMap(src, Memory.Reads)), mutator, key, v);
    } else if scraper == "loadscraper" {
      Load.RemapLabelled(src, mutator, key, v);
    } else if scraper == "processscraper" {
      Process.RemapLabelled(src, c.resource, mutator, c.format, key, v);
    } else if scraper == "processesscraper" {
      Processes.RemapLabelled(src, mutator, key, v);
    } else if scraper == "networkscraper" {
      Network.RemapLabelled(src, mutator, key, v);
    } else if scraper == "diskscraper" {
      Disk.RemapLabelled(src, mutator, key, v);
    } else if scraper == "filesystemscraper" {
      Filesystem.OutputLabelled(ConcatMap(src, Filesystem.Reads), mutator, c.order, key, v);
    }
  }

  /** The labels of every metric appended for a scope. */
  predicate FullyLabelled(m: Metric, dataset: string, systemIntegration: bool) {
    && Labelled(m, OTEL_REMAPPED, BoolValue(true))
    && Labelled(m, EVENT_DATASET, StrValue(dataset))
    && Labelled(m, EVENT_MODULE, StrValue("system"))
    && (systemIntegration ==> Labelled(m, DATASTREAM_DATASET, StrValue(dataset)))
  }

  lemma DatasetMutatorLabels(dataset: string, systemIntegration: bool)
    ensures var f := DatasetMutator(dataset, systemIntegration);
            && Labels(f, OTEL_REMAPPED, BoolValue(true))
            && Labels(f, EVENT_DATASET, StrValue(dataset))
            && Labels(f, EVENT_MODULE, StrValue("system"))
            && (systemIntegration ==> Labels(f, DATASTREAM_DATASET, StrValue(dataset)))
  {
  }

  /** Whatever mutators a remapper chains after it, every metric a call appends ends marked
      as remapped and with the dataset of its scraper. */
  lemma AppendedIsLabelled(systemIntegration: bool, scope: string, src: seq<Metric>, c: Context)
    ensures forall m :: m in Appended(systemIntegration, scope, src, c) ==>
      DatasetOf(Base(scope)).Some? && FullyLabelled(m, DatasetOf(Base(scope)).value, systemIntegration)
  {
    var scraper := Base(scope);
    if Valid(scope) && DatasetOf(scraper).Some? {
      var dataset := DatasetOf(scraper).value;
      var f := DatasetMutator(dataset, systemIntegration);
      DatasetMutatorLabels(dataset, systemIntegration);
      RemapByKeepsLabels(scraper, src, f, c, OTEL_REMAPPED, BoolValue(true));
      RemapByKeepsLabels(scraper, src, f, c, EVENT_DATASET, StrValue(dataset));
      RemapByKeepsLabels(scraper, src, f, c, EVENT_MODULE, StrValue("system"));
      if systemIntegration {
        RemapByKeepsLabels(scraper, src, f, c, DATASTREAM_DATASET, StrValue(dataset));
      }
    }
  }

  // ---------- Output is never remapped, by any remapper ----------

  lemma RemapByIsUnread(scraper: string, src: seq<Metric>, mutator: Mutator, c: Context)
    ensures NoneRead(RemapBy(scraper, src, mutator, c))
  {
    if scraper == "cpuscraper" {
      CpuOutput(src, mutator);
    } else if scraper == "memoryscraper" {
      MemoryOutput(src, mutator);
    } else if scraper == "loadscraper" {
      LoadOutput(src, mutator);
    } else if scraper == "processscraper" {
      ProcessOutput(src, c.resource, mutator, c.format);
    } else if scraper == "processesscraper" {
      ProcessesOutput(src, mutator);
    } else if scraper == "networkscraper" {
      NetworkOutput(src, mutator);
    } else if scraper == "diskscraper" {
      DiskOutput(src, mutator);
    } else if scraper == "filesystemscraper" {
      FilesystemOutput(ConcatMap(src, Filesystem.Reads), mutator, c.order);
    }
  }

  lemma RemapByIgnores(scraper: string, src: seq<Metric>, extra: seq<Metric>, mutator: Mutator, c: Context)
    requires NoneRead(extra)
    ensures RemapBy(scraper, src + extra, mutator, c) == RemapBy(scraper, src, mutator, c)
  {
    if scraper == "cpuscraper" {
      Cpu.ExtraIsIgnored(src, extra, mutator);
    } else if scraper == "memoryscraper" {
      Memory.ExtraIsIgnored(src, extra, mutator);
    } else if scraper == "loadscraper" {
      Load.ExtraIsIgnored(src, extra, mutator);
    } else if scraper == "processscraper" {
      Process.ExtraIsIgnored(src, extra, c.resource, mutator, c.format);
    } else if scraper == "processesscraper" {
      Processes.ExtraIsIgnored(src, extra, mutator);
    } else if scraper == "networkscraper" {
      Network.ExtraIsIgnored(src, extra, mutator);
    } else if scraper == "diskscraper" {
      Disk.ExtraIsIgnored(src, extra, mutator);
    } else if scraper == "filesystemscraper" {
      Filesystem.ExtraIsIgnored(src, extra);
    }
  }

  ghost predicate AllSums(ms: seq<Metric>) {
    forall m :: m in ms ==> m.kind.Sum?
  }

  /** Only the network remapper asks something of metrics it does not know. */
  lemma StaysWellTyped(scraper: string, src: seq<Metric>, extra: seq<Metric>)
    requires NoneRead(extra) && WellTyped(scraper, src)
    requires scraper == "networkscraper" ==> AllSums(extra)
    ensures WellTyped(scraper, src + extra)
  {
  }

  /** The remapper never appends a gauge. */
  predicate AppendsSums(scraper: string) {
    scraper == "networkscraper" || scraper == "diskscraper" || scraper == "filesystemscraper" ||
    scraper == "processesscraper" || scraper == "pagingscraper"
  }

  lemma AppendedSums(scraper: string, src: seq<Metric>, mutator: Mutator, c: Context)
    requires AppendsSums(scraper)
    ensures AllSums(RemapBy(scraper, src, mutator, c))
  {
    if scraper == "networkscraper" {
      NetworkAppendsSums(src, mutator);
    } else if scraper == "diskscraper" {
      DiskAppendsSums(src, mutator);
    } else if scraper == "filesystemscraper" {
      FilesystemAppendsSums(src, mutator, c.order);
    } else if scraper == "processesscraper" {
      ProcessesAppendsSums(src, mutator);
    }
  }

  lemma NetworkAppendsSums(src: seq<Metric>, mutator: Mutator)
    ensures AllSums(Network.Remap(src, mutator))
  {
    Network.OutputNames(ConcatMap(src, Points), mutator);
  }

  lemma DiskAppendsSums(src: seq<Metric>, mutator: Mutator)
    ensures AllSums(Disk.Remap(src, mutator))
  {
    Disk.OutputNames(ConcatMap(src, Points), mutator);
  }

  lemma FilesystemAppendsSums(src: seq<Metric>, mutator: Mutator, order: seq<Filesystem.DeviceKey>)
    ensures AllSums(Filesystem.Remap(src, mutator, order))
  {
    Filesystem.OutputNames(ConcatMap(src, Filesystem.Reads), mutator, order);
  }

  lemma ProcessesAppendsSums(src: seq<Metric>, mutator: Mutator)
    ensures AllSums(Processes.Remap(src, mutator))
  {
    Processes.OutputNames(src, mutator);
  }

  /** For every two scopes: the metrics of the second together with what a call for the first
      appended are remapped as they were alone, whatever the resources and map orders; in
      particular a call never remaps its own output. They also stay well typed, except that the
      network remapper reads every metric as a sum. */
  lemma OutputIsNotReconsumed(first: bool, scope1: string, src1: seq<Metric>, c1: Context,
                              second: bool, scope2: string, src2: seq<Metric>, c2: Context)
    ensures Appended(second, scope2, src2 + Appended(first, scope1, src1, c1), c2) == Appended(second, scope2, src2, c2)
    ensures WellTyped(Base(scope2), src2) && MayFollow(Base(scope1), Base(scope2)) ==>
              WellTyped(Base(scope2), src2 + Appended(first, scope1, src1, c1))
  {
    var extra := Appended(first, scope1, src1, c1);
    AppendedIsUnread(first, scope1, src1, c1);
    AppendedIgnores(second, scope2, src2, extra, c2);
    if WellTyped(Base(scope2), src2) && MayFollow(Base(scope1), Base(scope2)) {
      AppendedStaysSums(first, scope1, src1, c1);
      StaysWellTyped(Base(scope2), src2, extra);
    }
  }

  /** A call for `later` may read a slice to which a call for `earlier` has appended. */
  predicate MayFollow(earlier: string, later: string) {
    later == "networkscraper" ==> AppendsSums(earlier)
  }

  lemma AppendedStaysSums(systemIntegration: bool, scope: string, src: seq<Metric>, c: Context)
    ensures AppendsSums(Base(scope)) ==> AllSums(Appended(systemIntegration, scope, src, c))
  {
    var dataset := DatasetOf(Base(scope));
    if AppendsSums(Base(scope)) && dataset.Some? {
      AppendedSums(Base(scope), src, DatasetMutator(dataset.value, systemIntegration), c);
    }
  }

  lemma AppendedIsUnread(systemIntegration: bool, scope: string, src: seq<Metric>, c: Context)
    ensures NoneRead(Appended(systemIntegration, scope, src, c))
  {
    var dataset := DatasetOf(Base(scope));
    if dataset.Some? {
      RemapByIsUnread(Base(scope), src, DatasetMutator(dataset.value, systemIntegration), c);
    }
  }

  lemma AppendedIgnores(systemIntegration: bool, scope: string, src: seq<Metric>, extra: seq<Metric>, c: Context)
    requires NoneRead(extra)
    ensures Appended(systemIntegration, scope, src + extra, c) == Appended(systemIntegration, scope, src, c)
  {
    var dataset := DatasetOf(Base(scope));
    if dataset.Some? {
      RemapByIgnores(Base(scope), src, extra, DatasetMutator(dataset.value, systemIntegration), c);
    }
  }
}
