/** What a call appends, by the literal name of its scope. */
module Scopes {
  import opened Int64
  import opened Sums
  import opened Pdata
  import opened Readings
  import opened RemappedMetric
  import opened Wrappers
  import opened HostMetrics
  import Cpu
  import Memory
  import Load
  import Process
  import Processes
  import Network
  import Disk
  import Filesystem

  // ---------- The last element of a path ----------

  predicate AllSlashes(s: string) {
    forall c :: c in s ==> c == '/'
  }

  lemma {:induction false} StripSlashesMeaning(path: string, slashes: string)
    requires AllSlashes(slashes) && (path == "" || path[|path| - 1] != '/')
    ensures StripSlashes(path + slashes) == path
  {
    if slashes == "" {
      assert path + slashes == path;
    } else {
      var n := |slashes| - 1;
      assert slashes[n] in slashes;
      assert (path + slashes)[..|path| + n] == path + slashes[..n];
      assert forall c :: c in slashes[..n] ==> c in slashes;
      StripSlashesMeaning(path, slashes[..n]);
    }
  }

  lemma {:induction false} AfterLastSlashMeaning(p: string, name: string)
    requires '/' !in name && (p == "" || p[|p| - 1] == '/')
    ensures AfterLastSlash(p + name) == name
  {
    if name == "" {
      assert p + name == p;
    } else {
      var n := |name| - 1;
      assert (p + name)[..|p| + n] == p + name[..n];
      assert name[n] in name && forall c :: c in name[..n] ==> c in name;
      AfterLastSlashMeaning(p, name[..n]);
    }
  }

  /** The last element of a path that has one, whatever slashes follow it. */
  lemma BaseMeaning(p: string, name: string, slashes: string)
    requires name != "" && '/' !in name && (p == "" || p[|p| - 1] == '/') && AllSlashes(slashes)
    ensures Base(p + name + slashes) == name
  {
    assert (p + name)[|p + name| - 1] == name[|name| - 1] && name[|name| - 1] in name;
    StripSlashesMeaning(p + name, slashes);
    AfterLastSlashMeaning(p, name);
  }

  /** A path without an element. */
  lemma BaseOfNothing(slashes: string)
    requires AllSlashes(slashes)
    ensures Base(slashes) == if slashes == "" then "." else "/"
  {
    assert "" + slashes == slashes;
    StripSlashesMeaning("", slashes);
  }

  // ---------- Scopes ----------

  const RECEIVER := "github.com/open-telemetry/opentelemetry-collector-contrib/receiver/hostmetricsreceiver"

  /** The scope of a scraper, wherever its package lies below the receiver's. */
  function ScopeOf(middle: string, scraper: string): string {
    RECEIVER + middle + "/" + scraper
  }

  lemma ScopeIsValid(middle: string, scraper: string)
    requires scraper != "" && '/' !in scraper
    ensures Valid(ScopeOf(middle, scraper)) && Base(ScopeOf(middle, scraper)) == scraper
  {
    var p := RECEIVER + middle + "/";
    assert ScopeOf(middle, scraper) == RECEIVER + (middle + "/" + scraper);
    assert ScopeOf(middle, scraper) == p + scraper + "";
    BaseMeaning(p, scraper, "");
  }

  /** The scope of any other library is left alone. */
  lemma OtherLibraries(b: bool, scope: string, src: seq<Metric>, c: Context)
    requires !(RECEIVER <= scope)
    ensures Appended(b, scope, src, c) == []
  {
  }

  /** What the call appends when the scraper has a dataset. */
  lemma AppendedFor(b: bool, middle: string, scraper: string, dataset: string, src: seq<Metric>, c: Context)
    requires scraper != "" && '/' !in scraper && DatasetOf(scraper) == Some(dataset)
    ensures Appended(b, ScopeOf(middle, scraper), src, c) ==
            RemapBy(scraper, src, DatasetMutator(dataset, b), c)
  {
    ScopeIsValid(middle, scraper);
  }

  lemma CpuScope(b: bool, middle: string, src: seq<Metric>, c: Context)
    ensures Appended(b, ScopeOf(middle, "cpuscraper"), src, c) == Cpu.Remap(src, DatasetMutator("system.cpu", b))
  {
    AppendedFor(b, middle, "cpuscraper", "system.cpu", src, c);
  }

  lemma DiskScope(b: bool, middle: string, src: seq<Metric>, c: Context)
    ensures Appended(b, ScopeOf(middle, "diskscraper"), src, c) == Disk.Remap(src, DatasetMutator("system.diskio", b))
  {
    AppendedFor(b, middle, "diskscraper", "system.diskio", src, c);
  }

  lemma FilesystemScope(b: bool, middle: string, src: seq<Metric>, c: Context)
    ensures Appended(b, ScopeOf(middle, "filesystemscraper"), src, c) ==
            Filesystem.Remap(src, DatasetMutator("system.filesystem", b), c.order)
  {
    AppendedFor(b, middle, "filesystemscraper", "system.filesystem", src, c);
  }

  lemma LoadScope(b: bool, middle: string, src: seq<Metric>, c: Context)
    ensures Appended(b, ScopeOf(middle, "loadscraper"), src, c) == Load.Remap(src, DatasetMutator("system.load", b))
  {
    AppendedFor(b, middle, "loadscraper", "system.load", src, c);
  }

  lemma MemoryScope(b: bool, middle: string, src: seq<Metric>, c: Context)
    ensures Appended(b, ScopeOf(middle, "memoryscraper"), src, c) ==
            Memory.Remap(src, DatasetMutator("system.memory", b))
  {
    AppendedFor(b, middle, "memoryscraper", "system.memory", src, c);
  }

  lemma NetworkScope(b: bool, middle: string, src: seq<Metric>, c: Context)
    ensures Appended(b, ScopeOf(middle, "networkscraper"), src, c) ==
            Network.Remap(src, DatasetMutator("system.network", b))
  {
    AppendedFor(b, middle, "networkscraper", "system.network", src, c);
  }

  lemma ProcessesScope(b: bool, middle: string, src: seq<Metric>, c: Context)
    ensures Appended(b, ScopeOf(middle, "processesscraper"), src, c) ==
            Processes.Remap(src, DatasetMutator("system.process.summary", b))
  {
    AppendedFor(b, middle, "processesscraper", "system.process.summary", src, c);
  }

  lemma ProcessScope(b: bool, middle: string, src: seq<Metric>, c: Context)
    ensures Appended(b, ScopeOf(middle, "processscraper"), src, c) ==
            Process.Remap(src, c.resource, DatasetMutator("system.process", b), c.format)
  {
    AppendedFor(b, middle, "processscraper", "system.process", src, c);
  }

  /** The paging scraper has a dataset but no remapper. */
  lemma PagingScope(b: bool, middle: string, src: seq<Metric>, c: Context)
    ensures Appended(b, ScopeOf(middle, "pagingscraper"), src, c) == []
  {
    AppendedFor(b, middle, "pagingscraper", "system.memory", src, c);
  }

  predicate IsRemapped(scraper: string) {
    scraper == "cpuscraper" || scraper == "diskscraper" || scraper == "filesystemscraper" || scraper == "loadscraper" ||
    scraper == "memoryscraper" || scraper == "networkscraper" || scraper == "processesscraper" ||
    scraper == "processscraper"
  }

  /** Any other scraper is left alone. */
  lemma OtherScrapers(b: bool, scope: string, src: seq<Metric>, c: Context)
    requires !IsRemapped(Base(scope))
    ensures Appended(b, scope, src, c) == []
  {
  }

  // ---------- Labels ----------

  predicate IsLabelled(m: Metric, dataset: string, systemIntegration: bool) {
    && |m.dataPoints| == 1
    && "otel_remapped" in m.dataPoints[0].attributes
    && m.dataPoints[0].attributes["otel_remapped"] == BoolValue(true)
    && HasStr(m.dataPoints[0], "event.dataset", dataset)
    && HasStr(m.dataPoints[0], "event.module", "system")
    && (systemIntegration ==> HasStr(m.dataPoints[0], "data_stream.dataset", dataset))
  }

  /** The table of datasets. */
  predicate HasDataset(scraper: string, dataset: string) {
    || (scraper == "cpuscraper" && dataset == "system.cpu")
    || (scraper == "diskscraper" && dataset == "system.diskio")
    || (scraper == "filesystemscraper" && dataset == "system.filesystem")
    || (scraper == "loadscraper" && dataset == "system.load")
    || (scraper == "memoryscraper" && dataset == "system.memory")
    || (scraper == "networkscraper" && dataset == "system.network")
    || (scraper == "processesscraper" && dataset == "system.process.summary")
    || (scraper == "processscraper" && dataset == "system.process")
  }

  /** Every metric appended for a scope carries the mark, the dataset of the table and the module,
      and the stream's dataset when it is asked for. */
  lemma LabelsByName(b: bool, middle: string, scraper: string, dataset: string, src: seq<Metric>, c: Context)
    requires HasDataset(scraper, dataset)
    ensures forall m :: m in Appended(b, ScopeOf(middle, scraper), src, c) ==> IsLabelled(m, dataset, b)
  {
    TableIsDataset(scraper, dataset);
    ScopeIsValid(middle, scraper);
    AppendedIsLabelled(b, ScopeOf(middle, scraper), src, c);
  }

  lemma TableIsDataset(scraper: string, dataset: string)
    requires HasDataset(scraper, dataset)
    ensures scraper != "" && '/' !in scraper && DatasetOf(scraper) == Some(dataset)
  {
  }

  /** The mutator of a scope writes these labels and nothing else. */
  lemma MutatorByName(dataset: string, a: Attributes)
    ensures var two := a["event.dataset" := StrValue(dataset)]["event.module" := StrValue("system")];
            && DatasetMutator(dataset, false)(a) == two
            && DatasetMutator(dataset, true)(a) == two["data_stream.dataset" := StrValue(dataset)]
  {
  }
}
