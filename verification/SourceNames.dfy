/** The names the remappers read and the names they give have nothing in common. */
module SourceNames {
  import opened Int64
  import opened Pdata
  import opened RemappedMetric
  import opened Sums
  import Cpu
  import Memory
  import Load
  import Process
  import Processes
  import Network
  import Disk
  import Filesystem

  /** Some remapper reads metrics of this name. */
  predicate IsRead(name: string) {
    || !Cpu.Unread(name) || !Memory.Unread(name) || Load.Known(name)
    || !Process.Unread(name) || name == Processes.COUNT
    || Network.Known(name) || Disk.Known(name) || !Filesystem.Unread(name)
  }

  /** No metric of the sequence is read by any remapper. */
  predicate NoneRead(ms: seq<Metric>) {
    forall m :: m in ms ==> !IsRead(m.name)
  }

  // ---------- By the letter after "system." ----------

  lemma CpuLetter(name: string)
    requires |name| > 11 && name[7] == 'c' && name[11] != 'l' && Cpu.Unread(name)
    ensures !IsRead(name)
  {
  }

  lemma LoadLetter(name: string)
    requires |name| > 7 && name[7] == 'l'
    ensures !IsRead(name)
  {
  }

  lemma MemoryLetter(name: string)
    requires |name| > 7 && name[7] == 'm' && Memory.Unread(name)
    ensures !IsRead(name)
  {
  }

  lemma ProcessLetter(name: string)
    requires |name| > 14 && name[0] == 's' && name[7] == 'p' && name[14] == '.'
    ensures !IsRead(name)
  {
  }

  lemma NoLetter(name: string)
    requires |name| > 7 && name[7] == '.' && Process.Unread(name)
    ensures !IsRead(name)
  {
  }

  lemma NetworkLetter(name: string)
    requires |name| > 7 && name[7] == 'n' && !Network.Known(name)
    ensures !IsRead(name)
  {
  }

  lemma DiskLetter(name: string)
    requires |name| > 11 && name[7] == 'd' && name[11] == 'i'
    ensures !IsRead(name)
  {
  }

  lemma FilesystemLetter(name: string)
    requires |name| > 7 && name[7] == 'f' && Filesystem.Unread(name)
    ensures !IsRead(name)
  {
  }

  // ---------- Output by output ----------

  predicate CpuName(name: string) {
    |name| > 11 && ((name[7] == 'c' && name[11] != 'l') || name[7] == 'l')
  }

  lemma PercentNames(ts: Timestamp, t: Cpu.Totals)
    ensures forall k :: 0 <= k < |Cpu.Percents(ts, t)| ==> CpuName(Cpu.Percents(ts, t)[k].name)
  {
  }

  lemma PerCoreNames(ts: Timestamp, cores: int64, t: Cpu.Totals)
    requires cores != 0
    ensures forall r :: r in Cpu.PerCore(ts, cores, t) ==> CpuName(r.name)
  {
    CountNames(ts, cores);
    NormalisedNames(ts, cores, t);
  }

  lemma CountNames(ts: Timestamp, cores: int64)
    ensures forall k :: 0 <= k < |Cpu.Counts(ts, cores)| ==> CpuName(Cpu.Counts(ts, cores)[k].name)
  {
  }

  lemma NormalisedNames(ts: Timestamp, cores: int64, t: Cpu.Totals)
    requires cores != 0
    ensures forall k :: 0 <= k < |Cpu.Normalised(ts, cores, t)| ==> CpuName(Cpu.Normalised(ts, cores, t)[k].name)
  {
  }

  lemma CpuOutput(src: seq<Metric>, mutator: Mutator)
    ensures NoneRead(Cpu.Remap(src, mutator))
  {
    var ss := ConcatMap(src, Cpu.Reads);
    PercentNames(FirstTimestamp(ss), Cpu.TotalsOf(ss));
    if Cpu.Cores(ss) != 0 {
      PerCoreNames(FirstTimestamp(ss), Cpu.Cores(ss), Cpu.TotalsOf(ss));
    }
    AddedNames(Cpu.Output(ss), mutator, CpuName);
    Cpu.OutputIsDead(src, mutator);
    forall m | m in Cpu.Remap(src, mutator)
      ensures !IsRead(m.name)
    {
      if m.name[7] == 'l' {
        LoadLetter(m.name);
      } else {
        CpuLetter(m.name);
      }
    }
  }

  predicate MemoryName(name: string) {
    |name| > 7 && name[7] == 'm'
  }

  lemma MemoryNames(ss: seq<Sample>)
    ensures forall k :: 0 <= k < |Memory.OutputOf(ss)| ==> MemoryName(Memory.OutputOf(ss)[k].name)
  {
  }

  lemma MemoryOutput(src: seq<Metric>, mutator: Mutator)
    ensures NoneRead(Memory.Remap(src, mutator))
  {
    MemoryNames(ConcatMap(src, Memory.Reads));
    AddedNames(Memory.OutputOf(ConcatMap(src, Memory.Reads)), mutator, MemoryName);
    Memory.OutputIsDead(src, mutator);
    forall m | m in Memory.Remap(src, mutator)
      ensures !IsRead(m.name)
    {
      MemoryLetter(m.name);
    }
  }

  lemma LoadOutput(src: seq<Metric>, mutator: Mutator)
    ensures NoneRead(Load.Remap(src, mutator))
  {
    Load.OutputNames(src, mutator);
    forall m | m in Load.Remap(src, mutator)
      ensures !IsRead(m.name)
    {
      LoadLetter(m.name);
    }
  }

  lemma ProcessOutput(src: seq<Metric>, resource: Attributes, mutator: Mutator, format: int64 -> string)
    ensures NoneRead(Process.Remap(src, resource, mutator, format))
  {
    Process.OutputIsDead(src, resource, mutator, format);
    forall m | m in Process.Remap(src, resource, mutator, format)
      ensures !IsRead(m.name)
    {
      ProcessName(m.name);
    }
  }

  lemma ProcessName(name: string)
    requires Process.IsNewName(name) && Process.Unread(name)
    ensures !IsRead(name)
  {
    if name[0] == 's' {
      ProcessLetter(name);
    } else {
      NoLetter(name);
    }
  }

  lemma ProcessesOutput(src: seq<Metric>, mutator: Mutator)
    ensures NoneRead(Processes.Remap(src, mutator))
  {
    Processes.OutputNames(src, mutator);
    forall m | m in Processes.Remap(src, mutator)
      ensures !IsRead(m.name)
    {
      ProcessLetter(m.name);
    }
  }

  lemma NetworkOutput(src: seq<Metric>, mutator: Mutator)
    ensures NoneRead(Network.Remap(src, mutator))
  {
    Network.OutputNames(ConcatMap(src, Points), mutator);
    forall m | m in Network.Remap(src, mutator)
      ensures !IsRead(m.name)
    {
      Network.NewNamesAreUnknown(m.name);
      NetworkLetter(m.name);
    }
  }

  lemma DiskOutput(src: seq<Metric>, mutator: Mutator)
    ensures NoneRead(Disk.Remap(src, mutator))
  {
    Disk.OutputNames(ConcatMap(src, Points), mutator);
    forall m | m in Disk.Remap(src, mutator)
      ensures !IsRead(m.name)
    {
      DiskLetter(m.name);
    }
  }

  lemma FilesystemOutput(ss: seq<Sample>, mutator: Mutator, order: seq<Filesystem.DeviceKey>)
    ensures NoneRead(Filesystem.Output(ss, mutator, order))
  {
    Filesystem.OutputNames(ss, mutator, order);
    forall m | m in Filesystem.Output(ss, mutator, order)
      ensures !IsRead(m.name)
    {
      FilesystemLetter(m.name);
    }
  }
}
