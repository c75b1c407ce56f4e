# Verification of agent configuration caching and host metric remapping

Two parts of the repository are modelled and proved in Dafny.

**Agent configuration cache** (`agentcfg`). A background job scrolls through an Elasticsearch
index into a private buffer, swaps the buffer in under a write lock and then sets an atomic
flag. Any number of `Fetch` calls load the flag, take the read lock and match their query.

* `Matcher.dfy`: the one-pass matcher with its `break` and overlapping branches refines a
  declarative precedence rule; the order of the list is irrelevant exactly when entries under
  one key agree.
* `Refresh.dfy`: the fetcher as a class. A server is any function from the history of requests
  to a reply; a deadline is the number of replies that still arrive in time.
* `Protocol.dfy`, `ProtocolRuns.dfy`: the same code as an interleaved step system, one step per
  flag load, lock operation, cache access and reply, and theorems over all its runs. As with
  Go's lock, a writer that waits keeps new readers out. Run alone,
  the steps do what the methods of the class do.

**Host metric remapping** (`remappers/hostmetrics`). Scrapers' metrics are folded into
accumulators, renamed, relabelled and appended to a shared output slice.

* `Int64.dfy`, `Sums.dfy`: wrapping 64-bit arithmetic, sums and flattened sequences, regrouping
  by a key, order independence; `Reals.dfy`: steps with products and quotients.
* `Pdata.dfy`, `RemappedMetric.dfy`: the metric slice as a class, validation and `Add`, chained
  attribute mutators and what labels survive them.
* `Network.dfy`, `Disk.dfy`, `Cpu.dfy`, `Memory.dfy`, `Process.dfy`, `Load.dfy`,
  `Processes.dfy`, `Filesystem.dfy`: one remapper each. Every method is proved to append exactly
  a function of the metrics it reads, also when source and output are the same slice; the
  theorems about that function follow in the same file, and what the output adds up to in
  `DiskSums.dfy` and `FilesystemSums.dfy`.
* `Readings.dfy`: what a slice of metrics says by literal names and attributes, independent of
  any scan; each remapper's section "Name by name" compares its output with it.
* `SourceNames.dfy`: no remapper gives a name that any remapper reads.
* `HostMetrics.dfy`, `Scopes.dfy`, `RemapRuns.dfy`: dispatch by scraper, what a call appends by the
  literal name of its scope, dataset labels, and series of calls on one output slice.

Integers of the source are 64 bits wide and wrap around; where a theorem needs the absence of
overflow it says so. Floating point values are reals.

Places where the code parts from its documentation or from a first reading:

* The comment of `matchAgentConfig` gives four levels of precedence but not what happens with
  several entries of one level. The code takes the first exact entry and the last entry of each
  other level (`Matcher.SelectMeaning`).
* `refreshCache` takes an empty scroll id for "no scroll open". Against a server that starts
  again with each search, a page with hits and an empty id makes the refresh go round until its
  deadline: `Refresh.PublishedIffIdsNonEmpty` gives the exact condition.
* `ErrNoValidElasticsearchConfig` need not describe any single moment of a call:
  `ProtocolRuns.NoValidConfigWithoutMoment` constructs such a run and
  `ProtocolRuns.NoValidConfigIsMomentaryIff` says exactly when it does.
* Used plus free bytes of memory are the total exactly when the last free value equals the sum
  of all of them: `Memory.UsedPlusFreeIff`.
* Disk renaming collides for an operation time whose direction is `io` or begins with `io.`:
  `Disk.RenamingCollidesIff`. The two times then add up under one name:
  `DiskSums.TimesConservedIff`.

## Model

| member | source | states |
|---|---|---|
| Matcher.MatchAgentConfig | agentcfg/fetch.go:62-100 | the loop with its three slots and `break` returns the settings, etag and agent of the entry of the highest level that has one, or no settings and the etag "-", for every list and query |
| Matcher.FirstMatch | agentcfg/fetch.go:68-70 | the first entry stored under a name and environment, or proof that there is none |
| Matcher.LastMatch | agentcfg/fetch.go:71-77 | the last entry stored under a name and environment, or proof that there is none |
| Matcher.SelectMeaning | agentcfg/fetch.go:55-66 | the fields of the first exact entry, else of the last with the name only, else of the last with the environment only, else of the last with neither, else no settings and the etag "-"; duplicates and empty query fields included |
| Matcher.SlotsSuffice | agentcfg/fetch.go:67-98 | wherever the pass ends, choosing from its three slots is choosing by precedence, although its branches overlap for empty names and environments |
| Matcher.SelectIsLookup | agentcfg/fetch.go:67-98 | when entries under one key agree, the pass equals four lookups in the index |
| Matcher.UniqueKeysAreConsistent | agentcfg/fetch.go:67-79 | a list without two entries of the same name and environment is consistent |
| Matcher.ConsistencyOfPermutation | agentcfg/elasticsearch.go:174-182 | another scroll order of a consistent list is consistent and has the same index |
| Matcher.OrderIrrelevantIffConsistent | agentcfg/fetch.go:67-98 | every order of the list answers every query alike if and only if entries under one key agree |
| Matcher.OrderMatters | agentcfg/fetch.go:67-98 | otherwise exchanging two entries changes the answer to some query |
| Refresh.ElasticsearchFetcher.constructor | agentcfg/elasticsearch.go:70-81 | a new fetcher has an empty cache and both flags unset |
| Refresh.ElasticsearchFetcher.Fetch | agentcfg/elasticsearch.go:84-97 | answers from the cache when it is initialized, otherwise gives the error the other flag calls for |
| Refresh.ElasticsearchFetcher.SinglePageRefresh | agentcfg/elasticsearch.go:215-250 | sends one search or scroll request, and only a 401 or 403 answer sets the invalid flag |
| Refresh.ElasticsearchFetcher.RefreshCache | agentcfg/elasticsearch.go:159-197 | against every server: requests follow the ids last returned; on success the cache is all hits in order; on failure at any page cache, time and initialized flag are unchanged |
| Refresh.ElasticsearchFetcher.RefreshOnce | agentcfg/elasticsearch.go:101-115 | tells the job to stop exactly when the refresh failed and the configuration is known to be invalid |
| Refresh.ElasticsearchFetcher.Run | agentcfg/elasticsearch.go:100-140 | stops by itself exactly at the first failure with an invalid configuration and keeps the last complete list published until then |
| Refresh.DecidingRequestIsUnique | agentcfg/elasticsearch.go:167-187 | only one request can end a refresh, so what a refresh does is determined by the server and the deadline |
| Refresh.Decider | agentcfg/elasticsearch.go:167-187 | every refresh is decided by some request before or at the deadline |
| Refresh.ClientFollowsIds | agentcfg/elasticsearch.go:183-186 | each request after the first carries the id last returned |
| Refresh.ScrollIsExact | agentcfg/elasticsearch.go:159-197 | against a server that splits a list into non-empty pages with non-empty, possibly changing ids, the refresh ends after pages + 1 requests with exactly that list |
| Refresh.LateScrollFails | agentcfg/elasticsearch.go:163-172 | with fewer answers in time the same refresh fails at the deadline |
| Refresh.RestartsForever | agentcfg/elasticsearch.go:220-226 | on a server that starts again at every search: once a page with hits came with an empty id, no later request gets beyond that page |
| Refresh.PublishedIffIdsNonEmpty | agentcfg/elasticsearch.go:183-186 | on a server that restarts at every search, the list is published if and only if no page with hits has an empty id |
| Protocol.StepKeepsInv | agentcfg/elasticsearch.go:84-197 | every step of every interleaving keeps the invariant on lock, flags, cache, buffer and calls |
| Protocol.AnswerKeepsInv | agentcfg/elasticsearch.go:167-187 | an answer never touches the shared cache and keeps the buffer equal to the hits so far |
| Protocol.SwapKeepsInv | agentcfg/elasticsearch.go:191-193 | exchanging the cache disturbs no call between taking and releasing the read lock |
| ProtocolRuns.InvAlways | agentcfg/elasticsearch.go:84-197 | the invariant holds in every state of every run |
| ProtocolRuns.TimeFlows | agentcfg/elasticsearch.go:191-194 | both flags and the history of published snapshots only grow along a run |
| ProtocolRuns.InitializedIff | agentcfg/elasticsearch.go:191-194 | in every run the initialized flag is set exactly when the step after an unlock has set it, not by the swap or the unlock |
| ProtocolRuns.InvalidIff | agentcfg/elasticsearch.go:238-242 | the configuration is invalid exactly after an answer with 401 or 403 |
| ProtocolRuns.PublishedBySwap | agentcfg/elasticsearch.go:167-193 | the swap and no other step changes cache and history; it publishes all answers since the refresh began and their hits |
| ProtocolRuns.StopsOnlyWhen | agentcfg/elasticsearch.go:103-138 | the job stops only when cancelled between refreshes or after a failed refresh when a 401 or 403 answer has come |
| ProtocolRuns.SucceedsIffInitialized | agentcfg/elasticsearch.go:84-97 | a call succeeds if and only if the flag had been set by an earlier step when the call loaded it, so never between swap and flag |
| ProtocolRuns.ErrorByAnswer | agentcfg/elasticsearch.go:92-96 | its error says whether a 401 or 403 answer had come when it loaded the second flag |
| ProtocolRuns.FetchServesPublishedCache | agentcfg/elasticsearch.go:84-90 | every successful call answers from the cache published at a moment between its start and return, the complete hits of one successful scroll, never a partial buffer or the initial empty cache |
| ProtocolRuns.LaterFetchSeesLaterCache | agentcfg/elasticsearch.go:84-90 | a call that starts after another has succeeded sees the same snapshot or a later one |
| ProtocolRuns.NoErrorAfterSuccess | agentcfg/elasticsearch.go:84-97 | no call that starts after a success ever fails, even after the job has stopped on 401 or 403 |
| ProtocolRuns.NotReadyIsJustified | agentcfg/elasticsearch.go:92-96 | "not ready" implies one moment inside the call when both flags were unset |
| ProtocolRuns.NoValidConfigIsJustified | agentcfg/elasticsearch.go:85-94 | "no valid config" implies an uninitialized cache at one moment of the call and an invalid configuration from a later one on, for ever |
| ProtocolRuns.InvalidFreezesCache | agentcfg/elasticsearch.go:103-110 | once the configuration is invalid nothing is published any more |
| ProtocolRuns.NoValidConfigIsMomentaryIff | agentcfg/elasticsearch.go:85-94 | that error is true of a single moment of the call if and only if the cache is still uninitialized at its return |
| ProtocolRuns.NoValidConfigWithoutMoment | agentcfg/elasticsearch.go:85-94 | a concrete run in which it is true of no single moment |
| ProtocolRuns.NoReaderWhileSwapping | agentcfg/elasticsearch.go:191-193 | the cache is written only while no call holds the read lock |
| ProtocolRuns.PendingAdmitsNoReader | agentcfg/elasticsearch.go:191 | once the refresher has called Lock no new reader gets in, so it waits only for those inside |
| ProtocolRuns.HelpersFinishFetch | agentcfg/elasticsearch.go:84-97 | no call is stuck: from every reachable state, every schedule of steps of the call itself, of calls holding the read lock and of the refresher between Lock and Unlock has at most 8 + 3 * readers steps, and when it cannot be continued the call has returned |
| ProtocolRuns.FetchCanFinish | agentcfg/elasticsearch.go:84-97 | so there is such a schedule after which the call has returned |
| ProtocolRuns.RefreshIsARun | agentcfg/elasticsearch.go:159-197 | run alone, the refresher's steps consume the same answers and leave the same cache and flags as the method RefreshCache |
| ProtocolRuns.FetchIsARun | agentcfg/elasticsearch.go:84-97 | run alone, a call's steps give the same outcome as the method Fetch |
| RemappedMetric.Add | remappers/internal/remappedmetric/metric.go:67-106 | appends exactly the valid metrics in order and leaves earlier entries alone |
| RemappedMetric.AddedShape | remappers/internal/remappedmetric/metric.go:46-64 | whatever is added has a name, a supported kind, one datapoint and a set time |
| RemappedMetric.AllOrNothing | remappers/internal/remappedmetric/metric.go:56-78 | metrics sharing one timestamp are added all together, or not at all if it is zero |
| RemappedMetric.AddedLabelled | remappers/internal/remappedmetric/metric.go:102-104 | a label left by the mutator is on every datapoint added |
| RemappedMetric.RunChain | remappers/internal/remappedmetric/mutator.go:28-34 | the loop over mutators computes their composition in order |
| RemappedMetric.LastWriterWins | remappers/internal/remappedmetric/mutator.go:28-34 | in a chain the last mutator that stores a key determines its value |
| RemappedMetric.ChainKeeps | remappers/internal/remappedmetric/mutator.go:28-34 | a key that no mutator of a chain writes keeps its value |
| Pdata.FirstSetMeaning | remappers/hostmetrics/process.go:42-47 | the registers for the first time hold the first non-zero time in scan order, and zero exactly if there is none |
| Network.RemapNetworkMetrics | remappers/hostmetrics/network.go:28-62 | ends and appends exactly the translation of the source, also when it re-reads its own output from the same slice |
| Network.AddDeviceMetric | remappers/hostmetrics/network.go:64-97 | appends one labelled metric for a known name and nothing otherwise |
| Network.OutputIsNotReconsumed | remappers/hostmetrics/network.go:33-59 | remapping the source together with its own output gives the same as remapping the source |
| Network.RemapConcat | remappers/hostmetrics/network.go:33-59 | remapping is a homomorphism of concatenation |
| Network.NewNameInjective | remappers/hostmetrics/network.go:71-92 | the new name determines source metric and direction |
| Network.NetworkConservation | remappers/hostmetrics/network.go:33-96 | per metric, device and direction, the emitted values add up to the source values whose time is set |
| Network.PointByName | remappers/hostmetrics/network.go:36-96 | a datapoint of one of the four metrics and two directions becomes one sum under its literal new name, with its value, time and device |
| Network.OthersDropped | remappers/hostmetrics/network.go:36-81 | every other datapoint is dropped |
| Network.ConservedByName | remappers/hostmetrics/network.go:71-96 | under each of the eight literal names and for each device, emitted values add up to those of the source metric and direction |
| Disk.RemapDiskMetrics | remappers/hostmetrics/disk.go:39-59 | ends and appends exactly the translation of the source, also on a shared slice, and never returns an error |
| Disk.AddDiskMetric | remappers/hostmetrics/disk.go:61-99 | fails exactly for an unknown name and then appends nothing; otherwise appends the translated datapoints |
| Disk.RenamingCollidesIff | remappers/hostmetrics/disk.go:30-36 | for all direction strings, two names collide if and only if metric and direction agree or an operation time meets an io time in the one possible way |
| Disk.RenamingOfDotFree | remappers/hostmetrics/disk.go:30-36 | among directions without a dot the only collision is operation time of "io" with io time of no direction |
| Disk.OutputIsNotReconsumed | remappers/hostmetrics/disk.go:45-57 | output is never remapped again, whatever the direction strings are |
| Disk.RemapConcat | remappers/hostmetrics/disk.go:45-98 | remapping is a homomorphism of concatenation |
| DiskSums.DiskConservation | remappers/hostmetrics/disk.go:45-98 | for every name, device and source: the emitted values add up to the scaled values of the datapoints of the device that are remapped to that name with a set time |
| DiskSums.CarriedIffFits | remappers/hostmetrics/disk.go:82-89 | the scaled value is exact if and only if it fits 64 bits |
| DiskSums.SharedNameIff | remappers/hostmetrics/disk.go:30-36 | two sources share a name exactly if they are the same or rivals, and a source has at most one rival |
| DiskSums.SourcesConserved | remappers/hostmetrics/disk.go:45-98 | where no value of the name and device overflows, the name carries what its source and the rival add up to, times 1000 for the two times |
| DiskSums.SourceConservedIff | remappers/hostmetrics/disk.go:45-98 | it carries its source alone if and only if the rival adds up to nothing |
| DiskSums.CountsConserved | remappers/hostmetrics/disk.go:49-50 | bytes, operations and pending operations are conserved per device and direction for every source |
| DiskSums.TimesConservedIff | remappers/hostmetrics/disk.go:51-52 | under a name they share, each of the two times is conserved if and only if the other adds up to nothing |
| DiskSums.UnrivalledTimeConserved | remappers/hostmetrics/disk.go:51-52 | a time whose name nothing else can get is conserved, times 1000 |
| DiskSums.TimesMeet | remappers/hostmetrics/disk.go:30-36 | an input on which the io time of no direction sourced 3 seconds and 5000 milliseconds are emitted under its name |
| DiskSums.PointByName | remappers/hostmetrics/disk.go:61-96 | a datapoint of one of the five metrics becomes one sum under its literal new name, with its value in the new unit, its time and device |
| DiskSums.OthersDropped | remappers/hostmetrics/disk.go:61-98 | every other datapoint is dropped |
| DiskSums.CountsByName | remappers/hostmetrics/disk.go:30-36 | per device and direction, bytes, operations and pending operations each add up under their own literal name |
| DiskSums.TimesByName | remappers/hostmetrics/disk.go:30-36 | under the literal name the two times share they add up together, times 1000 |
| DiskSums.OperationTimeByName | remappers/hostmetrics/disk.go:30-36 | operation times of any other direction add up alone under their literal name, times 1000 |
| DiskSums.IoTimeByName | remappers/hostmetrics/disk.go:30-36 | io times of any other direction add up alone under their literal name, times 1000 |
| Cpu.RemapCPUMetrics | remappers/hostmetrics/cpu.go:27-233 | appends the metrics given by the filtered sums over all datapoints read, in one or two groups |
| Cpu.ReadCPUMetrics | remappers/hostmetrics/cpu.go:32-86 | the nested loops with ten accumulators compute the first time, the last count and the sum per state |
| Cpu.TotalIsSumOfComponents | remappers/hostmetrics/cpu.go:58-82 | the total is the sum of the seven busy components |
| Cpu.TotalPlusIdleIsCpus | remappers/hostmetrics/cpu.go:50-84 | if the fractions of each CPU add up to one, total plus idle is the number of CPUs, although the cpu attribute is never read |
| Cpu.EmittedTotal | remappers/hostmetrics/cpu.go:89-145 | read off the output, the emitted total is the sum of the seven emitted parts |
| Cpu.EmittedNormalisedTotal | remappers/hostmetrics/cpu.go:153-232 | with a matching logical count the emitted normalised total and idle add up to one |
| Cpu.NoneNineOrTwenty | remappers/hostmetrics/cpu.go:89-230 | exactly 0, 9 or 20 metrics are appended, all with the first time that is set |
| Cpu.PercentsByName | remappers/hostmetrics/cpu.go:57-145 | under each of the nine literal names the sum of the utilizations of its own literal state, or of all busy states |
| Cpu.NormalisedByName | remappers/hostmetrics/cpu.go:147-232 | with a last logical count under each of eleven more names the count or the sum divided by it, without one nothing more |
| Cpu.OutputIsNotReconsumed | remappers/hostmetrics/cpu.go:39-86 | output is never remapped again |
| Memory.RemapMemoryMetrics | remappers/hostmetrics/memory.go:26-151 | appends the eight metrics in terms of sums over states, although used bytes are first subtracted and then completed |
| Memory.ReadMemoryMetrics | remappers/hostmetrics/memory.go:31-94 | the interdependent 64-bit accumulators hold the wrapped sums over states |
| Memory.MemoryIdentities | remappers/hostmetrics/memory.go:46-97 | read off the output: total, used bytes and actual free as sums over states, for every series of datapoints, on 64 bits |
| Memory.ActualFreePlusUsedIsTotal | remappers/hostmetrics/memory.go:96-97 | actual free plus actual used bytes is the total |
| Memory.UsedPlusFreeIff | remappers/hostmetrics/memory.go:52-55 | used plus free is the total if and only if the last free value is the sum of all free values |
| Memory.TwoFreeDatapoints | remappers/hostmetrics/memory.go:52-55 | an input on which it is not: two free datapoints of one byte each |
| Memory.UsedPlusFreeIsTotal | remappers/hostmetrics/memory.go:52-55 | in particular with at most one free datapoint |
| Memory.NoOverflow | remappers/hostmetrics/memory.go:46-67 | non-negative values with a bounded sum overflow no register at any prefix |
| Memory.IdentitiesWithoutOverflow | remappers/hostmetrics/memory.go:35-97 | then the identities between the emitted metrics hold in the integers |
| Memory.NoneOrEight | remappers/hostmetrics/memory.go:99-148 | nothing or eight metrics are appended, all with the first time that is set |
| Memory.EmittedByName | remappers/hostmetrics/memory.go:35-148 | under each of the eight literal names the usages or utilizations of its own literal states |
| Memory.OutputIsNotReconsumed | remappers/hostmetrics/memory.go:35-94 | output is never remapped again |
| Process.RemapProcessMetrics | remappers/hostmetrics/process.go:28-270 | appends the sixteen metrics given by first times, last values and the summed CPU time, labelled from the resource |
| Process.ReadProcessMetrics | remappers/hostmetrics/process.go:33-151 | the scan computes first set times, last values and the CPU time sum |
| Process.RuntimeWithinAMilli | remappers/hostmetrics/process.go:156-160 | rounding both times to milliseconds moves the runtime by less than one of them |
| Process.CpuShareBound | remappers/hostmetrics/process.go:159-161 | for a process that used at most c CPUs the emitted share is below c * (1 + 1/r), r its positive runtime in milliseconds |
| Process.TotalCoversSystemAndUser | remappers/hostmetrics/process.go:95-108 | with non-negative times the summed CPU time covers the last system and user times |
| Process.EmittedTicks | remappers/hostmetrics/process.go:153-159 | read off the output: total value equals total ticks and covers system and user ticks |
| Process.NoneOrSixteen | remappers/hostmetrics/process.go:167-267 | nothing or sixteen metrics are appended, all with the first time that is set |
| Process.EmittedByName | remappers/hostmetrics/process.go:37-267 | under each of the sixteen literal names what its own source metric and state or direction says, in its own unit |
| Process.MillisIsFloor | remappers/hostmetrics/process.go:156-157 | the start time is emitted in milliseconds, rounded down |
| Process.QuotientMeaning | remappers/hostmetrics/process.go:160-161 | the share times the runtime is the CPU time, and it is not finite exactly for a runtime of zero |
| Process.ResourcesAreStored | remappers/hostmetrics/process.go:272-305 | all attributes taken from the resource end up on the datapoint, none overwrites another |
| Process.EmittedResources | remappers/hostmetrics/process.go:272-305 | every emitted datapoint carries owner, command line, executable, name and parent of the resource under their literal keys, "undefined" where the source says so |
| Process.OutputIsNotReconsumed | remappers/hostmetrics/process.go:37-151 | output is never remapped again |
| Load.RemapLoadMetrics | remappers/hostmetrics/load.go:29-82 | appends the last load averages with the first time that is set |
| Load.EmittedByName | remappers/hostmetrics/load.go:37-80 | under each literal name the last average over its own period |
| Load.OutputIsNotReconsumed | remappers/hostmetrics/load.go:37-58 | output is never remapped again |
| Processes.RemapProcessesMetrics | remappers/hostmetrics/processes.go:26-120 | appends the last count per status and the wrapped sum over all that have a status |
| Processes.EmittedByName | remappers/hostmetrics/processes.go:34-118 | under each literal name the last count of its own status, and the wrapped sum of all that have one |
| Processes.RemapLabelled | remappers/hostmetrics/processes.go:70-80 | the dataset written last is the summary's, other labels stay |
| Processes.OutputIsNotReconsumed | remappers/hostmetrics/processes.go:34-68 | output is never remapped again |
| Filesystem.GetDeviceKey | remappers/hostmetrics/filesystem.go:140-157 | a key is found exactly when device, mountpoint and type are all present, and then holds the three of them |
| Filesystem.RemapFilesystemMetrics | remappers/hostmetrics/filesystem.go:43-106 | appends the per-datapoint metrics in order and then one summary per device seen, in some order of the devices, also on a shared slice |
| Filesystem.ReadFilesystemMetrics | remappers/hostmetrics/filesystem.go:48-91 | after the scan the map holds a separate record with the right registers for every device seen |
| Filesystem.AddToRecord | remappers/hostmetrics/filesystem.go:67-87 | registers and outputs of one datapoint, per metric and state |
| Filesystem.AddDevices | remappers/hostmetrics/filesystem.go:93-104 | walking the map visits each device once, whatever the order |
| Filesystem.TallyHoldsSums | remappers/hostmetrics/filesystem.go:59-87 | the registers gathered one datapoint at a time are the filtered sums over the datapoints of the device |
| Filesystem.OrderOnlyReorders | remappers/hostmetrics/filesystem.go:93-104 | the order of the map changes only the order of the output, not its multiset |
| Filesystem.OutputIsNotReconsumed | remappers/hostmetrics/filesystem.go:50-104 | output, in any order of devices, is never remapped again |
| FilesystemSums.SummariesAreExact | remappers/hostmetrics/filesystem.go:93-104 | for every device and kind of summary, how many are emitted and with which value, in terms of the wrapped sums over the device's datapoints |
| FilesystemSums.SummariesWithoutOverflow | remappers/hostmetrics/filesystem.go:93-104 | where the sums of a device fit 64 bits, one total and one percentage exactly if used plus free is positive, one file count exactly if the inodes are, with the integer sums and the quotient of used bytes by used plus free bytes as values |
| FilesystemSums.PctIsUsedOverTotal | remappers/hostmetrics/filesystem.go:95-99 | every emitted percentage is used over total of the device it is labelled with |
| FilesystemSums.PctBetweenZeroAndOne | remappers/hostmetrics/filesystem.go:95-98 | for non-negative values whose sum fits, every emitted percentage is used over used plus free in the integers and lies between zero and one |
| FilesystemSums.TotalsConserved | remappers/hostmetrics/filesystem.go:70-79 | the totals of all devices add up to all bytes counted |
| FilesystemSums.FilesystemConservation | remappers/hostmetrics/filesystem.go:59-101 | emitted totals, emitted used and free bytes, and source bytes with a complete key in a used or free state are the same amount |
| FilesystemSums.PointsByName | remappers/hostmetrics/filesystem.go:67-87 | under "system.filesystem.used.bytes", "free", "available" and "free_files", for every device and order: as many metrics and the same amount as the source metric has about the device in its own state with a set time |
| FilesystemSums.PointIsOf | remappers/hostmetrics/filesystem.go:122-136 | what a datapoint emits is a sum with its time, labelled with its device, mount point and type |
| FilesystemSums.SummaryIsOf | remappers/hostmetrics/filesystem.go:93-104 | the summaries of a device are sums with its labels and the time of the last datapoint read |
| FilesystemSums.SummariesByName | remappers/hostmetrics/filesystem.go:93-104 | where its sums fit, under the literal names: one total of used plus free bytes and one percentage of used in it exactly if that is positive, one number of files of used plus free inodes exactly if that is |
| HostMetrics.Remapper.Remap | remappers/hostmetrics/hostmetrics.go:79-116 | appends what the scraper's remapper makes of the scope's metrics and nothing for other scopes or unknown scrapers |
| HostMetrics.Remapper.Dispatch | remappers/hostmetrics/hostmetrics.go:46-55 | the table sends each scraper to its remapper, here for those that append datapoint by datapoint |
| HostMetrics.Remapper.DispatchSummary | remappers/hostmetrics/hostmetrics.go:46-55 | the rest of the table: the remappers that append one summary |
| Scopes.BaseMeaning | remappers/hostmetrics/hostmetrics.go:89 | the scraper is the last element of the scope's name, whatever precedes it and however many slashes follow |
| Scopes.BaseOfNothing | remappers/hostmetrics/hostmetrics.go:89 | a path without an element has the base "." or "/" |
| Scopes.OtherLibraries | remappers/hostmetrics/hostmetrics.go:118-122 | a scope that does not start with the receiver's path is left alone |
| Scopes.CpuScope | remappers/hostmetrics/hostmetrics.go:32-55 | a call on a scope ending in "/cpuscraper" appends the CPU remapping of its metrics under dataset "system.cpu" |
| Scopes.DiskScope | remappers/hostmetrics/hostmetrics.go:32-55 | a call on a scope ending in "/diskscraper" appends the disk remapping of its metrics under dataset "system.diskio" |
| Scopes.FilesystemScope | remappers/hostmetrics/hostmetrics.go:32-55 | a call on a scope ending in "/filesystemscraper" appends the filesystem remapping of its metrics under dataset "system.filesystem" |
| Scopes.LoadScope | remappers/hostmetrics/hostmetrics.go:32-55 | a call on a scope ending in "/loadscraper" appends the load remapping of its metrics under dataset "system.load" |
| Scopes.MemoryScope | remappers/hostmetrics/hostmetrics.go:32-55 | a call on a scope ending in "/memoryscraper" appends the memory remapping of its metrics under dataset "system.memory" |
| Scopes.NetworkScope | remappers/hostmetrics/hostmetrics.go:32-55 | a call on a scope ending in "/networkscraper" appends the network remapping of its metrics under dataset "system.network" |
| Scopes.ProcessesScope | remappers/hostmetrics/hostmetrics.go:32-55 | a call on a scope ending in "/processesscraper" appends the process summary remapping of its metrics under dataset "system.process.summary" |
| Scopes.ProcessScope | remappers/hostmetrics/hostmetrics.go:32-55 | a call on a scope ending in "/processscraper" appends the process remapping of its metrics under dataset "system.process" |
| Scopes.PagingScope | remappers/hostmetrics/hostmetrics.go:32-55 | a call on a scope ending in "/pagingscraper" appends nothing |
| Scopes.OtherScrapers | remappers/hostmetrics/hostmetrics.go:91-107 | so does a call for any scraper other than the eight |
| Scopes.LabelsByName | remappers/hostmetrics/hostmetrics.go:96-102 | every metric appended carries "otel_remapped", "event.dataset", "event.module" and, when asked for, "data_stream.dataset", with the literal values of its scraper |
| Scopes.MutatorByName | remappers/hostmetrics/hostmetrics.go:96-102 | the mutator of a scope writes these keys and no others |
| HostMetrics.AppendedIsLabelled | remappers/hostmetrics/hostmetrics.go:96-102 | every metric appended ends marked as remapped and with its scraper's dataset, whatever the remapper chains after the dataset mutator |
| HostMetrics.RemapByIsUnread | remappers/hostmetrics/hostmetrics.go:46-55 | no remapper gives a metric a name that any of the eight remappers reads, whatever the disk directions are |
| HostMetrics.OutputIsNotReconsumed | remappers/hostmetrics/hostmetrics.go:79-116 | for every two scopes, adding the output of one to the source of the other changes nothing in what a call for the other appends; only the network remapper asks that what is added be sums |
| RemapRuns.CallsOnlyAppend | remappers/hostmetrics/hostmetrics.go:79-116 | over a series of calls on one output earlier entries never change |
| RemapRuns.SeriesIsLabelled | remappers/hostmetrics/hostmetrics.go:96-108 | every entry that was not there at first carries the labels of the call that appended it |
| RemapRuns.RemapAll | remappers/hostmetrics/hostmetrics.go:79-116 | any series of calls on one slice, which may also be their source: the old entries stay, each new one carries the labels of its call, and a call that reads the growing output appends what it would have appended at first |

## Left out

- HTTP, JSON decoding, clearing of scrolls, logging: a reply is a page, a 401 or 403 answer, or any other failure.
- Tickers, contexts and real time: a deadline is a number of answers that arrive in time, a run of the job is a finite series of refreshes, and the clock is a parameter.
- More than one job per fetcher: each fetcher has one refresher.
- Go's memory model: each load and store is one atomic step of the protocol, and a call of Lock is two, asking and getting. The order in which waiting readers are let in is left open.
- The conversion of JSON settings to strings and the construction of results from JSON.
- The Elasticsearch client configuration: it wires a library that is not part of this model.
- The Kubernetes remappers: the same fold over datapoints as the CPU and memory remappers, on other names.
- Options and their plumbing: the one option is a constant of the remapper.
- Rounding, infinities and NaN of floating point numbers: values are finite reals; only a quotient by a zero runtime is kept apart as not finite.
- The inside of the metric data library: capacities are not observable, and a metric of another kind than its remapper reads, or without the datapoint it takes first, is excluded by `WellTyped` because the library panics there.
- Pointers into a metric: metrics and datapoints are values held by the shared slice, so two references to one datapoint are not modelled.
- Mutators are functions on attribute maps, and attributes are unordered.
- A nil metric in `Valid`, and the difference between a nil and an empty settings map.
- Rendering of the start time: a function parameter `format` stands for it.
- The switches of the CPU, memory, process and process summary scans are written as functions from registers to registers, and inner loops as methods of their own.
- Process.RuntimeWithinAMilli: is about times before the year 2262; later ones read as negative in the source and in `Millis`.
- Cpu.EmittedNormalisedTotal: asks for exact fractions, because values are reals.
- Refresh.PublishedIffIdsNonEmpty: is about servers that answer each search with the first page; other servers may answer a repeated search in any way.
