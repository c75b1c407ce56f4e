/** Series of calls of `Remap` on one output slice, which may also be a source. */
module RemapRuns {
  import opened Int64
  import opened Sums
  import opened Pdata
  import opened RemappedMetric
  import opened Wrappers
  import opened SourceNames
  import opened HostMetrics

  /** What a caller passes to one call. */
  datatype Request = Request(remapper: Remapper, scope: string, src: MetricSlice, resource: Attributes,
                             format: int64 -> string)

  /** The same call in terms of values. */
  datatype Call = Call(systemIntegration: bool, scope: string, src: seq<Metric>, c: Context)

  function AppendedBy(call: Call): seq<Metric> {
    Appended(call.systemIntegration, call.scope, call.src, call.c)
  }

  /** `outs[n]` is the output after `n` calls. */
  ghost predicate IsSeries(calls: seq<Call>, outs: seq<seq<Metric>>) {
    && |outs| == |calls| + 1
    && forall n :: 0 <= n < |calls| ==> Steps(calls, outs, n)
  }

  ghost predicate Steps(calls: seq<Call>, outs: seq<seq<Metric>>, n: int)
    requires 0 <= n < |calls| < |outs|
  {
    outs[n + 1] == outs[n] + AppendedBy(calls[n])
  }

  /** Entry `k` was appended by call `n` and carries its labels. */
  ghost predicate LabelledBy(calls: seq<Call>, outs: seq<seq<Metric>>, n: nat, k: nat, m: Metric)
    requires n < |calls| && |outs| == |calls| + 1
  {
    && |outs[n]| <= k < |outs[n + 1]|
    && DatasetOf(Base(calls[n].scope)).Some?
    && FullyLabelled(m, DatasetOf(Base(calls[n].scope)).value, calls[n].systemIntegration)
  }

  lemma CallAppends(calls: seq<Call>, outs: seq<seq<Metric>>, n: nat)
    requires IsSeries(calls, outs) && n < |calls|
    ensures outs[n] <= outs[n + 1]
  {
    assert Steps(calls, outs, n);
  }

  lemma {:induction false} CallsOnlyAppend(calls: seq<Call>, outs: seq<seq<Metric>>, i: nat, j: nat)
    requires IsSeries(calls, outs) && i <= j <= |calls|
    ensures outs[i] <= outs[j]
    decreases j - i
  {
    if i < j {
      CallsOnlyAppend(calls, outs, i, j - 1);
      CallAppends(calls, outs, j - 1);
    }
  }

  /** Every entry that was not there at first carries the labels of the call that appended it. */
  lemma {:induction false} SeriesIsLabelled(calls: seq<Call>, outs: seq<seq<Metric>>, i: nat, j: nat, k: nat)
    requires IsSeries(calls, outs) && i <= j <= |calls|
    requires |outs[i]| <= k < |outs[j]|
    ensures exists n: nat :: i <= n < j && LabelledBy(calls, outs, n, k, outs[j][k])
    decreases j - i
  {
    var n: nat := j - 1;
    assert Steps(calls, outs, n);
    if k < |outs[n]| {
      SeriesIsLabelled(calls, outs, i, n, k);
      assert outs[n][k] == outs[j][k];
    } else {
      var call := calls[n];
      AppendedIsLabelled(call.systemIntegration, call.scope, call.src, call.c);
      assert outs[j][k] == AppendedBy(call)[k - |outs[n]|];
      assert LabelledBy(calls, outs, n, k, outs[j][k]);
    }
  }

  // ---------- On the heap ----------

  /** Request `k` finds a well-typed source, whatever the requests before it append: its own
      metrics `was` are, and when it shares the output the earlier calls leave it so. */
  ghost predicate Ready(requests: seq<Request>, k: nat, shared: bool, was: seq<Metric>)
    requires k < |requests|
  {
    Valid(requests[k].scope) ==>
      && WellTyped(Base(requests[k].scope), was)
      && (shared ==> forall j :: 0 <= j < k ==> MayFollow(Base(requests[j].scope), Base(requests[k].scope)))
  }

  /** The call made for request `r` with source `now`; it appends what it would have appended
      with the source `was`. */
  ghost predicate Answers(call: Call, r: Request, was: seq<Metric>, now: seq<Metric>) {
    && call.systemIntegration == r.remapper.systemIntegrationDataset && call.scope == r.scope
    && call.src == now && call.c.resource == r.resource && call.c.format == r.format
    && AppendedBy(call) == AppendedBy(call.(src := was))
  }

  /** What has been appended since the first call is not read by anyone, and network scopes
      still find only sums if they may follow all scopes so far. */
  ghost predicate Harmless(requests: seq<Request>, n: nat, extra: seq<Metric>)
    requires n <= |requests|
  {
    && NoneRead(extra)
    && ((forall j :: 0 <= j < n ==> AppendsSums(Base(requests[j].scope))) ==> AllSums(extra))
  }

  lemma StillReady(requests: seq<Request>, k: nat, was: seq<Metric>, extra: seq<Metric>)
    requires k < |requests| && Harmless(requests, k, extra)
    requires Ready(requests, k, true, was) && Valid(requests[k].scope)
    ensures WellTyped(Base(requests[k].scope), was + extra)
  {
    StaysWellTyped(Base(requests[k].scope), was, extra);
  }

  lemma StaysHarmless(requests: seq<Request>, n: nat, extra: seq<Metric>, call: Call)
    requires n < |requests| && Harmless(requests, n, extra) && call.scope == requests[n].scope
    ensures Harmless(requests, n + 1, extra + AppendedBy(call))
  {
    AppendedIsUnread(call.systemIntegration, call.scope, call.src, call.c);
    AppendedStaysSums(call.systemIntegration, call.scope, call.src, call.c);
  }

  lemma SeriesSnoc(calls: seq<Call>, outs: seq<seq<Metric>>, call: Call)
    requires IsSeries(calls, outs)
    ensures IsSeries(calls + [call], outs + [outs[|calls|] + AppendedBy(call)])
  {
    var calls', outs' := calls + [call], outs + [outs[|calls|] + AppendedBy(call)];
    forall n | 0 <= n < |calls'|
      ensures Steps(calls', outs', n)
    {
      assert n < |calls| ==> Steps(calls, outs, n);
    }
  }

  /** One call, when the calls before it have appended `extra`. */
  method RemapOne(requests: seq<Request>, k: nat, out: MetricSlice, ghost was: seq<Metric>, ghost extra: seq<Metric>)
      returns (ghost call: Call)
    requires k < |requests| && Ready(requests, k, requests[k].src == out, was) && Harmless(requests, k, extra)
    requires requests[k].src.items == if requests[k].src == out then was + extra else was
    modifies out
    ensures out.items == old(out.items) + AppendedBy(call)
    ensures Answers(call, requests[k], was, old(requests[k].src.items))
  {
    var r := requests[k];
    ghost var now := r.src.items;
    if Valid(r.scope) && r.src == out {
      StillReady(requests, k, was, extra);
    }
    ghost var c := r.remapper.Remap(r.scope, r.src, out, r.resource, r.format);
    call := Call(r.remapper.systemIntegrationDataset, r.scope, now, c);
    if r.src == out {
      AppendedIgnores(call.systemIntegration, r.scope, was, extra, c);
    }
  }

  ghost function SourcesOf(requests: seq<Request>): (sources: seq<seq<Metric>>)
    reads set r | r in requests :: r.src
    ensures |sources| == |requests|
  {
    seq(|requests|, k requires 0 <= k < |requests| reads set r | r in requests :: r.src => requests[k].src.items)
  }

  /** The source that call `k` finds: its own metrics, or the output so far. */
  ghost function Found(requests: seq<Request>, out: MetricSlice, sources: seq<seq<Metric>>, outs: seq<seq<Metric>>,
                       k: nat): seq<Metric>
    requires k < |requests| == |sources| && k < |outs|
  {
    if requests[k].src == out then outs[k] else sources[k]
  }

  ghost predicate AllAnswered(requests: seq<Request>, out: MetricSlice, sources: seq<seq<Metric>>, calls: seq<Call>,
                              outs: seq<seq<Metric>>)
    requires |calls| <= |requests| == |sources| && |calls| < |outs|
  {
    forall k {:trigger calls[k]} :: 0 <= k < |calls| ==>
      Answers(calls[k], requests[k], sources[k], Found(requests, out, sources, outs, k))
  }

  lemma OneMoreAnswered(requests: seq<Request>, out: MetricSlice, sources: seq<seq<Metric>>, calls: seq<Call>,
                        outs: seq<seq<Metric>>, call: Call, next: seq<Metric>)
    requires |calls| < |requests| == |sources| && |outs| == |calls| + 1
    requires AllAnswered(requests, out, sources, calls, outs)
    requires Answers(call, requests[|calls|], sources[|calls|], Found(requests, out, sources, outs, |calls|))
    ensures AllAnswered(requests, out, sources, calls + [call], outs + [next])
  {
    var calls', outs' := calls + [call], outs + [next];
    forall k: nat {:trigger calls'[k]} | k < |calls'|
      ensures Answers(calls'[k], requests[k], sources[k], Found(requests, out, sources, outs', k))
    {
      if k < |calls| {
        assert calls'[k] == calls[k];
      }
    }
  }

  /** Entry `k` was appended and labelled by one of the calls. */
  ghost predicate Traced(calls: seq<Call>, outs: seq<seq<Metric>>, k: nat, m: Metric)
    requires |outs| == |calls| + 1
  {
    exists n: nat :: n < |calls| && LabelledBy(calls, outs, n, k, m)
  }

  /** So was every entry beyond the first output. */
  ghost predicate NewEntriesTraced(calls: seq<Call>, outs: seq<seq<Metric>>)
    requires |outs| == |calls| + 1
  {
    forall k: nat :: |outs[0]| <= k < |outs[|calls|]| ==> Traced(calls, outs, k, outs[|calls|][k])
  }

  lemma SeriesIsTraced(calls: seq<Call>, outs: seq<seq<Metric>>)
    requires IsSeries(calls, outs)
    ensures NewEntriesTraced(calls, outs)
  {
    forall k: nat | |outs[0]| <= k < |outs[|calls|]|
      ensures Traced(calls, outs, k, outs[|calls|][k])
    {
      SeriesIsLabelled(calls, outs, 0, |calls|, k);
    }
  }

  /** Makes the calls one after the other. Earlier entries stay as they are, each new entry
      carries the labels of the call that appended it, and a call that reads the growing output
      appends what it would have appended at first. */
  method RemapAll(requests: seq<Request>, out: MetricSlice)
      returns (ghost calls: seq<Call>, ghost outs: seq<seq<Metric>>)
    requires forall k :: 0 <= k < |requests| ==> Ready(requests, k, requests[k].src == out, requests[k].src.items)
    modifies out
    ensures |calls| == |requests| && IsSeries(calls, outs)
    ensures outs[0] == old(out.items) && out.items == outs[|calls|]
    ensures AllAnswered(requests, out, old(SourcesOf(requests)), calls, outs)
    ensures old(out.items) <= out.items && NewEntriesTraced(calls, outs)
  {
    calls, outs := [], [out.items];
    ghost var sources := SourcesOf(requests);
    ghost var start, extra := out.items, [];
    for k := 0 to |requests|
      invariant |calls| == k && IsSeries(calls, outs)
      invariant outs[0] == start && out.items == outs[k] == start + extra
      invariant Harmless(requests, k, extra)
      invariant forall j :: 0 <= j < |requests| && requests[j].src != out ==> requests[j].src.items == sources[j]
      invariant AllAnswered(requests, out, sources, calls, outs)
    {
      ghost var call := RemapOne(requests, k, out, sources[k], extra);
      SeriesSnoc(calls, outs, call);
      OneMoreAnswered(requests, out, sources, calls, outs, call, outs[k] + AppendedBy(call));
      StaysHarmless(requests, k, extra, call);
      Associative(start, extra, AppendedBy(call));
      calls, outs, extra := calls + [call], outs + [outs[k] + AppendedBy(call)], extra + AppendedBy(call);
    }
    CallsOnlyAppend(calls, outs, 0, |calls|);
    SeriesIsTraced(calls, outs);
  }
}
