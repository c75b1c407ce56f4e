/** What every run of the cache protocol guarantees to Fetch calls. */
module ProtocolRuns {
  import opened AgentConfigs
  import opened Matcher
  import opened Refresh
  import opened Protocol
  import opened Wrappers

  ghost predicate IsRun(states: seq<State>, steps: seq<Step>) {
    && |states| == |steps| + 1
    && states[0] == INITIAL
    && forall k: nat :: k < |steps| ==> Moves(states, steps, k)
  }

  ghost predicate Moves(states: seq<State>, steps: seq<Step>, k: nat)
    requires k < |steps| < |states|
  {
    Enabled(states[k], steps[k]) && states[k + 1] == Apply(states[k], steps[k])
  }

  lemma {:induction false} InvAlways(states: seq<State>, steps: seq<Step>, k: nat)
    requires IsRun(states, steps) && k < |states|
    ensures Inv(states[k])
  {
    if k == 0 {
      InvInitial();
    } else {
      InvAlways(states, steps, k - 1);
      assert Moves(states, steps, k - 1);
      StepKeepsInv(states[k - 1], steps[k - 1]);
    }
  }

  /** `later` may follow `s`: flags and history only grow, finished calls never change. */
  ghost predicate Precedes(s: State, later: State) {
    && (s.cacheInitialized ==> later.cacheInitialized)
    && (s.invalidESCfg ==> later.invalidESCfg)
    && s.published <= later.published
    && (forall t :: t in s.calls ==> t in later.calls && later.calls[t].query == s.calls[t].query)
    && (forall t :: t in s.calls && s.calls[t].pc.Done? ==> later.calls[t] == s.calls[t])
  }

  lemma StepPrecedes(s: State, step: Step)
    requires Enabled(s, step)
    ensures Precedes(s, Apply(s, step))
  {
  }

  lemma {:induction false} TimeFlows(states: seq<State>, steps: seq<Step>, i: nat, j: nat)
    requires IsRun(states, steps) && i <= j < |states|
    ensures Precedes(states[i], states[j])
    decreases j - i
  {
    if i < j {
      TimeFlows(states, steps, i, j - 1);
      assert Moves(states, steps, j - 1);
      StepPrecedes(states[j - 1], steps[j - 1]);
    }
  }

  /** `t` is called after moment `i` and has returned `outcome` by moment `j`. */
  ghost predicate Returns(states: seq<State>, t: Tid, i: nat, j: nat, query: Query, outcome: FetchOutcome)
    requires i <= j < |states|
  {
    && t !in states[i].calls
    && t in states[j].calls
    && states[j].calls[t] == Call(query, Done(outcome))
  }

  /** In state `s` the cache is published, is all of a completed scroll, and answers `query`
      with `result`. */
  ghost predicate Serves(s: State, query: Query, result: Result) {
    && s.cacheInitialized
    && s.published != []
    && Complete(s.published[|s.published| - 1])
    && s.cache == HitsIn(s.published[|s.published| - 1])
    && result == Select(query, s.cache)
  }

  /** The only steps that bring a call to one of the points named here. */
  lemma StepOnCall(s: State, step: Step, t: Tid)
    requires Enabled(s, step)
    requires t in Apply(s, step).calls
    ensures t in s.calls || step.Invoke?
    ensures t !in s.calls ==> Apply(s, step).calls[t].pc.Started?
    ensures t in s.calls && Apply(s, step).calls[t] != s.calls[t] ==>
              match Apply(s, step).calls[t].pc
              case CheckingConfig => step == LoadInitialized(t) && !s.cacheInitialized
              case Done(Ok(r)) => s.calls[t].pc == Releasing(r)
              case Done(Err(e)) => s.calls[t].pc.CheckingConfig? &&
                                   (s.invalidESCfg <==> e == NoValidElasticsearchConfig)
              case _ => true
    ensures t in s.calls ==> Apply(s, step).calls[t].query == s.calls[t].query
  {
  }

  /** A successful call answers from the published cache of a moment inside the call: the
      whole of one completed scroll, never a partial buffer or the initial empty cache. */
  lemma {:induction false} FetchServesPublishedCache(states: seq<State>, steps: seq<Step>, t: Tid, i: nat, j: nat,
                                                     query: Query, result: Result)
    requires IsRun(states, steps) && i <= j < |states|
    requires Returns(states, t, i, j, query, Ok(result))
    ensures exists k :: i < k < j && Serves(states[k], query, result)
    decreases j
  {
    var s := states[j - 1];
    assert Moves(states, steps, j - 1);
    StepOnCall(s, steps[j - 1], t);
    if s.calls[t] != states[j].calls[t] {
      InvAlways(states, steps, j - 1);
      assert CallInv(s, s.calls[t]);
      assert s.published[|s.published| - 1] in s.published;
      assert Serves(s, query, result);
    } else {
      FetchServesPublishedCache(states, steps, t, i, j - 1, query, result);
    }
  }

  /** When one successful call returns before another starts, the second is served from the
      same published cache or a later one. */
  lemma LaterFetchSeesLaterCache(states: seq<State>, steps: seq<Step>, t1: Tid, i: nat, j: nat, q1: Query, r1: Result,
                                 t2: Tid, l: nat, q2: Query, r2: Result)
    requires IsRun(states, steps) && i <= j <= l < |states|
    requires Returns(states, t1, i, j, q1, Ok(r1))
    requires Returns(states, t2, j, l, q2, Ok(r2))
    ensures exists k1, k2 :: i < k1 < j < k2 < l &&
              Serves(states[k1], q1, r1) && Serves(states[k2], q2, r2) &&
              states[k1].published <= states[k2].published
  {
    FetchServesPublishedCache(states, steps, t1, i, j, q1, r1);
    FetchServesPublishedCache(states, steps, t2, j, l, q2, r2);
    var k1 :| i < k1 < j && Serves(states[k1], q1, r1);
    var k2 :| j < k2 < l && Serves(states[k2], q2, r2);
    TimeFlows(states, steps, k1, k2);
  }

  lemma {:induction false} InitializedCallsSucceed(states: seq<State>, steps: seq<Step>, t: Tid, i: nat, j: nat)
    requires IsRun(states, steps) && i <= j < |states|
    requires states[i].cacheInitialized && t !in states[i].calls
    ensures t in states[j].calls ==>
              !states[j].calls[t].pc.CheckingConfig? &&
              (states[j].calls[t].pc.Done? ==> states[j].calls[t].pc.outcome.Ok?)
    decreases j
  {
    if i < j {
      InitializedCallsSucceed(states, steps, t, i, j - 1);
      TimeFlows(states, steps, i, j - 1);
      assert Moves(states, steps, j - 1);
      if t in states[j].calls {
        StepOnCall(states[j - 1], steps[j - 1], t);
      }
    }
  }

  /** After one success no call that starts later fails, whatever the server answers and even
      after the refresher has stopped for good. */
  lemma NoErrorAfterSuccess(states: seq<State>, steps: seq<Step>, t1: Tid, i: nat, j: nat, q1: Query, r1: Result,
                            t2: Tid, l: nat, q2: Query, outcome: FetchOutcome)
    requires IsRun(states, steps) && i <= j <= l < |states|
    requires Returns(states, t1, i, j, q1, Ok(r1))
    requires Returns(states, t2, j, l, q2, outcome)
    ensures outcome.Ok?
  {
    InvAlways(states, steps, j);
    assert CallInv(states[j], states[j].calls[t1]);
    InitializedCallsSucceed(states, steps, t2, j, l);
  }

  // ---------- Errors ----------

  lemma {:induction false} FirstLoad(states: seq<State>, steps: seq<Step>, t: Tid, i: nat, j: nat)
    requires IsRun(states, steps) && i <= j < |states|
    requires t !in states[i].calls && At(states[j], t, CheckingConfig)
    ensures exists k :: i < k < j && !states[k].cacheInitialized
    decreases j
  {
    assert Moves(states, steps, j - 1);
    StepOnCall(states[j - 1], steps[j - 1], t);
    if states[j - 1].calls[t] == states[j].calls[t] {
      FirstLoad(states, steps, t, i, j - 1);
    } else {
      assert !states[j - 1].cacheInitialized;
    }
  }

  lemma {:induction false} SecondLoad(states: seq<State>, steps: seq<Step>, t: Tid, i: nat, j: nat, query: Query,
                                      error: FetchError)
    requires IsRun(states, steps) && i <= j < |states|
    requires Returns(states, t, i, j, query, Err(error))
    ensures exists m :: i < m < j && At(states[m], t, CheckingConfig) &&
              (states[m].invalidESCfg <==> error == NoValidElasticsearchConfig)
    decreases j
  {
    assert Moves(states, steps, j - 1);
    StepOnCall(states[j - 1], steps[j - 1], t);
    if states[j - 1].calls[t] == states[j].calls[t] {
      SecondLoad(states, steps, t, i, j - 1, query, error);
    } else {
      assert At(states[j - 1], t, CheckingConfig);
    }
  }

  /** "Not ready" is true of one moment inside the call. */
  lemma NotReadyIsJustified(states: seq<State>, steps: seq<Step>, t: Tid, i: nat, j: nat, query: Query)
    requires IsRun(states, steps) && i <= j < |states|
    requires Returns(states, t, i, j, query, Err(InfrastructureNotReady))
    ensures exists k :: i < k < j && !states[k].cacheInitialized && !states[k].invalidESCfg
  {
    SecondLoad(states, steps, t, i, j, query, InfrastructureNotReady);
    var m :| i < m < j && At(states[m], t, CheckingConfig) && !states[m].invalidESCfg;
    FirstLoad(states, steps, t, i, m);
    var k :| i < k < m && !states[k].cacheInitialized;
    TimeFlows(states, steps, k, m);
  }

  ghost predicate InvalidFrom(states: seq<State>, m: nat) {
    forall n :: m <= n < |states| ==> states[n].invalidESCfg
  }

  /** "No valid config" is true of two moments inside the call, and its second half stays
      true for ever. */
  lemma NoValidConfigIsJustified(states: seq<State>, steps: seq<Step>, t: Tid, i: nat, j: nat, query: Query)
    requires IsRun(states, steps) && i <= j < |states|
    requires Returns(states, t, i, j, query, Err(NoValidElasticsearchConfig))
    ensures exists k, m :: i < k < m < j && !states[k].cacheInitialized && InvalidFrom(states, m)
  {
    SecondLoad(states, steps, t, i, j, query, NoValidElasticsearchConfig);
    var m :| i < m < j && At(states[m], t, CheckingConfig) && states[m].invalidESCfg;
    FirstLoad(states, steps, t, i, m);
    forall n: nat | m <= n < |states|
      ensures states[n].invalidESCfg
    {
      TimeFlows(states, steps, m, n);
    }
    assert InvalidFrom(states, m);
  }

  lemma InvalidFreezesStep(s: State, step: Step)
    requires Inv(s) && Enabled(s, step) && s.invalidESCfg
    ensures var s' := Apply(s, step);
            s'.cacheInitialized == s.cacheInitialized && s'.cache == s.cache && s'.published == s.published
  {
  }

  /** Once the flag is set the refresher is finished: nothing is published any more. */
  lemma {:induction false} InvalidFreezesCache(states: seq<State>, steps: seq<Step>, i: nat, j: nat)
    requires IsRun(states, steps) && i <= j < |states|
    requires states[i].invalidESCfg
    ensures states[j].cacheInitialized == states[i].cacheInitialized
    ensures states[j].cache == states[i].cache && states[j].published == states[i].published
    decreases j
  {
    if i < j {
      InvalidFreezesCache(states, steps, i, j - 1);
      InvAlways(states, steps, j - 1);
      TimeFlows(states, steps, i, j - 1);
      assert Moves(states, steps, j - 1);
      InvalidFreezesStep(states[j - 1], steps[j - 1]);
    }
  }

  /** That error describes a single moment of the call if and only if the cache is still
      uninitialized when the call returns. */
  lemma NoValidConfigIsMomentaryIff(states: seq<State>, steps: seq<Step>, t: Tid, i: nat, j: nat, query: Query)
    requires IsRun(states, steps) && i <= j < |states|
    requires Returns(states, t, i, j, query, Err(NoValidElasticsearchConfig))
    ensures (exists k :: i < k < j && !states[k].cacheInitialized && states[k].invalidESCfg)
            <==> !states[j].cacheInitialized
  {
    if k :| i < k < j && !states[k].cacheInitialized && states[k].invalidESCfg {
      InvalidFreezesCache(states, steps, k, j);
    }
    if !states[j].cacheInitialized {
      SecondLoad(states, steps, t, i, j, query, NoValidElasticsearchConfig);
      var m :| i < m < j && At(states[m], t, CheckingConfig) && states[m].invalidESCfg;
      TimeFlows(states, steps, m, j);
    }
  }

  /** Carries out `steps` from `s`, if each is enabled when its turn comes. */
  function Execute(s: State, steps: seq<Step>): (r: Option<State>)
    decreases |steps|
  {
    if steps == [] then Some(s)
    else if Enabled(s, steps[0]) then Execute(Apply(s, steps[0]), steps[1..])
    else None
  }

  /** A run that loads the uninitialized flag in call 0 and then publishes an empty list. */
  lemma LoadThenPublish(query: Query) returns (states: seq<State>, steps: seq<Step>)
    ensures IsRun(states, steps) && |steps| == 9
    ensures forall k :: 0 <= k <= 9 ==> !states[k].invalidESCfg
    ensures states[9] == INITIAL.(calls := map[0 := Call(query, CheckingConfig)],
                                  cacheInitialized := true, published := [[Page("", [])]])
  {
    states, steps := LoadThenFill(query);
    states, steps := Extend(states, steps, RequestWrite);
    states, steps := Extend(states, steps, AcquireWrite);
    states, steps := Extend(states, steps, SwapCache);
    assert states[7].published == [[Page("", [])]];
    states, steps := Extend(states, steps, ReleaseWrite);
    states, steps := Extend(states, steps, SetInitialized);
  }

  lemma LoadThenFill(query: Query) returns (states: seq<State>, steps: seq<Step>)
    ensures IsRun(states, steps) && |steps| == 4
    ensures forall k :: 0 <= k <= 4 ==> !states[k].invalidESCfg
    ensures states[4] == INITIAL.(calls := map[0 := Call(query, CheckingConfig)],
                                  refresher := Filled([], [Page("", [])]))
  {
    states, steps := [INITIAL], [];
    states, steps := Extend(states, steps, Invoke(0, query));
    states, steps := Extend(states, steps, LoadInitialized(0));
    assert states[2] == INITIAL.(calls := map[0 := Call(query, CheckingConfig)]);
    states, steps := Extend(states, steps, StartRefresh);
    states, steps := Extend(states, steps, Answer(Page("", [])));
    assert states[4].refresher == Filled([], [Page("", [])]);
  }

  /** A run in which it describes no single moment: between the two loads the cache is
      published and the next refresh is denied. */
  lemma NoValidConfigWithoutMoment(query: Query)
    returns (states: seq<State>, steps: seq<Step>, j: nat)
    ensures IsRun(states, steps) && j < |states|
    ensures Returns(states, 0, 0, j, query, Err(NoValidElasticsearchConfig))
    ensures !exists k :: 0 <= k <= j && !states[k].cacheInitialized && states[k].invalidESCfg
  {
    states, steps := LoadThenPublish(query);
    states, steps := Extend(states, steps, StartRefresh);
    states, steps := Extend(states, steps, Answer(Denied));
    states, steps := Extend(states, steps, LoadInvalid(0));
    j := 12;
    assert states[12].calls[0] == Call(query, Done(Err(NoValidElasticsearchConfig)));
  }

  /** Adds one step to a run. */
  lemma Extend(states: seq<State>, steps: seq<Step>, step: Step)
    returns (states': seq<State>, steps': seq<Step>)
    requires IsRun(states, steps) && Enabled(states[|steps|], step)
    ensures IsRun(states', steps')
    ensures states' == states + [Apply(states[|steps|], step)] && steps' == steps + [step]
  {
    states', steps' := states + [Apply(states[|steps|], step)], steps + [step];
    forall k: nat | k < |steps'|
      ensures Moves(states', steps', k)
    {
      assert k < |steps| ==> Moves(states, steps, k);
    }
  }

  // ---------- Which steps change what ----------

  /** The flag is set exactly by the step after the unlock. */
  lemma {:induction false} InitializedIff(states: seq<State>, steps: seq<Step>, k: nat)
    requires IsRun(states, steps) && k < |states|
    ensures states[k].cacheInitialized <==> exists j :: 0 <= j < k && steps[j] == SetInitialized
  {
    if k > 0 {
      InitializedIff(states, steps, k - 1);
      assert Moves(states, steps, k - 1);
    }
  }

  /** The configuration is invalid exactly after an answer with 401 or 403. */
  lemma {:induction false} InvalidIff(states: seq<State>, steps: seq<Step>, k: nat)
    requires IsRun(states, steps) && k < |states|
    ensures states[k].invalidESCfg <==> exists j :: 0 <= j < k && steps[j] == Answer(Denied)
  {
    if k > 0 {
      InvalidIff(states, steps, k - 1);
      assert Moves(states, steps, k - 1);
    }
  }

  /** The answers since the last refresh began, read off the steps. */
  function AnswersSince(steps: seq<Step>): Replies {
    if steps == [] then [] else AnswersAfter(AnswersSince(steps[..|steps| - 1]), steps[|steps| - 1])
  }

  /** The refresher remembers the answers of the current scroll. */
  predicate Remembers(s: State, replies: Replies) {
    var r := s.refresher;
    r.Paging? || r.Filled? || r.Pending? || r.Locked? ==> r.replies == replies
  }

  function AnswersAfter(replies: Replies, step: Step): Replies {
    match step
    case StartRefresh => []
    case Answer(reply) => replies + [reply]
    case _ => replies
  }

  lemma StepRemembers(s: State, step: Step, replies: Replies)
    requires Enabled(s, step) && Remembers(s, replies)
    ensures Remembers(Apply(s, step), AnswersAfter(replies, step))
  {
  }

  lemma {:induction false} AnswersRecorded(states: seq<State>, steps: seq<Step>, k: nat)
    requires IsRun(states, steps) && k < |states|
    ensures Remembers(states[k], AnswersSince(steps[..k]))
  {
    if k > 0 {
      AnswersRecorded(states, steps, k - 1);
      assert Moves(states, steps, k - 1);
      StepRemembers(states[k - 1], steps[k - 1], AnswersSince(steps[..k - 1]));
      assert steps[..k][..k - 1] == steps[..k - 1];
    }
  }

  /** The swap, and no other step, publishes: all answers of the refresh, and their hits as the
      cache. */
  lemma PublishedBySwap(states: seq<State>, steps: seq<Step>, k: nat)
    requires IsRun(states, steps) && k < |steps|
    ensures steps[k] == SwapCache ==>
              && states[k + 1].published == states[k].published + [AnswersSince(steps[..k])]
              && states[k + 1].cache == HitsIn(AnswersSince(steps[..k]))
    ensures steps[k] != SwapCache ==>
              states[k + 1].published == states[k].published && states[k + 1].cache == states[k].cache
  {
    assert Moves(states, steps, k);
    AnswersRecorded(states, steps, k);
    InvAlways(states, steps, k);
  }

  /** The refresher stops for good only when cancelled between refreshes, or after a failed one
      when the configuration is invalid. */
  lemma StopsOnlyWhen(states: seq<State>, steps: seq<Step>, k: nat)
    requires IsRun(states, steps) && k < |steps|
    requires states[k + 1].refresher.Stopped? && !states[k].refresher.Stopped?
    ensures (steps[k] == Cancel && states[k].refresher.Waiting?) ||
            (steps[k] == ObserveFailure && exists j :: 0 <= j < k && steps[j] == Answer(Denied))
  {
    assert Moves(states, steps, k);
    InvalidIff(states, steps, k);
  }

  /** After its first load a call is on one of two ways, which the flag decided. */
  predicate OnItsWay(pc: Pc, initialized: bool) {
    if initialized then !pc.Started? && !pc.CheckingConfig? && (pc.Done? ==> pc.outcome.Ok?)
    else pc.CheckingConfig? || (pc.Done? && pc.outcome.Err?)
  }

  lemma StaysOnItsWay(s: State, step: Step, t: Tid, initialized: bool)
    requires Enabled(s, step) && t in s.calls && OnItsWay(s.calls[t].pc, initialized)
    ensures t in Apply(s, step).calls && OnItsWay(Apply(s, step).calls[t].pc, initialized)
  {
  }

  lemma {:induction false} LoadDecides(states: seq<State>, steps: seq<Step>, t: Tid, m: nat, j: nat)
    requires IsRun(states, steps) && m < j < |states| && steps[m] == LoadInitialized(t)
    ensures t in states[j].calls && OnItsWay(states[j].calls[t].pc, states[m].cacheInitialized)
    decreases j
  {
    assert Moves(states, steps, j - 1);
    if j > m + 1 {
      LoadDecides(states, steps, t, m, j - 1);
      StaysOnItsWay(states[j - 1], steps[j - 1], t, states[m].cacheInitialized);
    }
  }

  /** A call succeeds if and only if the flag was set by an earlier step when it loaded it: never
      between the swap and the flag. */
  lemma SucceedsIffInitialized(states: seq<State>, steps: seq<Step>, t: Tid, m: nat, j: nat)
    requires IsRun(states, steps) && m < j < |states| && steps[m] == LoadInitialized(t)
    requires t in states[j].calls && states[j].calls[t].pc.Done?
    ensures states[j].calls[t].pc.outcome.Ok? <==> exists i :: 0 <= i < m && steps[i] == SetInitialized
  {
    LoadDecides(states, steps, t, m, j);
    InitializedIff(states, steps, m);
  }

  lemma {:induction false} DoneStays(states: seq<State>, steps: seq<Step>, t: Tid, i: nat, j: nat)
    requires IsRun(states, steps) && i <= j < |states|
    requires t in states[i].calls && states[i].calls[t].pc.Done?
    ensures t in states[j].calls && states[j].calls[t] == states[i].calls[t]
  {
    TimeFlows(states, steps, i, j);
  }

  /** Its error says whether a 401 or 403 had come when it loaded the second flag. */
  lemma ErrorByAnswer(states: seq<State>, steps: seq<Step>, t: Tid, m: nat, j: nat)
    requires IsRun(states, steps) && m < j < |states| && steps[m] == LoadInvalid(t)
    ensures t in states[j].calls
    ensures states[j].calls[t].pc ==
            Done(Err(if exists i :: 0 <= i < m && steps[i] == Answer(Denied) then NoValidElasticsearchConfig
                     else InfrastructureNotReady))
  {
    assert Moves(states, steps, m);
    InvalidIff(states, steps, m);
    DoneStays(states, steps, t, m + 1, j);
  }

  // ---------- Locking ----------

  /** The cache is written only while no call is between taking and releasing the read lock. */
  lemma NoReaderWhileSwapping(states: seq<State>, steps: seq<Step>, k: nat, t: Tid)
    requires IsRun(states, steps) && k < |steps| && steps[k].SwapCache?
    requires t in states[k].calls
    ensures !HoldsReadLock(states[k].calls[t].pc)
  {
    InvAlways(states, steps, k);
    assert Moves(states, steps, k);
    assert t !in states[k].readers;
  }

  /** Once the refresher has called Lock the readers inside can only become fewer. */
  lemma PendingAdmitsNoReader(s: State, step: Step)
    requires Enabled(s, step) && s.refresher.Pending?
    ensures Apply(s, step).readers <= s.readers
  {
  }

  // ---------- Progress ----------

  /** The steps that a call `t` may have to wait for: its own, those of calls holding the read
      lock, and those of a refresher from its call of Lock to its Unlock. */
  predicate Helps(s: State, t: Tid, step: Step) {
    match step
    case LoadInitialized(u) => u == t
    case AcquireRead(u) => u == t
    case LoadInvalid(u) => u == t
    case ReadCache(u) => u == t || u in s.readers
    case MatchSnapshot(u) => u == t || u in s.readers
    case ReleaseRead(u) => u == t || u in s.readers
    case _ => step.AcquireWrite? || step.SwapCache? || step.ReleaseWrite?
  }

  function OwnSteps(pc: Pc): nat {
    match pc
    case Started => 5
    case WantsLock => 4
    case Reading => 3
    case Matching(_) => 2
    case Releasing(_) => 1
    case CheckingConfig => 1
    case Done(_) => 0
  }

  function WriterSteps(r: Refresher): nat {
    if r.Pending? then 3 else if r.Locked? then 2 else if r.Swapped? then 1 else 0
  }

  function OthersReading(s: State, t: Tid): set<Tid> {
    set u | u in s.readers - {t} && u in s.calls && s.calls[u].pc.Reading?
  }

  function OthersUnmatched(s: State, t: Tid): set<Tid> {
    set u | u in s.readers - {t} && u in s.calls && (s.calls[u].pc.Reading? || s.calls[u].pc.Matching?)
  }

  /** How many steps the other readers have before them. */
  function ReaderSteps(s: State, t: Tid): nat {
    |OthersReading(s, t)| + |OthersUnmatched(s, t)| + |s.readers - {t}|
  }

  function Remaining(s: State, t: Tid): nat
    requires t in s.calls
  {
    OwnSteps(s.calls[t].pc) + WriterSteps(s.refresher) + ReaderSteps(s, t)
  }

  /** The two states differ at most in the call `t` and the refresher. */
  ghost predicate SameOthers(s: State, s': State, t: Tid) {
    && s'.readers - {t} == s.readers - {t}
    && (forall u :: u in s.calls && u != t ==> u in s'.calls && s'.calls[u] == s.calls[u])
    && (forall u :: u in s'.calls && u != t ==> u in s.calls)
  }

  lemma SameReaderSteps(s: State, s': State, t: Tid)
    requires SameOthers(s, s', t)
    ensures ReaderSteps(s', t) == ReaderSteps(s, t)
  {
    assert forall u :: u in s'.readers - {t} <==> u in s.readers - {t};
    assert OthersReading(s', t) == OthersReading(s, t);
    assert OthersUnmatched(s', t) == OthersUnmatched(s, t);
  }

  lemma OwnStepHelps(s: State, t: Tid, step: Step)
    requires Inv(s) && t in s.calls && Enabled(s, step) && Helps(s, t, step)
    requires !IsRefresherStep(step) && step.t == t
    ensures Remaining(Apply(s, step), t) < Remaining(s, t)
  {
    var s' := Apply(s, step);
    assert s'.readers - {t} == s.readers - {t};
    SameReaderSteps(s, s', t);
    OwnStepAdvances(s, t, step);
  }

  lemma OwnStepAdvances(s: State, t: Tid, step: Step)
    requires t in s.calls && Enabled(s, step)
    requires !IsRefresherStep(step) && step.t == t
    ensures OwnSteps(Apply(s, step).calls[t].pc) < OwnSteps(s.calls[t].pc)
    ensures Apply(s, step).refresher == s.refresher
  {
  }

  lemma WriterStepHelps(s: State, t: Tid, step: Step)
    requires Inv(s) && t in s.calls && Enabled(s, step)
    requires step.AcquireWrite? || step.SwapCache? || step.ReleaseWrite?
    ensures Remaining(Apply(s, step), t) < Remaining(s, t)
  {
    SameReaderSteps(s, Apply(s, step), t);
  }

  /** The call `u` moves on to `pc`, still holding the lock. */
  lemma ReaderMovesOn(s: State, t: Tid, u: Tid, pc: Pc)
    requires u in s.readers && u != t && u in s.calls
    requires (s.calls[u].pc.Reading? && pc.Matching?) || (s.calls[u].pc.Matching? && pc.Releasing?)
    ensures ReaderSteps(SetPc(s, u, pc), t) < ReaderSteps(s, t)
  {
    var s' := SetPc(s, u, pc);
    if pc.Matching? {
      assert OthersReading(s', t) == OthersReading(s, t) - {u};
      assert OthersUnmatched(s', t) == OthersUnmatched(s, t);
    } else {
      assert OthersReading(s', t) == OthersReading(s, t);
      assert OthersUnmatched(s', t) == OthersUnmatched(s, t) - {u};
    }
  }

  lemma ReaderLeaves(s: State, t: Tid, u: Tid, pc: Pc)
    requires u in s.readers && u != t && u in s.calls && s.calls[u].pc.Releasing?
    ensures ReaderSteps(SetPc(s, u, pc).(readers := s.readers - {u}), t) < ReaderSteps(s, t)
  {
    var s' := SetPc(s, u, pc).(readers := s.readers - {u});
    assert OthersReading(s', t) == OthersReading(s, t);
    assert OthersUnmatched(s', t) == OthersUnmatched(s, t);
    assert s'.readers - {t} == s.readers - {t} - {u};
  }

  lemma ReaderStepHelps(s: State, t: Tid, u: Tid, step: Step)
    requires t in s.calls && u in s.readers && u != t && Enabled(s, step)
    requires step == ReadCache(u) || step == MatchSnapshot(u) || step == ReleaseRead(u)
    ensures Remaining(Apply(s, step), t) < Remaining(s, t)
  {
    var s' := Apply(s, step);
    if step.ReleaseRead? {
      ReaderLeaves(s, t, u, s'.calls[u].pc);
    } else {
      ReaderMovesOn(s, t, u, s'.calls[u].pc);
    }
  }

  /** Each of these steps, in whatever order they are taken, brings the call nearer its end. */
  lemma EveryHelperHelps(s: State, t: Tid, step: Step)
    requires Inv(s) && t in s.calls && Enabled(s, step) && Helps(s, t, step)
    ensures t in Apply(s, step).calls
    ensures Remaining(Apply(s, step), t) < Remaining(s, t)
  {
    if step.AcquireWrite? || step.SwapCache? || step.ReleaseWrite? {
      WriterStepHelps(s, t, step);
    } else if step.t == t {
      assert !IsRefresherStep(step);
      OwnStepHelps(s, t, step);
    } else {
      ReaderStepHelps(s, t, step.t, step);
    }
  }

  /** As long as the call has not returned, one of them can be taken. */
  lemma HelperIsEnabled(s: State, t: Tid) returns (step: Step)
    requires Inv(s) && t in s.calls && !s.calls[t].pc.Done?
    ensures Enabled(s, step) && Helps(s, t, step)
  {
    match s.calls[t].pc {
      case Started => step := LoadInitialized(t);
      case WantsLock => step := HelperOfWaiting(s, t);
      case Reading => step := ReadCache(t);
      case Matching(_) => step := MatchSnapshot(t);
      case Releasing(_) => step := ReleaseRead(t);
      case CheckingConfig => step := LoadInvalid(t);
    }
  }

  lemma HelperOfWaiting(s: State, t: Tid) returns (step: Step)
    requires Inv(s) && At(s, t, WantsLock)
    ensures Enabled(s, step) && Helps(s, t, step)
  {
    if s.refresher.Pending? && s.readers != {} {
      var u :| u in s.readers;
      step := if s.calls[u].pc.Reading? then ReadCache(u)
              else if s.calls[u].pc.Matching? then MatchSnapshot(u) else ReleaseRead(u);
    } else if s.refresher.Pending? {
      step := AcquireWrite;
    } else if s.refresher.Locked? {
      step := SwapCache;
    } else if s.refresher.Swapped? {
      step := ReleaseWrite;
    } else {
      step := AcquireRead(t);
    }
  }

  /** A schedule of such steps only. */
  predicate Helping(s: State, t: Tid, steps: seq<Step>)
    decreases |steps|
  {
    steps == [] || (Enabled(s, steps[0]) && Helps(s, t, steps[0]) && Helping(Apply(s, steps[0]), t, steps[1..]))
  }

  /** In state `s` the call has returned. */
  predicate Returned(s: State, t: Tid) {
    t in s.calls && s.calls[t].pc.Done?
  }

  lemma AtMostEightAndThreePerReader(s: State, t: Tid)
    requires t in s.calls
    ensures Remaining(s, t) <= 8 + 3 * |s.readers|
  {
    SubsetIsSmaller(OthersReading(s, t), s.readers);
    SubsetIsSmaller(OthersUnmatched(s, t), s.readers);
    SubsetIsSmaller(s.readers - {t}, s.readers);
  }

  lemma SubsetIsSmaller(a: set<Tid>, b: set<Tid>)
    requires a <= b
    ensures |a| <= |b|
  {
    assert b == a + (b - a);
  }

  /** No call is ever stuck and the lock never leaks: from every reachable state a schedule of
      these steps is at most eight steps long and three more for each reader inside, and when
      it cannot be continued the call has returned. */
  lemma {:induction false} HelpersFinishFetch(s: State, t: Tid, steps: seq<Step>)
    requires Inv(s) && t in s.calls && Helping(s, t, steps)
    ensures |steps| <= Remaining(s, t) <= 8 + 3 * |s.readers|
    ensures Execute(s, steps).Some? && Inv(Execute(s, steps).value)
    ensures Returned(Execute(s, steps).value, t)
            || exists step :: Enabled(Execute(s, steps).value, step) && Helps(Execute(s, steps).value, t, step)
    decreases |steps|
  {
    AtMostEightAndThreePerReader(s, t);
    if steps != [] {
      StepKeepsInv(s, steps[0]);
      EveryHelperHelps(s, t, steps[0]);
      HelpersFinishFetch(Apply(s, steps[0]), t, steps[1..]);
    } else if !s.calls[t].pc.Done? {
      var step := HelperIsEnabled(s, t);
    }
  }

  /** So there is such a schedule after which the call has returned. */
  lemma {:induction false} FetchCanFinish(s: State, t: Tid) returns (steps: seq<Step>)
    requires Inv(s) && t in s.calls
    ensures Helping(s, t, steps) && |steps| <= 8 + 3 * |s.readers|
    ensures Execute(s, steps).Some? && Returned(Execute(s, steps).value, t)
    decreases Remaining(s, t)
  {
    steps := [];
    if !s.calls[t].pc.Done? {
      var step := HelperIsEnabled(s, t);
      StepKeepsInv(s, step);
      EveryHelperHelps(s, t, step);
      var rest := FetchCanFinish(Apply(s, step), t);
      steps := [step] + rest;
      assert steps[1..] == rest;
    }
    HelpersFinishFetch(s, t, steps);
  }

  // ---------- The sequential methods are runs of the system ----------

  function Answers(replies: Replies): seq<Step> {
    seq(|replies|, k requires 0 <= k < |replies| => Answer(replies[k]))
  }

  /** The answers of the refresh decided by request `n`. */
  ghost function RepliesOf(server: Server, budget: nat, n: nat): Replies {
    seq(n, k requires 0 <= k < n => ReplyTo(server, k)) + [Verdict(server, budget, n)]
  }

  ghost function RefreshSteps(server: Server, budget: nat, n: nat): seq<Step> {
    [StartRefresh] + Answers(RepliesOf(server, budget, n)) +
    (if IsEnd(Verdict(server, budget, n))
     then [RequestWrite, AcquireWrite, SwapCache, ReleaseWrite, SetInitialized]
     else [ObserveFailure])
  }

  lemma {:induction false} ExecuteConcat(s: State, a: seq<Step>, b: seq<Step>)
    ensures Execute(s, a + b) ==
            match Execute(s, a) case Some(m) => Execute(m, b) case None => None
    decreases |a|
  {
    if a == [] {
      assert a + b == b;
    } else {
      assert (a + b)[1..] == a[1..] + b;
      if Enabled(s, a[0]) {
        ExecuteConcat(Apply(s, a[0]), a[1..], b);
      }
    }
  }

  lemma {:induction false} PagesFill(s: State, server: Server, n: nat)
    requires s.refresher == Paging("", [], [])
    requires forall k: nat :: k < n ==> HasHits(ReplyTo(server, k))
    ensures var replies := seq(n, k requires 0 <= k < n => ReplyTo(server, k));
            Execute(s, Answers(replies)) ==
              Some(s.(refresher := Paging(if n == 0 then "" else IdOf(ReplyTo(server, n - 1)),
                                          Hits(server, n), replies)))
  {
    var replies := seq(n, k requires 0 <= k < n => ReplyTo(server, k));
    if n > 0 {
      PagesFill(s, server, n - 1);
      var before := seq(n - 1, k requires 0 <= k < n - 1 => ReplyTo(server, k));
      var last := Answer(ReplyTo(server, n - 1));
      assert replies == before + [ReplyTo(server, n - 1)];
      assert Answers(replies) == Answers(before) + [last];
      ExecuteConcat(s, Answers(before), [last]);
      var m := Execute(s, Answers(before)).value;
      assert Execute(m, [last]) == Some(Apply(m, last));
    } else {
      assert Answers(replies) == [];
    }
  }

  /** Run alone, the refresher of the step system does what `RefreshCache` does: it consumes
      the same answers and leaves the cache and the flags as that method's contract says. */
  lemma RefreshIsARun(s: State, server: Server, budget: nat, n: nat)
    requires s.refresher.Waiting? && !s.writing && s.readers == {} && !s.invalidESCfg
    requires Decides(server, budget, n)
    ensures var v := Verdict(server, budget, n);
            Execute(s, RefreshSteps(server, budget, n)) ==
            Some(if IsEnd(v)
                 then s.(cache := Hits(server, n), cacheInitialized := true,
                         published := s.published + [RepliesOf(server, budget, n)])
                 else s.(invalidESCfg := v.Denied?,
                         refresher := if v.Denied? then Stopped else Waiting))
  {
    var v := Verdict(server, budget, n);
    var finish := if IsEnd(v) then [RequestWrite, AcquireWrite, SwapCache, ReleaseWrite, SetInitialized]
                  else [ObserveFailure];
    var read := [StartRefresh] + Answers(RepliesOf(server, budget, n));
    assert RefreshSteps(server, budget, n) == read + finish;
    ExecuteConcat(s, read, finish);
    ScrollIsARun(s, server, budget, n);
    var s3 := Execute(s, read).value;
    if IsEnd(v) {
      PublishAlone(s3);
    } else {
      assert Execute(s3, finish) == Some(Apply(s3, ObserveFailure));
    }
  }

  /** The scroll alone, up to and with the deciding answer. */
  lemma ScrollIsARun(s: State, server: Server, budget: nat, n: nat)
    requires s.refresher.Waiting? && Decides(server, budget, n)
    ensures var v := Verdict(server, budget, n);
            Execute(s, [StartRefresh] + Answers(RepliesOf(server, budget, n))) ==
            Some(if IsEnd(v) then s.(refresher := Filled(Hits(server, n), RepliesOf(server, budget, n)))
                 else s.(invalidESCfg := s.invalidESCfg || v.Denied?, refresher := RefreshFailed))
  {
    var v := Verdict(server, budget, n);
    var pages := seq(n, k requires 0 <= k < n => ReplyTo(server, k));
    var s1 := Apply(s, StartRefresh);
    PagesFill(s1, server, n);
    assert Answers(RepliesOf(server, budget, n)) == Answers(pages) + ([Answer(v)] + []);
    ExecuteOne(s, StartRefresh, Answers(pages) + ([Answer(v)] + []));
    ExecuteConcat(s1, Answers(pages), [Answer(v)] + []);
    ExecuteOne(Execute(s1, Answers(pages)).value, Answer(v), []);
  }

  lemma PublishAlone(s: State)
    requires s.refresher.Filled? && !s.writing && s.readers == {}
    ensures Execute(s, [RequestWrite, AcquireWrite, SwapCache, ReleaseWrite, SetInitialized]) ==
            Some(s.(cache := s.refresher.buffer, cacheInitialized := true, refresher := Waiting,
                    published := s.published + [s.refresher.replies]))
  {
    var s0 := Apply(s, RequestWrite);
    var s1 := Apply(s0, AcquireWrite);
    var s2 := Apply(s1, SwapCache);
    var s3 := Apply(s2, ReleaseWrite);
    ExecuteOne(s3, SetInitialized, []);
    ExecuteOne(s2, ReleaseWrite, [SetInitialized]);
    ExecuteOne(s1, SwapCache, [ReleaseWrite, SetInitialized]);
    ExecuteOne(s0, AcquireWrite, [SwapCache, ReleaseWrite, SetInitialized]);
    ExecuteOne(s, RequestWrite, [AcquireWrite, SwapCache, ReleaseWrite, SetInitialized]);
    assert [SetInitialized] + [] == [SetInitialized];
    assert [ReleaseWrite] + [SetInitialized] == [ReleaseWrite, SetInitialized];
    assert [SwapCache] + [ReleaseWrite, SetInitialized] == [SwapCache, ReleaseWrite, SetInitialized];
    assert [AcquireWrite] + [SwapCache, ReleaseWrite, SetInitialized] ==
           [AcquireWrite, SwapCache, ReleaseWrite, SetInitialized];
    assert [RequestWrite] + [AcquireWrite, SwapCache, ReleaseWrite, SetInitialized] ==
           [RequestWrite, AcquireWrite, SwapCache, ReleaseWrite, SetInitialized];
  }

  /** Run alone, a call of the step system answers as the method `Fetch` does. */
  lemma FetchIsARun(s: State, t: Tid, query: Query)
    requires Inv(s) && !s.writing && !s.refresher.Pending? && t !in s.calls
    ensures var steps := [Invoke(t, query)] + ([LoadInitialized(t)] +
                         (if s.cacheInitialized
                          then [AcquireRead(t)] + ([ReadCache(t)] + ([MatchSnapshot(t)] + ([ReleaseRead(t)] + [])))
                          else [LoadInvalid(t)] + []));
            var outcome := if s.cacheInitialized then Ok(Select(query, s.cache))
                           else if s.invalidESCfg then Err(NoValidElasticsearchConfig)
                           else Err(InfrastructureNotReady);
            Execute(s, steps) == Some(s.(calls := s.calls[t := Call(query, Done(outcome))]))
  {
    var s1 := Apply(s, Invoke(t, query));
    var s2 := Apply(s1, LoadInitialized(t));
    var rest := if s.cacheInitialized
                then [AcquireRead(t)] + ([ReadCache(t)] + ([MatchSnapshot(t)] + ([ReleaseRead(t)] + [])))
                else [LoadInvalid(t)] + [];
    ExecuteOne(s, Invoke(t, query), [LoadInitialized(t)] + rest);
    ExecuteOne(s1, LoadInitialized(t), rest);
    assert t !in s.readers;
    forall pc: Pc
      ensures SetPc(s1, t, pc) == s.(calls := s.calls[t := Call(query, pc)])
    {
      assert s1.calls[t := Call(query, pc)] == s.calls[t := Call(query, pc)];
    }
    if s.cacheInitialized {
      ServeAlone(s2, t);
      SetPcTwice(s1, t, WantsLock, Done(Ok(Select(query, s.cache))));
    } else {
      ExecuteOne(s2, LoadInvalid(t), []);
      SetPcTwice(s1, t, CheckingConfig, Apply(s2, LoadInvalid(t)).calls[t].pc);
    }
  }

  lemma ExecuteOne(s: State, step: Step, rest: seq<Step>)
    requires Enabled(s, step)
    ensures Execute(s, [step] + rest) == Execute(Apply(s, step), rest)
  {
    assert ([step] + rest)[1..] == rest;
  }

  lemma SetPcTwice(s: State, t: Tid, a: Pc, b: Pc)
    requires t in s.calls
    ensures SetPc(SetPc(s, t, a), t, b) == SetPc(s, t, b)
  {
    assert s.calls[t := s.calls[t].(pc := a)][t := s.calls[t].(pc := b)] == s.calls[t := s.calls[t].(pc := b)];
  }

  lemma ServeAlone(s: State, t: Tid)
    requires !s.writing && !s.refresher.Pending? && t !in s.readers
    requires At(s, t, WantsLock)
    ensures Execute(s, [AcquireRead(t)] + ([ReadCache(t)] + ([MatchSnapshot(t)] + ([ReleaseRead(t)] + [])))) ==
            Some(SetPc(s, t, Done(Ok(Select(s.calls[t].query, s.cache)))))
  {
    var result := Select(s.calls[t].query, s.cache);
    var s1 := Apply(s, AcquireRead(t));
    var s2 := Apply(s1, ReadCache(t));
    var s3 := Apply(s2, MatchSnapshot(t));
    ExecuteOne(s, AcquireRead(t), [ReadCache(t)] + ([MatchSnapshot(t)] + ([ReleaseRead(t)] + [])));
    ExecuteOne(s1, ReadCache(t), [MatchSnapshot(t)] + ([ReleaseRead(t)] + []));
    ExecuteOne(s2, MatchSnapshot(t), [ReleaseRead(t)] + []);
    ExecuteOne(s3, ReleaseRead(t), []);
    SetPcTwice(s1, t, Matching(s.cache), Releasing(result));
    SetPcTwice(s1, t, Releasing(result), Done(Ok(result)));
    SetPcTwice(s, t, Reading, Done(Ok(result)));
    assert s.readers + {t} - {t} == s.readers;
  }
}
