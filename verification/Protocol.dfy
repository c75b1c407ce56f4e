/** The shared cache as an interleaved step system: one refresher and any number of
    Fetch calls over a read/write lock and two atomic flags. */
module Protocol {
  import opened AgentConfigs
  import opened Matcher
  import opened Refresh

  type Tid = nat

  /** The answers of one scroll; the last one ends it. */
  type Replies = seq<Reply>

  ghost function HitsIn(replies: Replies): seq<AgentConfig> {
    if replies == [] then [] else HitsIn(replies[..|replies| - 1]) + HitsOf(replies[|replies| - 1])
  }

  ghost predicate AllHaveHits(replies: Replies) {
    forall r :: r in replies ==> HasHits(r)
  }

  /** `replies` are the answers of one successful refresh: pages with hits, then an empty one. */
  ghost predicate Complete(replies: Replies) {
    && replies != []
    && AllHaveHits(replies[..|replies| - 1])
    && replies[|replies| - 1].Page? && replies[|replies| - 1].hits == []
  }

  /** Where the goroutine of Run is. `replies` records the answers of the current scroll. From
      Pending on it has called Lock: no new reader is let in, and it waits for those inside. */
  datatype Refresher =
    | Waiting
    | Paging(scrollId: string, buffer: seq<AgentConfig>, replies: Replies)
    | RefreshFailed
    | Filled(buffer: seq<AgentConfig>, replies: Replies)
    | Pending(buffer: seq<AgentConfig>, replies: Replies)
    | Locked(buffer: seq<AgentConfig>, replies: Replies)
    | Swapped
    | Released
    | Stopped

  /** Where a Fetch call is. From Reading to Releasing it holds the read lock. */
  datatype Pc =
    | Started
    | WantsLock
    | Reading
    | Matching(snapshot: seq<AgentConfig>)
    | Releasing(result: Result)
    | CheckingConfig
    | Done(outcome: FetchOutcome)

  datatype Call = Call(query: Query, pc: Pc)

  /** `published` is the history of scrolls whose hits were swapped in. */
  datatype State = State(
    cache: seq<AgentConfig>,
    cacheInitialized: bool,
    invalidESCfg: bool,
    writing: bool,
    readers: set<Tid>,
    refresher: Refresher,
    calls: map<Tid, Call>,
    published: seq<Replies>)

  const INITIAL := State([], false, false, false, {}, Waiting, map[], [])

  datatype Step =
    | StartRefresh
    | Cancel
    | Answer(reply: Reply)
    | ObserveFailure
    | RequestWrite
    | AcquireWrite
    | SwapCache
    | ReleaseWrite
    | SetInitialized
    | Invoke(t: Tid, query: Query)
    | LoadInitialized(t: Tid)
    | AcquireRead(t: Tid)
    | ReadCache(t: Tid)
    | MatchSnapshot(t: Tid)
    | ReleaseRead(t: Tid)
    | LoadInvalid(t: Tid)

  predicate At(s: State, t: Tid, pc: Pc) {
    t in s.calls && s.calls[t].pc == pc
  }

  predicate Enabled(s: State, step: Step) {
    match step
    case StartRefresh => s.refresher.Waiting?
    case Cancel => s.refresher.Waiting?
    case Answer(_) => s.refresher.Paging?
    case ObserveFailure => s.refresher.RefreshFailed?
    case RequestWrite => s.refresher.Filled?
    case AcquireWrite => s.refresher.Pending? && !s.writing && s.readers == {}
    case SwapCache => s.refresher.Locked?
    case ReleaseWrite => s.refresher.Swapped?
    case SetInitialized => s.refresher.Released?
    case Invoke(t, _) => t !in s.calls
    case LoadInitialized(t) => At(s, t, Started)
    case AcquireRead(t) => At(s, t, WantsLock) && !s.writing && !s.refresher.Pending?
    case ReadCache(t) => At(s, t, Reading)
    case MatchSnapshot(t) => t in s.calls && s.calls[t].pc.Matching?
    case ReleaseRead(t) => t in s.calls && s.calls[t].pc.Releasing?
    case LoadInvalid(t) => At(s, t, CheckingConfig)
  }

  function SetPc(s: State, t: Tid, pc: Pc): State
    requires t in s.calls
  {
    s.(calls := s.calls[t := s.calls[t].(pc := pc)])
  }

  /** The effect of one answer on the refresher; a 401 or 403 also sets the flag. */
  function AfterAnswer(s: State, reply: Reply): State
    requires s.refresher.Paging?
  {
    var r := s.refresher;
    match reply
    case Page(id, hits) =>
      s.(refresher := if hits == [] then Filled(r.buffer, r.replies + [reply])
                      else Paging(id, r.buffer + hits, r.replies + [reply]))
    case Denied => s.(invalidESCfg := true, refresher := RefreshFailed)
    case Failed => s.(refresher := RefreshFailed)
  }

  function Apply(s: State, step: Step): State
    requires Enabled(s, step)
  {
    match step
    case StartRefresh => s.(refresher := Paging("", [], []))
    case Cancel => s.(refresher := Stopped)
    case Answer(reply) => AfterAnswer(s, reply)
    case ObserveFailure => s.(refresher := if s.invalidESCfg then Stopped else Waiting)
    case RequestWrite => s.(refresher := Pending(s.refresher.buffer, s.refresher.replies))
    case AcquireWrite => s.(writing := true, refresher := Locked(s.refresher.buffer, s.refresher.replies))
    case SwapCache =>
      s.(cache := s.refresher.buffer, published := s.published + [s.refresher.replies], refresher := Swapped)
    case ReleaseWrite => s.(writing := false, refresher := Released)
    case SetInitialized => s.(cacheInitialized := true, refresher := Waiting)
    case Invoke(t, query) => s.(calls := s.calls[t := Call(query, Started)])
    case LoadInitialized(t) => SetPc(s, t, if s.cacheInitialized then WantsLock else CheckingConfig)
    case AcquireRead(t) => SetPc(s, t, Reading).(readers := s.readers + {t})
    case ReadCache(t) => SetPc(s, t, Matching(s.cache))
    case MatchSnapshot(t) =>
      SetPc(s, t, Releasing(Select(s.calls[t].query, s.calls[t].pc.snapshot)))
    case ReleaseRead(t) => SetPc(s, t, Done(Ok(s.calls[t].pc.result))).(readers := s.readers - {t})
    case LoadInvalid(t) =>
      SetPc(s, t, Done(Err(if s.invalidESCfg then NoValidElasticsearchConfig
                           else InfrastructureNotReady)))
  }

  // ---------- The invariant ----------

  predicate HoldsReadLock(pc: Pc) {
    pc.Reading? || pc.Matching? || pc.Releasing?
  }

  ghost predicate LockInv(s: State) {
    && (s.writing <==> s.refresher.Locked? || s.refresher.Swapped?)
    && (forall t :: t in s.readers <==> t in s.calls && HoldsReadLock(s.calls[t].pc))
    && (s.writing ==> s.readers == {})
  }

  /** The cache is always the whole of the last completed scroll. */
  ghost predicate CacheInv(s: State) {
    && (forall p :: p in s.published ==> Complete(p))
    && s.cache == LastHits(s.published)
    && (s.cacheInitialized ==> s.published != [])
  }

  ghost function LastHits(published: seq<Replies>): seq<AgentConfig> {
    if published == [] then [] else HitsIn(published[|published| - 1])
  }

  ghost predicate RefresherInv(s: State) {
    && (s.invalidESCfg ==> s.refresher.RefreshFailed? || s.refresher.Stopped?)
    && (s.refresher.Swapped? || s.refresher.Released? ==> s.published != [])
    && (s.published != [] && !s.cacheInitialized ==> s.refresher.Swapped? || s.refresher.Released?)
    && match s.refresher
       case Paging(_, buffer, replies) => AllHaveHits(replies) && buffer == HitsIn(replies)
       case Filled(buffer, replies) => Complete(replies) && buffer == HitsIn(replies)
       case Pending(buffer, replies) => Complete(replies) && buffer == HitsIn(replies)
       case Locked(buffer, replies) => Complete(replies) && buffer == HitsIn(replies)
       case _ => true
  }

  ghost predicate CallInv(s: State, c: Call) {
    match c.pc
    case WantsLock => s.cacheInitialized
    case Reading => s.cacheInitialized
    case Matching(snapshot) => s.cacheInitialized && snapshot == s.cache
    case Releasing(result) => s.cacheInitialized && result == Select(c.query, s.cache)
    case Done(outcome) => outcome.Ok? ==> s.cacheInitialized
    case _ => true
  }

  ghost predicate Inv(s: State) {
    && LockInv(s)
    && CacheInv(s)
    && RefresherInv(s)
    && forall t :: t in s.calls ==> CallInv(s, s.calls[t])
  }

  lemma InvInitial()
    ensures Inv(INITIAL)
  {
  }

  lemma HitsInSnoc(replies: Replies, r: Reply)
    ensures HitsIn(replies + [r]) == HitsIn(replies) + HitsOf(r)
  {
    assert (replies + [r])[..|replies|] == replies;
  }

  predicate IsRefresherStep(step: Step) {
    step.StartRefresh? || step.Cancel? || step.Answer? || step.ObserveFailure? ||
    step.RequestWrite? || step.AcquireWrite? || step.SwapCache? || step.ReleaseWrite? || step.SetInitialized?
  }

  lemma AnswerKeepsInv(s: State, reply: Reply)
    requires Inv(s) && Enabled(s, Answer(reply))
    ensures Inv(Apply(s, Answer(reply)))
  {
    var r := s.refresher;
    var replies := r.replies + [reply];
    HitsInSnoc(r.replies, reply);
    assert replies[..|r.replies|] == r.replies;
    if HasHits(reply) {
      assert AllHaveHits(replies);
    } else if IsEnd(reply) {
      assert HitsIn(replies) == r.buffer;
    }
  }

  /** Swapping cannot disturb a call: whoever holds a snapshot holds the lock. */
  lemma SwapKeepsInv(s: State)
    requires Inv(s) && Enabled(s, SwapCache)
    ensures Inv(Apply(s, SwapCache))
  {
    var s' := Apply(s, SwapCache);
    forall t | t in s'.calls
      ensures CallInv(s', s'.calls[t])
    {
      assert CallInv(s, s.calls[t]);
      assert t !in s.readers;
    }
  }

  lemma RefresherKeepsInv(s: State, step: Step)
    requires Inv(s) && Enabled(s, step) && IsRefresherStep(step)
    ensures Inv(Apply(s, step))
  {
    if step.Answer? {
      AnswerKeepsInv(s, step.reply);
    } else if step.SwapCache? {
      SwapKeepsInv(s);
    } else {
      var s' := Apply(s, step);
      assert s'.calls == s.calls;
      forall t | t in s'.calls
        ensures CallInv(s', s'.calls[t])
      {
        assert CallInv(s, s.calls[t]);
      }
    }
  }

  lemma CallKeepsInv(s: State, step: Step)
    requires Inv(s) && Enabled(s, step) && !IsRefresherStep(step)
    ensures Inv(Apply(s, step))
  {
    var s' := Apply(s, step);
    forall t | t in s'.calls
      ensures CallInv(s', s'.calls[t])
    {
      if t in s.calls {
        assert CallInv(s, s.calls[t]);
      }
    }
  }

  lemma StepKeepsInv(s: State, step: Step)
    requires Inv(s) && Enabled(s, step)
    ensures Inv(Apply(s, step))
  {
    if IsRefresherStep(step) {
      RefresherKeepsInv(s, step);
    } else {
      CallKeepsInv(s, step);
    }
  }
}
