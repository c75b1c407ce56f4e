/** Refreshing the cache: one scroll over the configuration index, then one swap. */
module Refresh {
  import opened AgentConfigs
  import Matcher

  // ---------- The server's side ----------

  /** A search opens a scroll; later pages are asked for by scroll id. */
  datatype Request = Search | Scroll(id: string)

  /** A page of hits, a 401 or 403 answer, or any other failure (including a timeout). */
  datatype Reply = Page(scrollId: string, hits: seq<AgentConfig>) | Denied | Failed

  /** A server: what it answers to the last request of a history. */
  type Server = seq<Request> -> Reply

  function RequestFor(scrollId: string): Request {
    if scrollId == "" then Search else Scroll(scrollId)
  }

  predicate HasHits(r: Reply) {
    r.Page? && r.hits != []
  }

  predicate IsEnd(r: Reply) {
    r.Page? && r.hits == []
  }

  /** The first `n` requests of a client that always sends the scroll id last returned. */
  ghost function History(server: Server, n: nat): (h: seq<Request>)
    ensures |h| == n
  {
    if n == 0 then []
    else
      var before := History(server, n - 1);
      before + [RequestFor(if n == 1 then "" else IdOf(server(before)))]
  }

  ghost function IdOf(r: Reply): string {
    if r.Page? then r.scrollId else ""
  }

  /** The answer to request number `k` (from zero). */
  ghost function ReplyTo(server: Server, k: nat): Reply {
    server(History(server, k + 1))
  }

  /** The hits of the first `n` answers, in order. */
  ghost function Hits(server: Server, n: nat): seq<AgentConfig> {
    if n == 0 then [] else Hits(server, n - 1) + HitsOf(ReplyTo(server, n - 1))
  }

  function HitsOf(r: Reply): seq<AgentConfig> {
    if r.Page? then r.hits else []
  }

  /** Request number `n` decides the refresh: all before it brought hits in time, and it
      either came too late or brought none. */
  ghost predicate Decides(server: Server, budget: nat, n: nat) {
    && n <= budget
    && (forall k: nat :: k < n ==> HasHits(ReplyTo(server, k)))
    && (n < budget ==> !HasHits(ReplyTo(server, n)))
  }

  /** The deciding answer: nothing arrives after the deadline. */
  ghost function Verdict(server: Server, budget: nat, n: nat): Reply {
    if n < budget then ReplyTo(server, n) else Failed
  }

  lemma DecidingRequestIsUnique(server: Server, budget: nat, m: nat, n: nat)
    requires Decides(server, budget, m) && Decides(server, budget, n)
    ensures m == n
  {
  }

  /** The request that decides a refresh of which the first `k` answers brought hits. */
  ghost function Decider(server: Server, budget: nat, k: nat := 0): (n: nat)
    requires k <= budget && forall j: nat :: j < k ==> HasHits(ReplyTo(server, j))
    ensures Decides(server, budget, n)
    decreases budget - k
  {
    if k < budget && HasHits(ReplyTo(server, k)) then Decider(server, budget, k + 1) else k
  }

  // ---------- Runs of the background job ----------

  /** One firing of the ticker: the server met, the answers in time, the clock. */
  datatype Tick = Tick(server: Server, budget: nat, now: int)

  ghost function TickVerdict(tick: Tick): Reply {
    Verdict(tick.server, tick.budget, Decider(tick.server, tick.budget))
  }

  /** The job gives up after a failed refresh if the configuration is known to be invalid. */
  ghost predicate Stops(tick: Tick, invalid: bool) {
    !IsEnd(TickVerdict(tick)) && (invalid || TickVerdict(tick).Denied?)
  }

  ghost predicate AnySuccess(ticks: seq<Tick>) {
    exists tick :: tick in ticks && IsEnd(TickVerdict(tick))
  }

  /** The hits of the last successful refresh, or `initial` if there is none. */
  ghost function LastPublished(ticks: seq<Tick>, initial: seq<AgentConfig>): seq<AgentConfig> {
    if ticks == [] then initial
    else
      var tick := ticks[|ticks| - 1];
      if IsEnd(TickVerdict(tick)) then Hits(tick.server, Decider(tick.server, tick.budget))
      else LastPublished(ticks[..|ticks| - 1], initial)
  }

  lemma OneTickMore(ticks: seq<Tick>, k: nat, initial: seq<AgentConfig>)
    requires k < |ticks|
    ensures LastPublished(ticks[..k + 1], initial) ==
            if IsEnd(TickVerdict(ticks[k])) then Hits(ticks[k].server, Decider(ticks[k].server, ticks[k].budget))
            else LastPublished(ticks[..k], initial)
    ensures AnySuccess(ticks[..k + 1]) <==> AnySuccess(ticks[..k]) || IsEnd(TickVerdict(ticks[k]))
  {
    assert ticks[..k + 1] == ticks[..k] + [ticks[k]];
    assert ticks[..k + 1][..k] == ticks[..k];
  }

  // ---------- The fetcher ----------

  datatype FetchError = InfrastructureNotReady | NoValidElasticsearchConfig

  datatype FetchOutcome = Ok(result: Result) | Err(error: FetchError)

  class ElasticsearchFetcher {
    var last: int
    var cache: seq<AgentConfig>
    var invalidESCfg: bool
    var cacheInitialized: bool

    constructor ()
      ensures cache == [] && !invalidESCfg && !cacheInitialized
    {
      last := 0;
      cache := [];
      invalidESCfg := false;
      cacheInitialized := false;
    }

    /** One call, with no refresh running beside it. */
    method Fetch(query: Query) returns (outcome: FetchOutcome)
      ensures cacheInitialized ==> outcome == Ok(Matcher.Select(query, cache))
      ensures !cacheInitialized && invalidESCfg ==> outcome == Err(NoValidElasticsearchConfig)
      ensures !cacheInitialized && !invalidESCfg ==> outcome == Err(InfrastructureNotReady)
    {
      if cacheInitialized {
        var result := Matcher.MatchAgentConfig(query, cache);
        return Ok(result);
      }
      if invalidESCfg {
        return Err(NoValidElasticsearchConfig);
      }
      return Err(InfrastructureNotReady);
    }

    /** One request. A 401 or 403 answer marks the configuration invalid for good. */
    method SinglePageRefresh(server: Server, requests: seq<Request>, scrollId: string, inTime: bool)
        returns (result: Reply, requests': seq<Request>)
      modifies this`invalidESCfg
      ensures requests' == requests + [RequestFor(scrollId)]
      ensures result == if inTime then server(requests') else Failed
      ensures invalidESCfg == (old(invalidESCfg) || result.Denied?)
    {
      requests' := match scrollId
        case "" => requests + [Search]
        case _ => requests + [Scroll(scrollId)];
      if !inTime {
        return Failed, requests';
      }
      result := server(requests');
      if result.Denied? {
        invalidESCfg := true;
      }
    }

    /** Scrolls through the index into a private buffer and swaps the buffer in. `budget` is
        the number of answers that arrive before the deadline, `now` the time of the swap. */
    method RefreshCache(server: Server, budget: nat, now: int)
        returns (ok: bool, requests: seq<Request>, ghost n: nat)
      modifies this
      ensures Decides(server, budget, n)
      ensures requests == History(server, n + 1)
      ensures ok <==> IsEnd(Verdict(server, budget, n))
      ensures ok ==> cache == Hits(server, n) && cacheInitialized && last == now
      ensures !ok ==> cache == old(cache) && last == old(last)
      ensures !ok ==> cacheInitialized == old(cacheInitialized)
      ensures invalidESCfg == (old(invalidESCfg) || Verdict(server, budget, n).Denied?)
    {
      var scrollId := "";
      var buffer := [];
      requests := [];
      n := 0;
      while true
        invariant n == |requests| <= budget
        invariant requests == History(server, n)
        invariant scrollId == if n == 0 then "" else IdOf(ReplyTo(server, n - 1))
        invariant buffer == Hits(server, n)
        invariant forall k: nat :: k < n ==> HasHits(ReplyTo(server, k))
        invariant cache == old(cache) && cacheInitialized == old(cacheInitialized)
        invariant last == old(last) && invalidESCfg == old(invalidESCfg)
        decreases budget - n
      {
        var page;
        page, requests := SinglePageRefresh(server, requests, scrollId, |requests| < budget);
        assert requests == History(server, n + 1);
        if !page.Page? {
          return false, requests, n;
        }
        buffer := buffer + page.hits;
        scrollId := page.scrollId;
        if |page.hits| == 0 {
          break;
        }
        n := n + 1;
      }
      cache := buffer;
      cacheInitialized := true;
      last := now;
      ok := true;
    }

    /** One refresh of the job; `stop` tells it to give up. */
    method RefreshOnce(tick: Tick) returns (stop: bool)
      modifies this
      ensures stop <==> Stops(tick, old(invalidESCfg))
      ensures invalidESCfg == (old(invalidESCfg) || TickVerdict(tick).Denied?)
      ensures cacheInitialized == (old(cacheInitialized) || IsEnd(TickVerdict(tick)))
      ensures cache == if IsEnd(TickVerdict(tick)) then Hits(tick.server, Decider(tick.server, tick.budget))
                       else old(cache)
    {
      var ok, _, n := RefreshCache(tick.server, tick.budget, tick.now);
      DecidingRequestIsUnique(tick.server, tick.budget, n, Decider(tick.server, tick.budget));
      return !ok && invalidESCfg;
    }

    /** The background job over a finite series of ticks, after which its context is
        cancelled. It stops by itself exactly at the first failure with an invalid
        configuration; until then it keeps the last complete list published. */
    method Run(ticks: seq<Tick>) returns (stopped: bool, used: nat)
      modifies this
      ensures used <= |ticks|
      ensures forall k :: 0 <= k < used - 1 ==> !Stops(ticks[k], old(invalidESCfg))
      ensures stopped <==> used > 0 && Stops(ticks[used - 1], old(invalidESCfg))
      ensures !stopped ==> used == |ticks|
      ensures invalidESCfg == (old(invalidESCfg) || stopped)
      ensures cache == LastPublished(ticks[..used], old(cache))
      ensures cacheInitialized == (old(cacheInitialized) || AnySuccess(ticks[..used]))
    {
      used := 0;
      stopped := false;
      while used < |ticks|
        invariant used <= |ticks|
        invariant forall k :: 0 <= k < used ==> !Stops(ticks[k], old(invalidESCfg))
        invariant invalidESCfg == old(invalidESCfg)
        invariant cache == LastPublished(ticks[..used], old(cache))
        invariant cacheInitialized == (old(cacheInitialized) || AnySuccess(ticks[..used]))
      {
        var tick := ticks[used];
        var stop := RefreshOnce(tick);
        OneTickMore(ticks, used, old(cache));
        used := used + 1;
        if stop {
          return true, used;
        }
      }
    }
  }

  // ---------- A server that scrolls through a finite list ----------

  /** A search and then `n` requests that follow the ids a server handed out. */
  ghost function Following(ids: seq<string>, n: nat): (h: seq<Request>)
    requires n <= |ids|
    ensures |h| == n + 1
  {
    seq(n + 1, k requires 0 <= k <= n => if k == 0 then Search else Scroll(ids[k - 1]))
  }

  /** The server answers a client that follows the ids with the pages in order and then with
      an empty page; it may answer any other client in any way. */
  ghost predicate Scrolls(server: Server, pages: seq<seq<AgentConfig>>, ids: seq<string>) {
    && |ids| == |pages| + 1
    && (forall k :: 0 <= k < |pages| ==> pages[k] != [] && ids[k] != "")
    && (forall k :: 0 <= k < |pages| ==> server(Following(ids, k)) == Page(ids[k], pages[k]))
    && server(Following(ids, |pages|)) == Page(ids[|pages|], [])
  }

  ghost function Concat(pages: seq<seq<AgentConfig>>): seq<AgentConfig> {
    if pages == [] then [] else Concat(pages[..|pages| - 1]) + pages[|pages| - 1]
  }

  lemma {:induction false} ClientFollowsIds(server: Server, pages: seq<seq<AgentConfig>>, ids: seq<string>, n: nat)
    requires Scrolls(server, pages, ids) && n <= |pages|
    ensures History(server, n + 1) == Following(ids, n)
  {
    if n == 0 {
      assert History(server, 1) == [] + [Search];
    } else {
      ClientFollowsIds(server, pages, ids, n - 1);
      assert server(Following(ids, n - 1)) == Page(ids[n - 1], pages[n - 1]);
      assert Following(ids, n) == Following(ids, n - 1) + [Scroll(ids[n - 1])];
    }
  }

  /** So it is sent the pages, in order. */
  lemma {:induction false} ClientIsSentPages(server: Server, pages: seq<seq<AgentConfig>>, ids: seq<string>, n: nat)
    requires Scrolls(server, pages, ids) && n <= |pages|
    ensures forall k: nat :: k < n ==> ReplyTo(server, k) == Page(ids[k], pages[k])
    ensures Hits(server, n) == Concat(pages[..n])
  {
    if n > 0 {
      ClientIsSentPages(server, pages, ids, n - 1);
      ClientFollowsIds(server, pages, ids, n - 1);
      assert pages[..n][..n - 1] == pages[..n - 1];
    }
  }

  /** Against such a server, in time, the refresh succeeds after one request more than there
      are pages and its buffer is exactly the list, whatever the page sizes and ids. */
  lemma ScrollIsExact(server: Server, pages: seq<seq<AgentConfig>>, ids: seq<string>, budget: nat, n: nat)
    requires Scrolls(server, pages, ids) && |pages| < budget
    requires Decides(server, budget, n)
    ensures n == |pages|
    ensures IsEnd(Verdict(server, budget, n)) && Verdict(server, budget, n) == Page(ids[|pages|], [])
    ensures Hits(server, n) == Concat(pages)
    ensures History(server, n + 1) == Following(ids, n)
  {
    ClientFollowsIds(server, pages, ids, |pages|);
    ClientIsSentPages(server, pages, ids, |pages|);
    assert pages[..|pages|] == pages;
    assert Decides(server, budget, |pages|);
  }

  /** With no more answers in time than there are pages, the refresh fails. */
  lemma LateScrollFails(server: Server, pages: seq<seq<AgentConfig>>, ids: seq<string>, budget: nat, n: nat)
    requires Scrolls(server, pages, ids) && budget <= |pages|
    requires Decides(server, budget, n)
    ensures n == budget && Verdict(server, budget, n) == Failed
  {
    ClientIsSentPages(server, pages, ids, |pages|);
    assert forall k: nat :: k < |pages| ==> HasHits(ReplyTo(server, k));
  }

  // ---------- What an empty scroll id does ----------

  /** How many requests follow the last search. */
  function SinceSearch(h: seq<Request>): nat {
    if h == [] || h[|h| - 1] == Search then 0 else 1 + SinceSearch(h[..|h| - 1])
  }

  /** A server on which every search starts again at the first page. */
  ghost function Restarting(pages: seq<seq<AgentConfig>>, ids: seq<string>): Server
    requires |ids| == |pages| + 1
  {
    (h: seq<Request>) =>
      var j := SinceSearch(h);
      if j < |pages| then Page(ids[j], pages[j]) else Page(ids[|pages|], [])
  }

  lemma {:induction false} SinceSearchFollowing(ids: seq<string>, n: nat)
    requires n <= |ids|
    ensures SinceSearch(Following(ids, n)) == n
  {
    if n > 0 {
      SinceSearchFollowing(ids, n - 1);
      assert Following(ids, n)[..n] == Following(ids, n - 1);
    }
  }

  lemma SinceSearchSnoc(h: seq<Request>, r: Request)
    ensures SinceSearch(h + [r]) == if r == Search then 0 else 1 + SinceSearch(h)
  {
    assert (h + [r])[..|h|] == h;
  }

  lemma HistorySnoc(server: Server, n: nat)
    requires n > 0
    ensures History(server, n + 1) == History(server, n) + [RequestFor(IdOf(server(History(server, n))))]
  {}

  lemma StaysBeforeEmptyId(pages: seq<seq<AgentConfig>>, ids: seq<string>, e: nat, h: seq<Request>)
    requires |ids| == |pages| + 1 && e < |pages| && ids[e] == "" && SinceSearch(h) <= e
    ensures SinceSearch(h + [RequestFor(IdOf(Restarting(pages, ids)(h)))]) <= e
  {
    assert IdOf(Restarting(pages, ids)(h)) == ids[SinceSearch(h)];
    SinceSearchSnoc(h, RequestFor(ids[SinceSearch(h)]));
  }

  lemma {:induction false} RestartsForever(pages: seq<seq<AgentConfig>>, ids: seq<string>, e: nat, n: nat)
    requires |ids| == |pages| + 1 && e < |pages| && ids[e] == ""
    ensures SinceSearch(History(Restarting(pages, ids), n + 1)) <= e
  {
    var server := Restarting(pages, ids);
    if n > 0 {
      RestartsForever(pages, ids, e, n - 1);
      HistorySnoc(server, n);
      StaysBeforeEmptyId(pages, ids, e, History(server, n));
    } else {
      SinceSearchSnoc([], Search);
    }
  }

  /** The client takes an empty scroll id for "no scroll open" and searches again. So on such
      a server, given the time, the list is published if and only if no page but the last
      empty one comes with an empty id; otherwise no amount of time suffices. */
  lemma PublishedIffIdsNonEmpty(pages: seq<seq<AgentConfig>>, ids: seq<string>, budget: nat, n: nat)
    requires |ids| == |pages| + 1 && |pages| < budget
    requires forall k :: 0 <= k < |pages| ==> pages[k] != []
    requires Decides(Restarting(pages, ids), budget, n)
    ensures IsEnd(Verdict(Restarting(pages, ids), budget, n)) <==>
            forall k :: 0 <= k < |pages| ==> ids[k] != ""
    ensures IsEnd(Verdict(Restarting(pages, ids), budget, n)) ==>
              Hits(Restarting(pages, ids), n) == Concat(pages)
  {
    var server := Restarting(pages, ids);
    if e :| 0 <= e < |pages| && ids[e] == "" {
      RestartsForever(pages, ids, e, n);
      assert n < budget ==> HasHits(ReplyTo(server, n));
    } else {
      forall k: nat | k <= |pages|
        ensures SinceSearch(Following(ids, k)) == k
      {
        SinceSearchFollowing(ids, k);
      }
      assert Scrolls(server, pages, ids);
      ScrollIsExact(server, pages, ids, budget, n);
    }
  }
}
