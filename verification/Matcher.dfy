/** The one-pass matcher of agent configurations and the precedence rule it refines. */
module Matcher {
  import opened AgentConfigs
  import opened Wrappers

  // ---------- Declarative selection ----------

  ghost predicate IsFirst(cfgs: seq<AgentConfig>, name: string, env: string, k: nat) {
    && k < |cfgs|
    && HasKey(cfgs[k], name, env)
    && forall j :: 0 <= j < k ==> !HasKey(cfgs[j], name, env)
  }

  ghost predicate IsLast(cfgs: seq<AgentConfig>, name: string, env: string, k: nat) {
    && k < |cfgs|
    && HasKey(cfgs[k], name, env)
    && forall j :: k < j < |cfgs| ==> !HasKey(cfgs[j], name, env)
  }

  ghost predicate Absent(cfgs: seq<AgentConfig>, name: string, env: string) {
    forall j :: 0 <= j < |cfgs| ==> !HasKey(cfgs[j], name, env)
  }

  /** The first configuration stored under (name, env). */
  function FirstMatch(cfgs: seq<AgentConfig>, name: string, env: string): (r: Option<nat>)
    ensures r.Some? ==> IsFirst(cfgs, name, env, r.value)
    ensures r.None? ==> Absent(cfgs, name, env)
  {
    if cfgs == [] then None
    else
      var n := |cfgs| - 1;
      match FirstMatch(cfgs[..n], name, env)
      case Some(k) => Some(k)
      case None => if HasKey(cfgs[n], name, env) then Some(n) else None
  }

  /** The last configuration stored under (name, env). */
  function LastMatch(cfgs: seq<AgentConfig>, name: string, env: string): (r: Option<nat>)
    ensures r.Some? ==> IsLast(cfgs, name, env, r.value)
    ensures r.None? ==> Absent(cfgs, name, env)
  {
    if cfgs == [] then None
    else
      var n := |cfgs| - 1;
      if HasKey(cfgs[n], name, env) then Some(n) else LastMatch(cfgs[..n], name, env)
  }

  /** The precedence rule: name and environment, else name alone, else environment alone,
      else the entry with neither, else the sentinel result. */
  function Select(q: Query, cfgs: seq<AgentConfig>): Result {
    var name, env := q.service.name, q.service.environment;
    match FirstMatch(cfgs, name, env)
    case Some(k) => ToResult(cfgs[k])
    case None =>
      match LastMatch(cfgs, name, "")
      case Some(k) => ToResult(cfgs[k])
      case None =>
        match LastMatch(cfgs, "", env)
        case Some(k) => ToResult(cfgs[k])
        case None =>
          match LastMatch(cfgs, "", "")
          case Some(k) => ToResult(cfgs[k])
          case None => ZeroResult()
  }

  /** The rule read off the list itself: each level applies only when no entry of the
      levels above it exists. */
  lemma SelectMeaning(q: Query, cfgs: seq<AgentConfig>)
    ensures IsByPrecedence(Select(q, cfgs), q.service.name, q.service.environment, cfgs)
  {
    forall n: string, e: string, k: nat | IsLast(cfgs, n, e, k)
      ensures LastMatch(cfgs, n, e) == Some(k)
    {
      LastIsUnique(cfgs, n, e, k);
    }
  }

  /** The result carries the fields of the entry of the highest level that has one. */
  ghost predicate IsByPrecedence(r: Result, name: string, env: string, cfgs: seq<AgentConfig>) {
    && (forall k: nat :: IsFirst(cfgs, name, env, k) ==> Carries(r, cfgs[k]))
    && (Absent(cfgs, name, env) ==>
          forall k: nat :: IsLast(cfgs, name, "", k) ==> Carries(r, cfgs[k]))
    && (Absent(cfgs, name, env) && Absent(cfgs, name, "") ==>
          forall k: nat :: IsLast(cfgs, "", env, k) ==> Carries(r, cfgs[k]))
    && (Absent(cfgs, name, env) && Absent(cfgs, name, "") && Absent(cfgs, "", env) ==>
          forall k: nat :: IsLast(cfgs, "", "", k) ==> Carries(r, cfgs[k]))
    && (Absent(cfgs, name, env) && Absent(cfgs, name, "") && Absent(cfgs, "", env) && Absent(cfgs, "", "") ==>
          IsSentinel(r))
  }

  lemma LastIsUnique(cfgs: seq<AgentConfig>, name: string, env: string, k: nat)
    requires IsLast(cfgs, name, env, k)
    ensures LastMatch(cfgs, name, env) == Some(k)
  {
  }

  // ---------- The loop ----------

  /** One pass over the configurations with three candidate slots. The branches overlap
      when the query's name or environment is empty; an exact match ends the pass. */
  method MatchAgentConfig(q: Query, cfgs: seq<AgentConfig>) returns (result: Result)
    ensures result == Select(q, cfgs)
    ensures IsByPrecedence(result, q.service.name, q.service.environment, cfgs)
  {
    SelectMeaning(q, cfgs);
    var name, env := q.service.name, q.service.environment;
    result := ZeroResult();
    var nameConf: Option<nat>, envConf: Option<nat>, defaultConf: Option<nat> := None, None, None;
    var i := 0;
    while i < |cfgs|
      invariant 0 <= i <= |cfgs|
      invariant FirstMatch(cfgs[..i], name, env) == None
      invariant nameConf == LastMatch(cfgs[..i], name, "")
      invariant envConf == if name == "" then None else LastMatch(cfgs[..i], "", env)
      invariant defaultConf ==
                if name == "" || env == "" then None else LastMatch(cfgs[..i], "", "")
    {
      var cfg := cfgs[i];
      assert cfgs[..i+1][..i] == cfgs[..i];
      if cfg.serviceName == name && cfg.serviceEnvironment == env {
        nameConf := Some(i);
        break;
      } else if cfg.serviceName == name && cfg.serviceEnvironment == "" {
        nameConf := Some(i);
      } else if cfg.serviceName == "" && cfg.serviceEnvironment == env {
        envConf := Some(i);
      } else if cfg.serviceName == "" && cfg.serviceEnvironment == "" {
        defaultConf := Some(i);
      }
      i := i + 1;
    }
    SlotsSuffice(q, cfgs, i, nameConf, envConf, defaultConf);
    match nameConf {
      case Some(k) => result := ToResult(cfgs[k]);
      case None =>
        match envConf {
          case Some(k) => result := ToResult(cfgs[k]);
          case None =>
            match defaultConf {
              case Some(k) => result := ToResult(cfgs[k]);
              case None =>
            }
        }
    }
  }

  /** The result chosen from the three slots. */
  function Choose(cfgs: seq<AgentConfig>, nameConf: Option<nat>, envConf: Option<nat>,
                  defaultConf: Option<nat>): Result
    requires nameConf.Some? ==> nameConf.value < |cfgs|
    requires envConf.Some? ==> envConf.value < |cfgs|
    requires defaultConf.Some? ==> defaultConf.value < |cfgs|
  {
    if nameConf.Some? then ToResult(cfgs[nameConf.value])
    else if envConf.Some? then ToResult(cfgs[envConf.value])
    else if defaultConf.Some? then ToResult(cfgs[defaultConf.value])
    else ZeroResult()
  }

  /** Whether the pass stopped at an exact match or ran to the end, the slots decide as
      the precedence rule does. */
  lemma SlotsSuffice(q: Query, cfgs: seq<AgentConfig>, i: nat, nameConf: Option<nat>,
                     envConf: Option<nat>, defaultConf: Option<nat>)
    requires i <= |cfgs|
    requires FirstMatch(cfgs[..i], q.service.name, q.service.environment) == None
    requires i < |cfgs| ==>
      HasKey(cfgs[i], q.service.name, q.service.environment) && nameConf == Some(i)
    requires i == |cfgs| ==> nameConf == LastMatch(cfgs[..i], q.service.name, "")
    requires envConf == if q.service.name == "" then None
                        else LastMatch(cfgs[..i], "", q.service.environment)
    requires defaultConf == if q.service.name == "" || q.service.environment == "" then None
                            else LastMatch(cfgs[..i], "", "")
    ensures Select(q, cfgs) == Choose(cfgs, nameConf, envConf, defaultConf)
  {
    var name, env := q.service.name, q.service.environment;
    if i < |cfgs| {
      assert forall j :: 0 <= j < i ==> cfgs[..i][j] == cfgs[j];
      FirstIsUnique(cfgs, name, env, i);
    } else {
      assert cfgs[..i] == cfgs;
      if name == "" {
        NoneIsNone(cfgs, "", env);
      } else if env == "" {
        NoneIsNone(cfgs, name, "");
      }
    }
  }

  lemma FirstIsUnique(cfgs: seq<AgentConfig>, name: string, env: string, k: nat)
    requires IsFirst(cfgs, name, env, k)
    ensures FirstMatch(cfgs, name, env) == Some(k)
  {
  }

  lemma NoneIsNone(cfgs: seq<AgentConfig>, name: string, env: string)
    requires FirstMatch(cfgs, name, env) == None
    ensures LastMatch(cfgs, name, env) == None
  {
  }

  // ---------- When the order of the list does not matter ----------

  /** Entries stored under the same name and environment would send the same result. */
  ghost predicate Consistent(cfgs: seq<AgentConfig>) {
    forall i, j :: 0 <= i < |cfgs| && 0 <= j < |cfgs|
      && HasKey(cfgs[i], cfgs[j].serviceName, cfgs[j].serviceEnvironment)
      ==> ToResult(cfgs[i]) == ToResult(cfgs[j])
  }

  /** No two entries share name and environment. */
  ghost predicate UniqueKeys(cfgs: seq<AgentConfig>) {
    forall i, j :: 0 <= i < j < |cfgs|
      ==> !HasKey(cfgs[i], cfgs[j].serviceName, cfgs[j].serviceEnvironment)
  }

  type Index = map<(string, string), Result>

  /** An index from (name, environment) to the result stored there. */
  function IndexOf(cfgs: seq<AgentConfig>): (m: Index)
    ensures forall name, env :: (name, env) in m <==> !Absent(cfgs, name, env)
  {
    if cfgs == [] then map[]
    else
      var n := |cfgs| - 1;
      var c := cfgs[n];
      var rest := IndexOf(cfgs[..n]);
      assert forall name, env :: Absent(cfgs, name, env) <==>
        Absent(cfgs[..n], name, env) && !HasKey(c, name, env) by {
        assert forall j :: 0 <= j < n ==> cfgs[..n][j] == cfgs[j];
      }
      rest[(c.serviceName, c.serviceEnvironment) := ToResult(c)]
  }

  /** Four successive lookups. */
  function Lookup(m: Index, q: Query): Result {
    var name, env := q.service.name, q.service.environment;
    if (name, env) in m then m[(name, env)]
    else if (name, "") in m then m[(name, "")]
    else if ("", env) in m then m[("", env)]
    else if ("", "") in m then m[("", "")]
    else ZeroResult()
  }

  lemma ConsistentPrefix(cfgs: seq<AgentConfig>, n: nat)
    requires Consistent(cfgs) && n <= |cfgs|
    ensures Consistent(cfgs[..n])
  {
    assert forall j :: 0 <= j < n ==> cfgs[..n][j] == cfgs[j];
  }

  lemma {:induction false} IndexHoldsEntries(cfgs: seq<AgentConfig>, k: nat)
    requires Consistent(cfgs) && k < |cfgs|
    ensures (cfgs[k].serviceName, cfgs[k].serviceEnvironment) in IndexOf(cfgs)
    ensures IndexOf(cfgs)[(cfgs[k].serviceName, cfgs[k].serviceEnvironment)] == ToResult(cfgs[k])
  {
    var n := |cfgs| - 1;
    assert IndexOf(cfgs) ==
           IndexOf(cfgs[..n])[(cfgs[n].serviceName, cfgs[n].serviceEnvironment) := ToResult(cfgs[n])];
    if k < n {
      ConsistentPrefix(cfgs, n);
      IndexHoldsEntries(cfgs[..n], k);
      if HasKey(cfgs[n], cfgs[k].serviceName, cfgs[k].serviceEnvironment) {
        assert ToResult(cfgs[n]) == ToResult(cfgs[k]);
      }
    }
  }

  /** With consistent entries the pass is four lookups in the index. */
  lemma SelectIsLookup(q: Query, cfgs: seq<AgentConfig>)
    requires Consistent(cfgs)
    ensures Select(q, cfgs) == Lookup(IndexOf(cfgs), q)
  {
    forall k: nat | k < |cfgs|
      ensures (cfgs[k].serviceName, cfgs[k].serviceEnvironment) in IndexOf(cfgs)
      ensures IndexOf(cfgs)[(cfgs[k].serviceName, cfgs[k].serviceEnvironment)] == ToResult(cfgs[k])
    {
      IndexHoldsEntries(cfgs, k);
    }
    var name, env := q.service.name, q.service.environment;
    assert FirstMatch(cfgs, name, env).Some? <==> (name, env) in IndexOf(cfgs);
    assert LastMatch(cfgs, name, "").Some? <==> (name, "") in IndexOf(cfgs);
    assert LastMatch(cfgs, "", env).Some? <==> ("", env) in IndexOf(cfgs);
    assert LastMatch(cfgs, "", "").Some? <==> ("", "") in IndexOf(cfgs);
  }

  lemma UniqueKeysAreConsistent(cfgs: seq<AgentConfig>)
    requires UniqueKeys(cfgs)
    ensures Consistent(cfgs)
  {
    forall i, j | 0 <= i < |cfgs| && 0 <= j < |cfgs|
      && HasKey(cfgs[i], cfgs[j].serviceName, cfgs[j].serviceEnvironment)
      ensures ToResult(cfgs[i]) == ToResult(cfgs[j])
    {
      if j < i {
        assert HasKey(cfgs[j], cfgs[i].serviceName, cfgs[i].serviceEnvironment);
      }
    }
  }

  lemma SameElements(a: seq<AgentConfig>, b: seq<AgentConfig>, i: nat) returns (j: nat)
    requires multiset(a) == multiset(b) && i < |a|
    ensures j < |b| && b[j] == a[i]
  {
    assert a[i] in multiset(a);
    assert a[i] in multiset(b);
    j :| 0 <= j < |b| && b[j] == a[i];
  }

  lemma ConsistencyOfPermutation(a: seq<AgentConfig>, b: seq<AgentConfig>)
    requires multiset(a) == multiset(b) && Consistent(a)
    ensures Consistent(b)
    ensures IndexOf(a) == IndexOf(b)
  {
    forall i, j | 0 <= i < |b| && 0 <= j < |b|
      && HasKey(b[i], b[j].serviceName, b[j].serviceEnvironment)
      ensures ToResult(b[i]) == ToResult(b[j])
    {
      var i' := SameElements(b, a, i);
      var j' := SameElements(b, a, j);
      assert HasKey(a[i'], a[j'].serviceName, a[j'].serviceEnvironment);
    }
    IndexesAgree(a, b);
    IndexesAgree(b, a);
    forall key | key in IndexOf(a)
      ensures key in IndexOf(b) && IndexOf(b)[key] == IndexOf(a)[key]
    {
      assert (key.0, key.1) == key;
    }
    forall key | key in IndexOf(b)
      ensures key in IndexOf(a)
    {
      assert (key.0, key.1) == key;
    }
  }

  lemma IndexesAgree(a: seq<AgentConfig>, b: seq<AgentConfig>)
    requires multiset(a) == multiset(b) && Consistent(a) && Consistent(b)
    ensures forall name, env :: (name, env) in IndexOf(a) ==>
      (name, env) in IndexOf(b) && IndexOf(b)[(name, env)] == IndexOf(a)[(name, env)]
  {
    forall name, env | (name, env) in IndexOf(a)
      ensures (name, env) in IndexOf(b) && IndexOf(b)[(name, env)] == IndexOf(a)[(name, env)]
    {
      assert !Absent(a, name, env);
      var i: nat :| i < |a| && HasKey(a[i], name, env);
      IndexHoldsEntries(a, i);
      var j := SameElements(a, b, i);
      IndexHoldsEntries(b, j);
    }
  }

  /** Every scroll order of the same configurations gives every query the same answer
      exactly when entries stored under one key agree. */
  lemma OrderIrrelevantIffConsistent(cfgs: seq<AgentConfig>)
    ensures Consistent(cfgs) <==>
      forall q: Query, other: seq<AgentConfig> ::
        multiset(other) == multiset(cfgs) ==> Select(q, other) == Select(q, cfgs)
  {
    if Consistent(cfgs) {
      forall q: Query, other: seq<AgentConfig> | multiset(other) == multiset(cfgs)
        ensures Select(q, other) == Select(q, cfgs)
      {
        ConsistencyOfPermutation(cfgs, other);
        SelectIsLookup(q, cfgs);
        SelectIsLookup(q, other);
      }
    } else {
      var q, other := OrderMatters(cfgs);
    }
  }

  /** When two entries under one key disagree, swapping two entries changes an answer. */
  lemma OrderMatters(cfgs: seq<AgentConfig>) returns (q: Query, other: seq<AgentConfig>)
    requires !Consistent(cfgs)
    ensures multiset(other) == multiset(cfgs)
    ensures Select(q, other) != Select(q, cfgs)
  {
    var i: nat, j: nat :| i < |cfgs| && j < |cfgs|
      && HasKey(cfgs[i], cfgs[j].serviceName, cfgs[j].serviceEnvironment)
      && ToResult(cfgs[i]) != ToResult(cfgs[j]);
    var name, env := cfgs[j].serviceName, cfgs[j].serviceEnvironment;
    q := Query(Service(name, env), "", [], false);
    assert HasKey(cfgs[j], name, env);
    var f := FirstMatch(cfgs, name, env).value;
    var x := if ToResult(cfgs[i]) != ToResult(cfgs[f]) then i else j;
    assert f < x;
    other := Swap(cfgs, f, x);
    assert IsFirst(other, name, env, f);
    FirstIsUnique(other, name, env, f);
  }

  function Swap(s: seq<AgentConfig>, i: nat, j: nat): (t: seq<AgentConfig>)
    requires i < j < |s|
    ensures |t| == |s| && t[i] == s[j] && t[j] == s[i]
    ensures forall k :: 0 <= k < |s| && k != i && k != j ==> t[k] == s[k]
    ensures multiset(t) == multiset(s)
  {
    assert s == s[..i] + [s[i]] + s[i+1..j] + [s[j]] + s[j+1..];
    s[..i] + [s[j]] + s[i+1..j] + [s[i]] + s[j+1..]
  }
}
