/** Sums over sequences and flattened sequences, built up from the left as loops do. */
module Sums {

  function SumInt<T>(s: seq<T>, f: T -> int): int {
    if s == [] then 0 else SumInt(s[..|s| - 1], f) + f(s[|s| - 1])
  }

  function SumReal<T>(s: seq<T>, f: T -> real): real {
    if s == [] then 0.0 else SumReal(s[..|s| - 1], f) + f(s[|s| - 1])
  }

  /** The concatenation of `f(x)` for all `x` in order. */
  function ConcatMap<S, T>(s: seq<S>, f: S -> seq<T>): seq<T> {
    if s == [] then [] else ConcatMap(s[..|s| - 1], f) + f(s[|s| - 1])
  }

  lemma Associative<T>(a: seq<T>, b: seq<T>, c: seq<T>)
    ensures a + b + c == a + (b + c)
  {
  }

  lemma SumIntSnoc<T>(s: seq<T>, x: T, f: T -> int)
    ensures SumInt(s + [x], f) == SumInt(s, f) + f(x)
  {
    assert (s + [x])[..|s|] == s;
  }

  lemma SumRealSnoc<T>(s: seq<T>, x: T, f: T -> real)
    ensures SumReal(s + [x], f) == SumReal(s, f) + f(x)
  {
    assert (s + [x])[..|s|] == s;
  }

  lemma ConcatMapSnoc<S, T>(s: seq<S>, x: S, f: S -> seq<T>)
    ensures ConcatMap(s + [x], f) == ConcatMap(s, f) + f(x)
  {
    assert (s + [x])[..|s|] == s;
  }

  lemma ConcatMapPrefix<S, T>(s: seq<S>, i: nat, f: S -> seq<T>)
    requires i < |s|
    ensures ConcatMap(s[..i + 1], f) == ConcatMap(s[..i], f) + f(s[i])
  {
    assert s[..i + 1] == s[..i] + [s[i]];
    ConcatMapSnoc(s[..i], s[i], f);
  }

  lemma ConcatMapExtends<S, T>(start: seq<T>, s: seq<S>, i: nat, f: S -> seq<T>)
    requires i < |s|
    ensures start + ConcatMap(s[..i], f) + f(s[i]) == start + ConcatMap(s[..i + 1], f)
  {
    ConcatMapPrefix(s, i, f);
    Associative(start, ConcatMap(s[..i], f), f(s[i]));
  }

  lemma {:induction false} SumIntConcat<T>(a: seq<T>, b: seq<T>, f: T -> int)
    ensures SumInt(a + b, f) == SumInt(a, f) + SumInt(b, f)
  {
    if b == [] {
      assert a + b == a;
    } else {
      var n := |b| - 1;
      assert a + b == (a + b[..n]) + [b[n]];
      SumIntSnoc(a + b[..n], b[n], f);
      SumIntConcat(a, b[..n], f);
    }
  }

  lemma {:induction false} ConcatMapConcat<S, T>(a: seq<S>, b: seq<S>, f: S -> seq<T>)
    ensures ConcatMap(a + b, f) == ConcatMap(a, f) + ConcatMap(b, f)
  {
    if b == [] {
      assert a + b == a;
    } else {
      var n := |b| - 1;
      assert a + b == (a + b[..n]) + [b[n]];
      ConcatMapSnoc(a + b[..n], b[n], f);
      ConcatMapConcat(a, b[..n], f);
    }
  }

  lemma {:induction false} ConcatMapEmpty<S, T>(s: seq<S>, f: S -> seq<T>)
    requires forall x :: x in s ==> f(x) == []
    ensures ConcatMap(s, f) == []
  {
    if s != [] {
      ConcatMapEmpty(s[..|s| - 1], f);
    }
  }

  /** Elements without output can be added. */
  lemma ConcatMapIgnores<S, T>(s: seq<S>, extra: seq<S>, f: S -> seq<T>)
    requires forall x :: x in extra ==> f(x) == []
    ensures ConcatMap(s + extra, f) == ConcatMap(s, f)
  {
    ConcatMapConcat(s, extra, f);
    ConcatMapEmpty(extra, f);
    assert ConcatMap(s, f) + [] == ConcatMap(s, f);
  }

  lemma {:induction false} ConcatMapAll<S, T>(s: seq<S>, f: S -> seq<T>, p: T -> bool)
    requires forall x, y :: x in s && y in f(x) ==> p(y)
    ensures forall y :: y in ConcatMap(s, f) ==> p(y)
  {
    if s != [] {
      ConcatMapAll(s[..|s| - 1], f, p);
    }
  }

  lemma {:induction false} SumIntZero<T>(s: seq<T>, f: T -> int)
    requires forall x :: x in s ==> f(x) == 0
    ensures SumInt(s, f) == 0
  {
    if s != [] {
      SumIntZero(s[..|s| - 1], f);
    }
  }

  lemma {:induction false} SumIntAdd<T>(s: seq<T>, f: T -> int, g: T -> int, h: T -> int)
    requires forall x :: x in s ==> h(x) == f(x) + g(x)
    ensures SumInt(s, h) == SumInt(s, f) + SumInt(s, g)
  {
    if s != [] {
      SumIntAdd(s[..|s| - 1], f, g, h);
    }
  }

  lemma {:induction false} SumRealAdd<T>(s: seq<T>, f: T -> real, g: T -> real, h: T -> real)
    requires forall x :: x in s ==> h(x) == f(x) + g(x)
    ensures SumReal(s, h) == SumReal(s, f) + SumReal(s, g)
  {
    if s != [] {
      SumRealAdd(s[..|s| - 1], f, g, h);
    }
  }

  lemma {:induction false} SumIntNonNegative<T>(s: seq<T>, f: T -> int)
    requires forall x :: x in s ==> f(x) >= 0
    ensures SumInt(s, f) >= 0
  {
    if s != [] {
      SumIntNonNegative(s[..|s| - 1], f);
    }
  }

  /** Dominated summands have dominated sums. */
  lemma {:induction false} SumIntAtMost<T>(s: seq<T>, f: T -> int, g: T -> int)
    requires forall x :: x in s ==> f(x) <= g(x)
    ensures SumInt(s, f) <= SumInt(s, g)
  {
    if s != [] {
      SumIntAtMost(s[..|s| - 1], f, g);
    }
  }

  /** Summing a flattened sequence sums the sums of its parts. */
  lemma {:induction false} SumIntConcatMap<S, T>(s: seq<S>, f: S -> seq<T>, g: T -> int, h: S -> int)
    requires forall x :: x in s ==> h(x) == SumInt(f(x), g)
    ensures SumInt(ConcatMap(s, f), g) == SumInt(s, h)
  {
    if s != [] {
      var n := |s| - 1;
      SumIntConcatMap(s[..n], f, g, h);
      SumIntConcat(ConcatMap(s[..n], f), f(s[n]), g);
    }
  }

  /** Two ways to flatten give the same sum if they do for each element. */
  lemma SumIntSameParts<S, T>(s: seq<S>, f: S -> seq<T>, g: S -> seq<T>, v: T -> int)
    requires forall x :: x in s ==> SumInt(f(x), v) == SumInt(g(x), v)
    ensures SumInt(ConcatMap(s, f), v) == SumInt(ConcatMap(s, g), v)
  {
    var h := (x: S) => SumInt(g(x), v);
    SumIntConcatMap(s, f, v, h);
    SumIntConcatMap(s, g, v, h);
  }

  lemma {:induction false} SumRealConcat<T>(a: seq<T>, b: seq<T>, f: T -> real)
    ensures SumReal(a + b, f) == SumReal(a, f) + SumReal(b, f)
  {
    if b == [] {
      assert a + b == a;
    } else {
      var n := |b| - 1;
      assert a + b == (a + b[..n]) + [b[n]];
      SumRealSnoc(a + b[..n], b[n], f);
      SumRealConcat(a, b[..n], f);
    }
  }

  // ---------- Regrouping ----------

  predicate Distinct<K(==)>(keys: seq<K>) {
    forall i, j :: 0 <= i < j < |keys| ==> keys[i] != keys[j]
  }

  /** `f` where the key of the argument is `k`, zero elsewhere. */
  function OnlyKey<T, K(==)>(f: T -> int, key: T -> K, k: K): T -> int {
    (x: T) => if key(x) == k then f(x) else 0
  }

  function OnlyKeyReal<T, K(==)>(f: T -> real, key: T -> K, k: K): T -> real {
    (x: T) => if key(x) == k then f(x) else 0.0
  }

  /** The sum over the group of each key. */
  function GroupSum<T, K(==)>(s: seq<T>, f: T -> int, key: T -> K): K -> int {
    (k: K) => SumInt(s, OnlyKey(f, key, k))
  }

  function GroupSumReal<T, K(==)>(s: seq<T>, f: T -> real, key: T -> K): K -> real {
    (k: K) => SumReal(s, OnlyKeyReal(f, key, k))
  }

  function Indicator<K(==)>(v: int, at: K): K -> int {
    (k: K) => if k == at then v else 0
  }

  function IndicatorReal<K(==)>(v: real, at: K): K -> real {
    (k: K) => if k == at then v else 0.0
  }

  lemma {:induction false} SumIndicator<K>(keys: seq<K>, v: int, at: K)
    requires Distinct(keys)
    ensures SumInt(keys, Indicator(v, at)) == if at in keys then v else 0
  {
    if keys != [] {
      var n := |keys| - 1;
      SumIndicator(keys[..n], v, at);
      assert keys == keys[..n] + [keys[n]];
    }
  }

  lemma {:induction false} SumIndicatorReal<K>(keys: seq<K>, v: real, at: K)
    requires Distinct(keys)
    ensures SumReal(keys, IndicatorReal(v, at)) == if at in keys then v else 0.0
  {
    if keys != [] {
      var n := |keys| - 1;
      SumIndicatorReal(keys[..n], v, at);
      assert keys == keys[..n] + [keys[n]];
    }
  }

  /** Grouping by a key and adding the groups up changes nothing, when every element that
      counts has its key among `keys`. */
  lemma {:induction false} Regroup<T, K>(s: seq<T>, f: T -> int, key: T -> K, keys: seq<K>)
    requires Distinct(keys)
    requires forall x :: x in s && f(x) != 0 ==> key(x) in keys
    ensures SumInt(keys, GroupSum(s, f, key)) == SumInt(s, f)
  {
    if s == [] {
      SumIntZero(keys, GroupSum(s, f, key));
    } else {
      var n := |s| - 1;
      Regroup(s[..n], f, key, keys);
      SumIntAdd(keys, GroupSum(s[..n], f, key), Indicator(f(s[n]), key(s[n])), GroupSum(s, f, key));
      SumIndicator(keys, f(s[n]), key(s[n]));
    }
  }

  lemma {:induction false} SumRealZero<T>(s: seq<T>, f: T -> real)
    requires forall x :: x in s ==> f(x) == 0.0
    ensures SumReal(s, f) == 0.0
  {
    if s != [] {
      SumRealZero(s[..|s| - 1], f);
    }
  }

  lemma {:induction false} RegroupReal<T, K>(s: seq<T>, f: T -> real, key: T -> K, keys: seq<K>)
    requires Distinct(keys)
    requires forall x :: x in s && f(x) != 0.0 ==> key(x) in keys
    ensures SumReal(keys, GroupSumReal(s, f, key)) == SumReal(s, f)
  {
    if s == [] {
      SumRealZero(keys, GroupSumReal(s, f, key));
    } else {
      var n := |s| - 1;
      RegroupReal(s[..n], f, key, keys);
      SumRealAdd(keys, GroupSumReal(s[..n], f, key), IndicatorReal(f(s[n]), key(s[n])), GroupSumReal(s, f, key));
      SumIndicatorReal(keys, f(s[n]), key(s[n]));
    }
  }

  lemma {:induction false} SumRealOnes<K>(keys: seq<K>, f: K -> real)
    requires forall k :: k in keys ==> f(k) == 1.0
    ensures SumReal(keys, f) == |keys| as real
  {
    if keys != [] {
      SumRealOnes(keys[..|keys| - 1], f);
    }
  }

  // ---------- Order ----------

  lemma {:induction false} DistinctOccurOnce<K>(s: seq<K>, x: K)
    requires Distinct(s)
    ensures multiset(s)[x] == if x in s then 1 else 0
  {
    if s != [] {
      var n := |s| - 1;
      assert s == s[..n] + [s[n]];
      DistinctOccurOnce(s[..n], x);
    }
  }

  /** Two ways to list the same elements, each once. */
  lemma DistinctListings<K>(a: seq<K>, b: seq<K>)
    requires Distinct(a) && Distinct(b)
    requires forall x :: x in a <==> x in b
    ensures multiset(a) == multiset(b)
  {
    forall x: K
      ensures multiset(a)[x] == multiset(b)[x]
    {
      DistinctOccurOnce(a, x);
      DistinctOccurOnce(b, x);
    }
  }

  /** Flattening in another order gives the same elements as often. */
  lemma {:induction false} ConcatMapPermuted<S, T>(a: seq<S>, b: seq<S>, f: S -> seq<T>)
    requires multiset(a) == multiset(b)
    ensures multiset(ConcatMap(a, f)) == multiset(ConcatMap(b, f))
  {
    if a == [] {
      assert |multiset(b)| == 0;
    } else {
      var n := |a| - 1;
      assert a == a[..n] + [a[n]];
      assert a[n] in multiset(b);
      var k :| 0 <= k < |b| && b[k] == a[n];
      assert b == b[..k] + [b[k]] + b[k + 1..];
      assert multiset(a[..n]) == multiset(a) - multiset{a[n]};
      assert multiset(b[..k] + b[k + 1..]) == multiset(b) - multiset{b[k]};
      ConcatMapPermuted(a[..n], b[..k] + b[k + 1..], f);
      ConcatMapConcat(b[..k] + [b[k]], b[k + 1..], f);
      ConcatMapSnoc(b[..k], b[k], f);
      ConcatMapConcat(b[..k], b[k + 1..], f);
    }
  }
}
