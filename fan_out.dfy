/** The fan-out list of a federated cache and the contents of the caches on it,
    as values: a list of caches is a `seq` without duplicates (a Kotlin
    `LinkedHashSet`), and the contents of the fan-out list are one map per
    cache, in fan-out order. The composite's methods are proved against the
    functions here. */
module FanOut {
  import opened CacheTypes

  ghost predicate NoDuplicates<T>(s: seq<T>) {
    forall i, j :: 0 <= i < j < |s| ==> s[i] != s[j]
  }

  /** The position of `x` in `s`. */
  function IndexOf<T(==)>(s: seq<T>, x: T): (i: nat)
    requires x in s
    ensures i < |s| && s[i] == x
    ensures forall j :: 0 <= j < i ==> s[j] != x
  {
    if s[0] == x then 0 else 1 + IndexOf(s[1..], x)
  }

  /** `LinkedHashSet.addAll(xs)` on a set whose iteration order is `s`: the
      elements of `s` keep their positions and each element of `xs` not yet
      present is added after them. The order among the added elements is not
      stated here; for the fan-out list `AllCachesWithNative` and
      `AllCachesWithoutNative` fix it. */
  function AddAll<T(==)>(s: seq<T>, xs: seq<T>): (r: seq<T>)
    ensures |s| <= |r| && r[..|s|] == s
    ensures forall x :: x in r ==> x in s || x in xs
    ensures forall x :: x in s ==> x in r
    ensures forall x :: x in xs ==> x in r
    ensures NoDuplicates(s) ==> NoDuplicates(r)
    decreases |xs|
  {
    if xs == [] then s
    else AddAll(if xs[0] in s then s else s + [xs[0]], xs[1..])
  }

  /** `componentCaches + setOf(nativeFederatedCache ?: defaultCache, defaultCache)`,
      the fan-out list of a federated cache. */
  function AllCaches<T(==)>(components: seq<T>, native: Option<T>, default: T): (r: seq<T>)
    ensures |components| <= |r| && r[..|components|] == components
    ensures forall c :: c in r ==> c in components || c == default || native == Some(c)
    ensures forall c :: c in components ==> c in r
    ensures default in r && (native.Some? ==> native.value in r)
    ensures NoDuplicates(components) ==> NoDuplicates(r)
  {
    AddAll(components, [native.OrElse(default), default])
  }

  /** With a native cache configured, neither it nor the default among the
      components, the fan-out order is the components, then the native cache,
      then the default cache. */
  lemma AllCachesWithNative<T>(components: seq<T>, n: T, d: T)
    requires n !in components && d !in components && n != d
    ensures AllCaches(components, Some(n), d) == components + [n, d]
  {
    assert [n, d][1..] == [d];
    assert AddAll(components + [n], [d]) == components + [n, d];
  }

  /** Without a native cache the default cache is appended once, unless it is
      already one of the components. */
  lemma AllCachesWithoutNative<T>(components: seq<T>, d: T)
    ensures AllCaches(components, None, d) == if d in components then components else components + [d]
  {
    var s := if d in components then components else components + [d];
    assert [d, d][1..] == [d];
    assert AddAll(s, [d]) == AddAll(s, []);
  }

  /** The contents of the fan-out list: one component map per cache. */
  type Stores<K, V> = seq<map<K, Option<V>>>

  /** `allCaches.asSequence().mapNotNull { it.get(key) }.firstOrNull()`: the
      entry of the first cache, in fan-out order, that holds `k`. */
  function Lookup<K, V>(st: Stores<K, V>, k: K): (r: Option<ValueWrapper<V>>)
    ensures r.None? <==> forall i :: 0 <= i < |st| ==> k !in st[i]
  {
    if st == [] then None
    else if k in st[0] then Some(ValueWrapper(st[0][k]))
    else Lookup(st[1..], k)
  }

  /** Whoever holds `k` first, in fan-out order, supplies the value `Lookup` returns. */
  lemma {:induction false} LookupFirstHit<K, V>(st: Stores<K, V>, k: K, i: nat)
    requires i < |st| && k in st[i]
    requires forall j :: 0 <= j < i ==> k !in st[j]
    ensures Lookup(st, k) == Some(ValueWrapper(st[i][k]))
  {
    if i > 0 {
      assert k !in st[0];
      LookupFirstHit(st[1..], k, i - 1);
    }
  }

  /** Two contents that agree on `k` in every cache give the same lookup of `k`. */
  lemma {:induction false} LookupAgrees<K, V>(st: Stores<K, V>, st': Stores<K, V>, k: K)
    requires |st| == |st'|
    requires forall i :: 0 <= i < |st| ==> (k in st[i] <==> k in st'[i])
    requires forall i :: 0 <= i < |st| && k in st[i] ==> st[i][k] == st'[i][k]
    ensures Lookup(st, k) == Lookup(st', k)
  {
    if st != [] && k !in st[0] {
      LookupAgrees(st[1..], st'[1..], k);
    }
  }

  /** `allCaches.forEach { it.evict(key) }`. */
  function EvictAll<K, V>(st: Stores<K, V>, k: K): (r: Stores<K, V>)
    ensures |r| == |st|
    ensures forall i :: 0 <= i < |st| ==> r[i] == st[i] - {k}
  {
    seq(|st|, i requires 0 <= i < |st| => st[i] - {k})
  }

  /** `allCaches.forEach { it.clear() }`. */
  function ClearAll<K, V>(st: Stores<K, V>): (r: Stores<K, V>)
    ensures |r| == |st|
    ensures forall i :: 0 <= i < |st| ==> r[i] == map[]
  {
    seq(|st|, i requires 0 <= i < |st| => map[])
  }

  /** `put`: evict `k` everywhere, then store `k -> v` in the cache at
      position `i`. Afterwards only that cache holds `k`, and every entry for
      another key is where it was. */
  function PutAt<K, V>(st: Stores<K, V>, i: nat, k: K, v: Option<V>): (r: Stores<K, V>)
    requires i < |st|
    ensures |r| == |st|
    ensures forall j :: 0 <= j < |st| ==> (k in r[j] <==> j == i)
    ensures r[i][k] == v
    ensures forall j :: 0 <= j < |st| ==> r[j] - {k} == st[j] - {k}
  {
    var e := EvictAll(st, k);
    assert e[i][k := v] - {k} == e[i];
    e[i := e[i][k := v]]
  }

  /** The chosen cache's own `putIfAbsent` when it does not hold `k`: store
      `k -> v` there and touch nothing else. */
  function InsertAt<K, V>(st: Stores<K, V>, i: nat, k: K, v: Option<V>): (r: Stores<K, V>)
    requires i < |st| && k !in st[i]
    ensures |r| == |st| && r[i] == st[i][k := v]
    ensures forall j :: 0 <= j < |st| && j != i ==> r[j] == st[j]
  {
    st[i := st[i][k := v]]
  }

  /** After `put(k, v)`, `get(k)` returns `v`. */
  lemma {:induction false} PutThenGet<K, V>(st: Stores<K, V>, i: nat, k: K, v: Option<V>)
    requires i < |st|
    ensures Lookup(PutAt(st, i, k, v), k) == Some(ValueWrapper(v))
  {
    LookupFirstHit(PutAt(st, i, k, v), k, i);
  }

  /** `put(k, v)` leaves `get` of every other key as it was. */
  lemma {:induction false} PutKeepsOtherKeys<K, V>(st: Stores<K, V>, i: nat, k: K, v: Option<V>, k': K)
    requires i < |st| && k' != k
    ensures Lookup(PutAt(st, i, k, v), k') == Lookup(st, k')
  {
    var r := PutAt(st, i, k, v);
    forall j | 0 <= j < |st|
      ensures (k' in st[j] <==> k' in r[j]) && (k' in st[j] ==> st[j][k'] == r[j][k'])
    {
      assert k' in st[j] <==> k' in st[j] - {k};
      assert k' in r[j] <==> k' in r[j] - {k};
      if k' in st[j] {
        assert st[j][k'] == (st[j] - {k})[k'] == (r[j] - {k})[k'] == r[j][k'];
      }
    }
    LookupAgrees(st, r, k');
  }

  /** After `evict(k)` no cache holds `k`, and `get(k)` is absent. */
  lemma EvictRemovesKey<K, V>(st: Stores<K, V>, k: K)
    ensures forall i :: 0 <= i < |st| ==> k !in EvictAll(st, k)[i]
    ensures Lookup(EvictAll(st, k), k) == None
  {
  }

  /** `evict(k)` leaves `get` of every other key as it was. */
  lemma {:induction false} EvictKeepsOtherKeys<K, V>(st: Stores<K, V>, k: K, k': K)
    requires k' != k
    ensures Lookup(EvictAll(st, k), k') == Lookup(st, k')
  {
    var r := EvictAll(st, k);
    forall j | 0 <= j < |st|
      ensures (k' in st[j] <==> k' in r[j]) && (k' in st[j] ==> st[j][k'] == r[j][k'])
    {
    }
    LookupAgrees(st, r, k');
  }

  /** After `clear()` every cache is empty and no key is found; clearing twice
      is clearing once. */
  lemma ClearEmptiesAll<K, V>(st: Stores<K, V>, k: K)
    ensures Lookup(ClearAll(st), k) == None
    ensures ClearAll(ClearAll(st)) == ClearAll(st)
  {
  }

  /** On a miss, the chosen cache's own `putIfAbsent` has the effect `put`
      would have had: there is nothing to evict. */
  lemma {:induction false} InsertOnMissIsPut<K, V>(st: Stores<K, V>, i: nat, k: K, v: Option<V>)
    requires i < |st| && Lookup(st, k).None?
    ensures InsertAt(st, i, k, v) == PutAt(st, i, k, v)
  {
    var a, b := InsertAt(st, i, k, v), PutAt(st, i, k, v);
    forall j | 0 <= j < |st| ensures a[j] == b[j] {
      assert st[j] - {k} == st[j];
      if j == i {
        assert b[j] == (b[j] - {k})[k := v];
      } else {
        assert b[j] == b[j] - {k};
      }
    }
  }

  /** `putIfAbsent(k, v1)` on a miss makes `get(k)` return `v1`, so a second
      `putIfAbsent(k, v2)` finds it and writes nothing. */
  lemma {:induction false} PutIfAbsentKeepsFirst<K, V>(st: Stores<K, V>, i: nat, k: K, v1: Option<V>)
    requires i < |st| && Lookup(st, k).None?
    ensures Lookup(InsertAt(st, i, k, v1), k) == Some(ValueWrapper(v1))
  {
    InsertOnMissIsPut(st, i, k, v1);
    PutThenGet(st, i, k, v1);
  }
}
