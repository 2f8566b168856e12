/** The conditional caches of the test suite, routing integer keys by parity,
    and scenarios that run the composite through the tests' steps. The
    scenarios use the odd cache with the corrected predicate
    (`OddNumberAccepts`); on the non-negative keys they use it agrees with the
    predicate as written (`OddPredicatesAgree`). */
module EvenOddCaches {
  import opened CacheTypes
  import opened FanOut
  import opened ConditionalCaches
  import opened Federated

  datatype ArbitraryThing = ArbitraryThing(value: int)

  /** Kotlin's `key % 2`: truncating division, so the remainder has the sign
      of the dividend (Dafny's `%` is Euclidean and never negative). */
  function KotlinRem2(a: int): (r: int)
    ensures r == if a < 0 then -((-a) % 2) else a % 2
    ensures -1 <= r <= 1 && (r == 0 <==> a % 2 == 0)
  {
    var m := a % 2;
    if a >= 0 || m == 0 then m else m - 2
  }

  /** `EvenNumberCache.accepts`: `key % 2 == 0`, which holds for every even key. */
  function EvenNumberAccepts(key: int, value: Option<ArbitraryThing>): (r: bool)
    ensures r <==> key % 2 == 0
  {
    KotlinRem2(key) == 0
  }

  /** `OddNumberCache.accepts` as the test writes it: `key % 2 == 1`, which
      holds for the positive odd keys only. */
  function OddNumberAcceptsAsWritten(key: int, value: Option<ArbitraryThing>): (r: bool)
    ensures r <==> key > 0 && key % 2 == 1
  {
    KotlinRem2(key) == 1
  }

  /** `OddNumberCache.accepts` as intended: every odd key, `key % 2 != 0`. */
  function OddNumberAccepts(key: int, value: Option<ArbitraryThing>): (r: bool)
    ensures r <==> key % 2 == 1
  {
    KotlinRem2(key) != 0
  }

  /** The two odd predicates differ on the negative odd keys only: on the
      non-negative keys the tests use they agree. */
  lemma OddPredicatesAgree(key: int, value: Option<ArbitraryThing>)
    ensures OddNumberAccepts(key, value) != OddNumberAcceptsAsWritten(key, value) <==> key < 0 && key % 2 == 1
  {
  }

  /** As written, a negative odd key is accepted by neither test cache. */
  lemma NegativeOddKeysRejected(key: int, value: Option<ArbitraryThing>)
    requires key < 0 && key % 2 == 1
    ensures !EvenNumberAccepts(key, value) && !OddNumberAcceptsAsWritten(key, value)
  {
    assert KotlinRem2(key) == -1;
  }

  /** So with the caches as written, the conditional strategy sends key -3 to
      the even cache, the first eligible one. */
  lemma AsWrittenRoutesMinusThreeToEven(even: MapCache<int, ArbitraryThing>, odd: MapCache<int, ArbitraryThing>,
                                        value: Option<ArbitraryThing>)
    requires even.accepts == Some(EvenNumberAccepts) && odd.accepts == Some(OddNumberAcceptsAsWritten)
    ensures ChooseConditional(None, -3, value, [even, odd]) == Ok(Some(even))
  {
    NegativeOddKeysRejected(-3, value);
    assert !Accepts([even, odd][0], -3, value) && !Accepts([even, odd][1], -3, value);
    ChooseWhenNoneAccepts(None, -3, value, [even, odd]);
  }

  /** With the caches as written, positive odd keys go to the odd cache and
      every other key, the negative odd ones included, to the even cache. */
  lemma AsWrittenRouting(even: MapCache<int, ArbitraryThing>, odd: MapCache<int, ArbitraryThing>,
                         key: int, value: Option<ArbitraryThing>)
    requires even.accepts == Some(EvenNumberAccepts) && odd.accepts == Some(OddNumberAcceptsAsWritten)
    ensures ChooseConditional(None, key, value, [even, odd]) == Ok(Some(if key > 0 && key % 2 == 1 then odd else even))
  {
    if key % 2 == 0 {
      ChooseFirstAccepting(None, key, value, [even, odd], 0);
    } else if key > 0 {
      ChooseFirstAccepting(None, key, value, [even, odd], 1);
    } else {
      assert !Accepts([even, odd][0], key, value) && !Accepts([even, odd][1], key, value);
      ChooseWhenNoneAccepts(None, key, value, [even, odd]);
    }
  }

  /** With the intended predicate every key is accepted by exactly one of the two caches. */
  lemma EvenOddPartition(key: int, value: Option<ArbitraryThing>)
    ensures EvenNumberAccepts(key, value) != OddNumberAccepts(key, value)
    ensures EvenNumberAccepts(key, value) <==> key % 2 == 0
  {
  }

  /** Even keys go to the even cache, odd keys to the odd cache. */
  lemma EvenOddRouting(even: MapCache<int, ArbitraryThing>, odd: MapCache<int, ArbitraryThing>,
                       key: int, value: Option<ArbitraryThing>)
    requires even.accepts == Some(EvenNumberAccepts) && odd.accepts == Some(OddNumberAccepts)
    ensures ChooseConditional(None, key, value, [even, odd]) == Ok(Some(if key % 2 == 0 then even else odd))
  {
    EvenOddPartition(key, value);
    if key % 2 == 0 {
      ChooseFirstAccepting(None, key, value, [even, odd], 0);
    } else {
      ChooseFirstAccepting(None, key, value, [even, odd], 1);
    }
  }

  /** `FederatedCache(evenCache, oddCache)` over two fresh test caches, the
      odd one with the corrected predicate `OddNumberAccepts`. */
  method NewEvenOdd() returns (even: MapCache<int, ArbitraryThing>, odd: MapCache<int, ArbitraryThing>,
                               fed: FederatedCache<int, ArbitraryThing>)
    ensures fresh(even) && fresh(odd) && even != odd
    ensures even.accepts == Some(EvenNumberAccepts) && odd.accepts == Some(OddNumberAccepts)
    ensures even.entries == map[] && odd.entries == map[]
    ensures EvenOddSetup(fed, even, odd) && fed.defaultCache == even
  {
    even := new MapCache(None, Some(EvenNumberAccepts));
    odd := new MapCache(None, Some(OddNumberAccepts));
    fed := new FederatedCache.OfConditional([even, odd], even);
    AllCachesWithoutNative([even, odd], even);
  }

  /** Where `put` sends a key when the odd cache has the corrected predicate. */
  lemma WhichCacheByParity(fed: FederatedCache<int, ArbitraryThing>, even: MapCache<int, ArbitraryThing>,
                           odd: MapCache<int, ArbitraryThing>, key: int, value: Option<ArbitraryThing>)
    requires EvenOddSetup(fed, even, odd)
    ensures fed.WhichCache(key, value) == Ok(if key % 2 == 0 then even else odd)
    ensures IndexOf(fed.allCaches, fed.WhichCache(key, value).value) == if key % 2 == 0 then 0 else 1
  {
    EvenOddRouting(even, odd, key, value);
  }

  /** `fed` is `FederatedCache(even, odd)` over the two test caches, the odd
      one with the corrected predicate. */
  ghost predicate EvenOddSetup(fed: FederatedCache<int, ArbitraryThing>, even: MapCache<int, ArbitraryThing>,
                               odd: MapCache<int, ArbitraryThing>)
  {
    && fed.Valid() && fed.allCaches == [even, odd] && fed.componentCaches == [even, odd] && even != odd
    && fed.cacheStrategy == ConditionalCacheStrategy(None)
    && even.accepts == Some(EvenNumberAccepts) && odd.accepts == Some(OddNumberAccepts)
  }

  /** `fed.put(key, value)` stores even keys in the even cache and odd keys in the odd one. */
  method PutByParity(fed: FederatedCache<int, ArbitraryThing>, even: MapCache<int, ArbitraryThing>,
                     odd: MapCache<int, ArbitraryThing>, key: int, value: Option<ArbitraryThing>)
    requires EvenOddSetup(fed, even, odd)
    modifies fed.allCaches
    ensures fed.Contents() == PutAt(old(fed.Contents()), if key % 2 == 0 then 0 else 1, key, value)
  {
    WhichCacheByParity(fed, even, odd, key, value);
    var r := fed.Put(key, value);
  }

  /** Starting from two empty caches, `put` of 1 into the second and then of
      2 into the first leaves each key in its own cache only. */
  lemma TwoPutsStores<V>(v1: Option<V>, v2: Option<V>)
    ensures PutAt(PutAt([map[], map[]], 1, 1, v1), 0, 2, v2) == [map[2 := v2], map[1 := v1]]
  {
    var st1 := PutAt([map[], map[]], 1, 1, v1);
    assert st1 == [map[], map[1 := v1]] by {
      assert st1[0] == st1[0] - {1} == map[];
      assert st1[1] == (st1[1] - {1})[1 := v1];
    }
    var st2 := PutAt(st1, 0, 2, v2);
    assert st2[0] == (st2[0] - {2})[2 := v2] == map[2 := v2];
    assert st2[1] == st2[1] - {2} == st1[1] - {2} == map[1 := v1];
  }

  /** `put(1, thing1)` then `put(2, thing2)` on fresh test caches. */
  method PutOneAndTwo() returns (even: MapCache<int, ArbitraryThing>, odd: MapCache<int, ArbitraryThing>,
                                 fed: FederatedCache<int, ArbitraryThing>)
    ensures EvenOddSetup(fed, even, odd)
    ensures fed.Contents() == [map[2 := Some(ArbitraryThing(2))], map[1 := Some(ArbitraryThing(1))]]
  {
    even, odd, fed := NewEvenOdd();
    ghost var st0 := fed.Contents();
    assert st0 == [map[], map[]];
    PutByParity(fed, even, odd, 1, Some(ArbitraryThing(1)));
    ghost var st1 := fed.Contents();
    assert st1 == PutAt(st0, 1, 1, Some(ArbitraryThing(1)));
    PutByParity(fed, even, odd, 2, Some(ArbitraryThing(2)));
    assert fed.Contents() == PutAt(st1, 0, 2, Some(ArbitraryThing(2)));
    TwoPutsStores(Some(ArbitraryThing(1)), Some(ArbitraryThing(2)));
  }

  /** The routing scenario: `put(1, thing1)` and `put(2, thing2)` land in the
      odd and the even cache respectively, each key in its cache only, and the
      composite finds both; an unknown key is absent. */
  method VanillaScenario() returns (got1: Option<ValueWrapper<ArbitraryThing>>, got2: Option<ValueWrapper<ArbitraryThing>>,
                                    gotMissing: Option<ValueWrapper<ArbitraryThing>>,
                                    evenEntries: map<int, Option<ArbitraryThing>>, oddEntries: map<int, Option<ArbitraryThing>>)
    ensures got1 == Some(ValueWrapper(Some(ArbitraryThing(1))))
    ensures got2 == Some(ValueWrapper(Some(ArbitraryThing(2))))
    ensures gotMissing == None
    ensures evenEntries == map[2 := Some(ArbitraryThing(2))] && oddEntries == map[1 := Some(ArbitraryThing(1))]
  {
    var even, odd, fed := PutOneAndTwo();
    evenEntries, oddEntries := even.entries, odd.entries;
    assert evenEntries == fed.Contents()[0] && oddEntries == fed.Contents()[1];
    assert fed.FirstHolder(1, 1) && fed.FirstHolder(2, 0);
    got1, got2, gotMissing := fed.Get(1), fed.Get(2), fed.Get(-1);
  }

  /** The eviction scenario: after `evict(2)` no cache holds 2, the composite
      does not find it, and key 3 is still found. */
  method EvictScenario() returns (evenHas2: bool, got2: Option<ValueWrapper<ArbitraryThing>>,
                                  got3: Option<ValueWrapper<ArbitraryThing>>)
    ensures !evenHas2 && got2 == None
    ensures got3 == Some(ValueWrapper(Some(ArbitraryThing(3))))
  {
    var even, odd, fed := NewEvenOdd();
    PutByParity(fed, even, odd, 2, Some(ArbitraryThing(2)));
    ghost var st1 := fed.Contents();
    PutByParity(fed, even, odd, 3, Some(ArbitraryThing(3)));
    PutThenGet(st1, 1, 3, Some(ArbitraryThing(3)));
    ghost var st2 := fed.Contents();
    fed.Evict(2);
    EvictKeepsOtherKeys(st2, 2, 3);
    EvictRemovesKey(st2, 2);
    assert fed.Contents() == EvictAll(st2, 2);
    assert even.entries == fed.Contents()[0];
    evenHas2, got2, got3 := 2 in even.entries, fed.Get(2), fed.Get(3);
  }

  /** The clear scenario: after `clear()` the composite and the even cache are empty. */
  method ClearScenario() returns (before: Option<ValueWrapper<ArbitraryThing>>, after: Option<ValueWrapper<ArbitraryThing>>,
                                  evenEntries: map<int, Option<ArbitraryThing>>)
    ensures before == Some(ValueWrapper(Some(ArbitraryThing(4))))
    ensures after == None && evenEntries == map[]
  {
    var even, odd, fed := NewEvenOdd();
    ghost var st0 := fed.Contents();
    PutByParity(fed, even, odd, 4, Some(ArbitraryThing(4)));
    PutThenGet(st0, 0, 4, Some(ArbitraryThing(4)));
    before := fed.Get(4);
    ghost var st1 := fed.Contents();
    fed.Clear();
    ClearEmptiesAll(st1, 4);
    assert fed.Contents() == ClearAll(st1);
    after, evenEntries := fed.Get(4), even.entries;
    assert fed.Contents()[0] == even.entries;
  }

  /** The `putIfAbsent` scenario: the second call finds the first value,
      returns it, and the composite keeps it. */
  method PutIfAbsentScenario(key: int) returns (second: Result<Option<ValueWrapper<ArbitraryThing>>>,
                                                got: Option<ValueWrapper<ArbitraryThing>>)
    ensures second == Ok(Some(ValueWrapper(Some(ArbitraryThing(0)))))
    ensures got == Some(ValueWrapper(Some(ArbitraryThing(0))))
  {
    var even, odd, fed := NewEvenOdd();
    WhichCacheByParity(fed, even, odd, key, Some(ArbitraryThing(0)));
    ghost var st0 := fed.Contents();
    var first := fed.PutIfAbsent(key, Some(ArbitraryThing(0)));
    PutIfAbsentKeepsFirst(st0, if key % 2 == 0 then 0 else 1, key, Some(ArbitraryThing(0)));
    second := fed.PutIfAbsent(key, Some(ArbitraryThing(1)));
    got := fed.Get(key);
  }

  /** The loader scenario: on a miss the loader's value is stored and
      returned; the next call returns it from the cache even with a loader
      that would throw. */
  method LoaderScenario() returns (first: Result<Option<ArbitraryThing>>, second: Result<Option<ArbitraryThing>>,
                                   got: Option<ValueWrapper<ArbitraryThing>>)
    ensures first == Ok(Some(ArbitraryThing(7))) && second == first
    ensures got == Some(ValueWrapper(Some(ArbitraryThing(7))))
  {
    var even, odd, fed := NewEvenOdd();
    WhichCacheByParity(fed, even, odd, 5, Some(ArbitraryThing(7)));
    ghost var st0 := fed.Contents();
    first := fed.GetWithLoader(5, () => Ok(Some(ArbitraryThing(7))));
    PutThenGet(st0, 1, 5, Some(ArbitraryThing(7)));
    second := fed.GetWithLoader(5, () => Err(Loader("not consulted")));
    got := fed.Get(5);
  }
}
