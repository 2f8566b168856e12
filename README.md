# Federated cache, modelled in Dafny

This project models the composite ("federated") cache of `com.navelplace.spring.cache`, plus the collection-equivalence predicate `containsExactlyInAnyOrder` of `com.navelplace.collections`.

A `FederatedCache` is one Spring `Cache` facade over a fixed set of component caches:
- **Fan-out list.** The composite builds a deduplicated, ordered list (`allCaches`). It holds the components, then the native cache (or the default when there is none), then the default cache.
- **`put`.** The key is evicted from every cache on the list. It is then written into the one cache that a `CacheStrategy` picks. The pick is checked to be on the list.
- **`get`.** Returns the first hit in fan-out order.
- **`evict` and `clear`.** Fan out to every cache.
- **`putIfAbsent` and `get(key, loader)`.** Built from the operations above.

`ConditionalCacheStrategy` picks the first eligible cache whose `accepts(key, value)` holds. `CacheStrategy.of` wraps a selector function and falls back to a default cache.

The modules:
- **`CacheTypes`** (`cache_types.dfy`) holds the types the other modules share. It models no single source file:
  - `Option` for Kotlin nullables.
  - `ValueWrapper` for Spring's value wrapper.
  - `Error` and `Result` for the exceptions the core throws (`require`, `check`, `first { }`, a failing loader).
  - `MapCache`, the component cache. It is a class holding a mutable `map<K, Option<V>>`. A stored value may be null, which is `None`. The optional `accepts` predicate is present exactly when the cache is a `ConditionalCache`.
- **`FanOut`** (`fan_out.dfy`) models the value side of `FederatedCache.kt`: the fan-out list and the contents of its caches, seen as values (one map per cache, in fan-out order):
  - One pure function per operation (`Lookup`, `EvictAll`, `ClearAll`, `PutAt`, `InsertAt`).
  - The lemmas that relate them.
- **`CacheStrategies`** (`cache_strategy.dfy`) models `CacheStrategy.kt`: the strategy type and the `Of` combinator.
- **`ConditionalCaches`** (`conditional_cache.dfy`) models `ConditionalCache.kt`: `ConditionalCacheStrategy`.
- **`Federated`** (`federated_cache.dfy`) models the state side of `FederatedCache.kt`: the `FederatedCache` class.
  - The component caches are shared objects.
  - `Clear` and `Evict` loop over the fan-out list and change each cache in place.
  - `Put`, `PutIfAbsent` and `GetWithLoader` are methods. Each one's `ensures` states the new contents as a `FanOut` function of the old contents.
  - `Get`, `GetValue` and `WhichCache` are functions of the current state.
- **`CollectionUtils`** (`collection_utils.dfy`) models `CollectionUtils.kt`: `containsExactlyInAnyOrder` and its array overloads.
- **`EvenOddCaches`** (`even_odd_caches.dfy`) models the even/odd conditional caches of the test `FederatedCacheTest.kt`:
  - Their `accepts` predicates, written with Kotlin's truncating `%`. The odd predicate is there both as written (`OddNumberAcceptsAsWritten`) and corrected (`OddNumberAccepts`); see "## Findings".
  - Client methods that take the composite through the steps of the test suite and state what the tests observe. They build the odd cache with the corrected predicate (`NewEvenOdd`, `WhichCacheByParity` and every scenario run on it). The scenarios use fixed non-negative keys where the tests draw random ones, except `PutIfAbsentScenario`, which holds for every key, negative odd keys included (on the corrected cache); and on non-negative keys the two predicates agree (`OddPredicatesAgree`). Routing with the predicate as written, negative keys included, is `AsWrittenRouting`.

The fan-out order is built at `FederatedCache.kt:18` as `componentCaches + setOf(nativeFederatedCache ?: defaultCache, defaultCache)`: the components, then the native cache (or the default when there is none), then the default (`FanOut.AllCaches`, `FanOut.AllCachesWithNative`).

## Model

| member | source | states |
|---|---|---|
| FanOut.AddAll | src/main/kotlin/com/navelplace/spring/cache/FederatedCache.kt:18 | set union keeps the receiver as a prefix, contains exactly the elements of both sides, and has no duplicates when the receiver has none |
| FanOut.AllCaches | src/main/kotlin/com/navelplace/spring/cache/FederatedCache.kt:18 | the fan-out list starts with the components, holds exactly the components, the default and the native cache, and holds each cache once |
| FanOut.AllCachesWithNative | src/main/kotlin/com/navelplace/spring/cache/FederatedCache.kt:18 | with a native cache distinct from the default and neither among the components, the order is components, native, default |
| FanOut.AllCachesWithoutNative | src/main/kotlin/com/navelplace/spring/cache/FederatedCache.kt:18 | without a native cache the default is appended once, and not at all when it is a component |
| FanOut.Lookup | src/main/kotlin/com/navelplace/spring/cache/FederatedCache.kt:55-57 | get is absent exactly when no cache on the fan-out list holds the key |
| FanOut.LookupFirstHit | src/main/kotlin/com/navelplace/spring/cache/FederatedCache.kt:55-57 | get returns the entry of the first cache, in fan-out order, that holds the key |
| FanOut.PutAt | src/main/kotlin/com/navelplace/spring/cache/FederatedCache.kt:50-53 | after put only the chosen cache holds the key, with the new value, and every entry for other keys is unchanged |
| FanOut.PutThenGet | src/main/kotlin/com/navelplace/spring/cache/FederatedCache.kt:50-57 | after put(k, v), get(k) returns v |
| FanOut.PutKeepsOtherKeys | src/main/kotlin/com/navelplace/spring/cache/FederatedCache.kt:50-53 | put(k, v) leaves get of every other key as it was |
| FanOut.EvictAll | src/main/kotlin/com/navelplace/spring/cache/FederatedCache.kt:73-75 | evict(k) removes k from every cache on the fan-out list and leaves every other entry as it was |
| FanOut.EvictRemovesKey | src/main/kotlin/com/navelplace/spring/cache/FederatedCache.kt:73-75 | after evict(k) no cache holds k and get(k) is absent |
| FanOut.EvictKeepsOtherKeys | src/main/kotlin/com/navelplace/spring/cache/FederatedCache.kt:73-75 | evict(k) leaves get of every other key as it was |
| FanOut.ClearAll | src/main/kotlin/com/navelplace/spring/cache/FederatedCache.kt:26-28 | clear empties every cache on the fan-out list |
| FanOut.ClearEmptiesAll | src/main/kotlin/com/navelplace/spring/cache/FederatedCache.kt:26-28 | after clear no key is found, and clearing twice is clearing once |
| FanOut.InsertAt | src/main/kotlin/com/navelplace/spring/cache/FederatedCache.kt:79 | the chosen cache's own putIfAbsent on a miss adds the entry to that cache and touches no other cache |
| FanOut.InsertOnMissIsPut | src/main/kotlin/com/navelplace/spring/cache/FederatedCache.kt:77-80 | on a miss, putIfAbsent without eviction has the same effect as put |
| FanOut.PutIfAbsentKeepsFirst | src/main/kotlin/com/navelplace/spring/cache/FederatedCache.kt:77-80 | after putIfAbsent(k, v1) on a miss, get(k) is v1, so a later putIfAbsent(k, v2) finds v1 and writes nothing |
| CacheStrategies.Of | src/main/kotlin/com/navelplace/spring/cache/CacheStrategy.kt:15-22 | no contract of its own (a strategy value, whose answers Dafny cannot quantify over in a contract); OfChoice and OfWithoutDefault state its answer at every argument |
| CacheStrategies.OfChoice | src/main/kotlin/com/navelplace/spring/cache/CacheStrategy.kt:15-22 | of(block, d) returns block's choice when it chooses, d when it abstains, and block's exception when it throws |
| CacheStrategies.OfWithoutDefault | src/main/kotlin/com/navelplace/spring/cache/CacheStrategy.kt:15-19 | with no default, of(block) answers exactly as block, abstentions included |
| ConditionalCaches.AllConditional | src/main/kotlin/com/navelplace/spring/cache/ConditionalCache.kt:25 | holds exactly when every eligible cache is a ConditionalCache, and on the empty set |
| ConditionalCaches.Accepts | src/main/kotlin/com/navelplace/spring/cache/ConditionalCache.kt:12 | forwarding helper: calls the cache's own `accepts(key, value)`, defined only for a conditional cache |
| ConditionalCaches.FirstAccepting | src/main/kotlin/com/navelplace/spring/cache/ConditionalCache.kt:26-27 | the cache found accepts the entry and is eligible; nothing is found exactly when no eligible cache accepts |
| ConditionalCaches.FirstAcceptingIsFirst | src/main/kotlin/com/navelplace/spring/cache/ConditionalCache.kt:26-27 | the cache found is the first accepting one in iteration order |
| ConditionalCaches.FirstFallback | src/main/kotlin/com/navelplace/spring/cache/ConditionalCache.kt:28 | the fallback is an eligible cache, or NoSuchElementException |
| ConditionalCaches.FallbackWithoutDefault | src/main/kotlin/com/navelplace/spring/cache/ConditionalCache.kt:28 | with no default the fallback is the first eligible cache, and it fails only on an empty set |
| ConditionalCaches.FallbackWithDefault | src/main/kotlin/com/navelplace/spring/cache/ConditionalCache.kt:28 | with a default the fallback is that default when it is eligible, and NoSuchElementException otherwise |
| ConditionalCaches.ChooseConditional | src/main/kotlin/com/navelplace/spring/cache/ConditionalCache.kt:24-29 | throws IllegalArgumentException exactly when an eligible cache is not conditional; whenever it returns, the result is non-null and eligible; an empty eligible set always throws; every other failure is NoSuchElementException |
| ConditionalCaches.ChooseFirstAccepting | src/main/kotlin/com/navelplace/spring/cache/ConditionalCache.kt:26-27 | the strategy returns the first eligible cache that accepts the entry |
| ConditionalCaches.ChooseWhenNoneAccepts | src/main/kotlin/com/navelplace/spring/cache/ConditionalCache.kt:28 | when nothing accepts it returns the first eligible cache (no default), the default (eligible default), or throws (default not eligible) |
| ConditionalCaches.ConditionalCacheStrategy | src/main/kotlin/com/navelplace/spring/cache/ConditionalCache.kt:22-29 | no contract of its own (a strategy value); every answer is ChooseConditional's, whose contract states it |
| Federated.FederatedCache.constructor | src/main/kotlin/com/navelplace/spring/cache/FederatedCache.kt:10-18 | keeps its collaborators and builds the deduplicated fan-out list |
| Federated.FederatedCache.OfConditional | src/main/kotlin/com/navelplace/spring/cache/FederatedCache.kt:15 | conditional strategy without its own default, name of the default cache, no native cache |
| Federated.FederatedCache.GetName | src/main/kotlin/com/navelplace/spring/cache/FederatedCache.kt:23 | the name given at construction; for OfConditional that is the default cache's name |
| Federated.FederatedCache.GetNativeCache | src/main/kotlin/com/navelplace/spring/cache/FederatedCache.kt:24 | the configured native cache, or the composite itself when none is configured; the native cache is on the fan-out list |
| Federated.FederatedCache.Get | src/main/kotlin/com/navelplace/spring/cache/FederatedCache.kt:55-57 | absent exactly when no cache on the fan-out list holds the key; otherwise the entry of the first cache that holds it |
| Federated.FederatedCache.GetValue | src/main/kotlin/com/navelplace/spring/cache/FederatedCache.kt:59-62 | the value wrapped by the first hit; absent on a miss and when a null is stored |
| Federated.FederatedCache.WhichCache | src/main/kotlin/com/navelplace/spring/cache/FederatedCache.kt:30-38 | any cache it returns is on the fan-out list; an abstaining strategy gives the default cache; a choice off the list is IllegalStateException; a strategy exception propagates |
| Federated.FederatedCache.Clear | src/main/kotlin/com/navelplace/spring/cache/FederatedCache.kt:26-28 | every cache on the fan-out list is empty afterwards |
| Federated.FederatedCache.Evict | src/main/kotlin/com/navelplace/spring/cache/FederatedCache.kt:73-75 | the key is removed from every cache on the fan-out list and nothing else changes |
| Federated.FederatedCache.Put | src/main/kotlin/com/navelplace/spring/cache/FederatedCache.kt:50-53 | new contents are PutAt of the old at the chosen cache; when whichCache throws, the key has still been evicted everywhere |
| Federated.FederatedCache.PutIfAbsent | src/main/kotlin/com/navelplace/spring/cache/FederatedCache.kt:77-80 | a hit is returned and nothing is written; on a miss only the chosen cache gains the entry, with no eviction, and null is returned; when whichCache throws nothing changes |
| Federated.FederatedCache.GetWithLoader | src/main/kotlin/com/navelplace/spring/cache/FederatedCache.kt:64-71 | a cached non-null value is returned with the state unchanged; otherwise the loader's value is put and returned; a loader or put failure propagates |
| CollectionUtils.ContainsExactlyInAnyOrder | src/main/kotlin/com/navelplace/collections/CollectionUtils.kt:59-68 | true exactly when both are non-null, of the same size, and each contains all elements of the other |
| CollectionUtils.NullOrSizeMismatch | src/main/kotlin/com/navelplace/collections/CollectionUtils.kt:60-63 | a null side or different sizes give false |
| CollectionUtils.Reflexive | src/test/kotlin/com/navelplace/collections/CollectionUtilsTest.kt:18-19 | every non-null collection matches itself |
| CollectionUtils.Symmetric | src/test/kotlin/com/navelplace/collections/CollectionUtilsTest.kt:16-17 | swapping the two sides does not change the answer |
| CollectionUtils.PermutationMatches | src/test/kotlin/com/navelplace/collections/CollectionUtilsTest.kt:11-14 | a permutation matches the original |
| CollectionUtils.MultiplicitiesIgnored | src/main/kotlin/com/navelplace/collections/CollectionUtils.kt:59-68 | [1, 1, 2] matches [1, 2, 2] although they are not permutations: only sizes and element sets are compared |
| CollectionUtils.ArraysContainExactlyInAnyOrder | src/main/kotlin/com/navelplace/collections/CollectionUtils.kt:82-84 | two arrays match exactly when both are non-null, of the same length, and each holds every element of the other |
| CollectionUtils.IterableArrayContainExactlyInAnyOrder | src/main/kotlin/com/navelplace/collections/CollectionUtils.kt:74-76 | the same comparison between an iterable's contents and an array's |
| CollectionUtils.ArrayIterableContainExactlyInAnyOrder | src/main/kotlin/com/navelplace/collections/CollectionUtils.kt:78-80 | the same comparison between an array's contents and an iterable's |
| CollectionUtils.ArrayPermutationMatches | src/test/kotlin/com/navelplace/collections/CollectionUtilsTest.kt:23 | an array matches any reordering of itself |
| EvenOddCaches.KotlinRem2 | src/test/kotlin/com/navelplace/spring/cache/FederatedCacheTest.kt:17 | Kotlin's key % 2 is the remainder of the absolute value, with the sign of the key; zero exactly for even keys |
| EvenOddCaches.EvenNumberAccepts | src/test/kotlin/com/navelplace/spring/cache/FederatedCacheTest.kt:15-19 | the even cache accepts exactly the even keys, negative ones included |
| EvenOddCaches.OddNumberAcceptsAsWritten | src/test/kotlin/com/navelplace/spring/cache/FederatedCacheTest.kt:21-25 | the odd cache as written accepts exactly the positive odd keys |
| EvenOddCaches.OddNumberAccepts | src/test/kotlin/com/navelplace/spring/cache/FederatedCacheTest.kt:21-25 | the corrected odd cache accepts exactly the odd keys |
| EvenOddCaches.OddPredicatesAgree | src/test/kotlin/com/navelplace/spring/cache/FederatedCacheTest.kt:21-25 | the corrected and the as-written odd predicates differ exactly on the negative odd keys |
| EvenOddCaches.NegativeOddKeysRejected | src/test/kotlin/com/navelplace/spring/cache/FederatedCacheTest.kt:21-25 | as written, neither test cache accepts a negative odd key |
| EvenOddCaches.AsWrittenRoutesMinusThreeToEven | src/test/kotlin/com/navelplace/spring/cache/FederatedCacheTest.kt:21-25 | as written, the conditional strategy sends key -3 to the even cache |
| EvenOddCaches.AsWrittenRouting | src/test/kotlin/com/navelplace/spring/cache/FederatedCacheTest.kt:15-25 | with the caches as written, positive odd keys go to the odd cache and every other key to the even cache |
| EvenOddCaches.EvenOddPartition | src/test/kotlin/com/navelplace/spring/cache/FederatedCacheTest.kt:15-25 | with the intended odd predicate, exactly one of the two caches accepts each key |
| EvenOddCaches.EvenOddRouting | src/test/kotlin/com/navelplace/spring/cache/FederatedCacheTest.kt:15-25 | even keys are routed to the even cache and odd keys to the odd cache |
| EvenOddCaches.WhichCacheByParity | src/test/kotlin/com/navelplace/spring/cache/FederatedCacheTest.kt:53 | in FederatedCache(even, odd) with the corrected odd cache, whichCache picks the even or the odd cache by parity; for the non-negative keys the tests use this is also the routing as written (OddPredicatesAgree, AsWrittenRouting) |
| EvenOddCaches.NewEvenOdd | src/test/kotlin/com/navelplace/spring/cache/FederatedCacheTest.kt:53 | two fresh empty test caches (odd one corrected) and FederatedCache(even, odd) over them, with the even cache as default |
| EvenOddCaches.PutByParity | src/test/kotlin/com/navelplace/spring/cache/FederatedCacheTest.kt:43-45 | the test's `cacheThing` put on FederatedCache(even, odd) with the corrected odd cache: the new contents are PutAt of the old at the even cache for even keys and the odd cache for odd keys |
| EvenOddCaches.TwoPutsStores | src/test/kotlin/com/navelplace/spring/cache/FederatedCacheTest.kt:58-61 | putting 1 into the odd cache and then 2 into the even cache leaves each key in its own cache only |
| EvenOddCaches.VanillaScenario | src/test/kotlin/com/navelplace/spring/cache/FederatedCacheTest.kt:56-68 | after put(1) and put(2) each cache holds exactly its key, the composite finds both, and an unknown key is absent |
| EvenOddCaches.EvictScenario | src/test/kotlin/com/navelplace/spring/cache/FederatedCacheTest.kt:71-79 | after evict(2) the even cache lacks 2, get(2) is absent, and 3 is still found |
| EvenOddCaches.ClearScenario | src/test/kotlin/com/navelplace/spring/cache/FederatedCacheTest.kt:82-89 | the stored entry is found before clear, and after clear the composite and the even cache are empty |
| EvenOddCaches.PutIfAbsentScenario | src/test/kotlin/com/navelplace/spring/cache/FederatedCacheTest.kt:131-137 | the second putIfAbsent returns the first value and the composite keeps it |
| EvenOddCaches.LoaderScenario | src/test/kotlin/com/navelplace/spring/cache/FederatedCacheTest.kt:122-129 | a miss stores and returns the loaded value; the next call returns it from the cache even with a failing loader |

## Left out

- The `ReentrantReadWriteLock`, the `lock` accessor and the threaded lock tests. Concurrency is not modelled: each operation is one atomic method. So the claim that a reader never sees half of a `put` holds trivially.
- `get(key, type)` unchecked cast: `GetValue` returns the value with its generic type. There is no cast, and no wrong-type case.
- `CacheStrategy`s that read cache contents or keep state are not modelled. A strategy is a total function of the key, the value and the eligible list. It therefore cannot observe that `put` evicts before it asks the strategy.
- `Federated.FederatedCache.GetWithLoader`: the loader is a function value that returns a value or an exception. The model does not state that the loader is not called on a hit. It states that the result and the state do not depend on the loader then.
- Component caches are the abstract `MapCache`, not Spring's `ConcurrentMapCache`. A component cannot itself be a `FederatedCache`, and neither can the native cache.
- Default constructor arguments are passed by the caller:
  - `componentCaches.first()` for the default cache. On an empty set this throws at construction, and the model has no such case.
  - `defaultCache.name` for the primary constructor's name.
  - `ConditionalCacheStrategy()` for the strategy and `null` for the native cache, in the primary constructor.
  - The vararg constructor is `OfConditional(caches, caches[0])`.
- FanOut.AddAll: does not state the order among the elements it adds after the receiver's, only that the receiver stays a prefix. For the fan-out list that order is fixed by `FanOut.AllCachesWithNative` and `FanOut.AllCachesWithoutNative`.
- The scenarios' random keys (`Random().nextInt()`, `randomDigit()`) are replaced by fixed keys, except in `EvenOddCaches.PutIfAbsentScenario`, which holds for every key.
- Kotlin's `Cache by delegate` in the test caches. Only their `accepts` predicates are kept.
- Keys are unbounded integers. Kotlin's 32-bit `Int` does not change `% 2`.
- The `Iterable`–`Iterable` overload of `containsExactlyInAnyOrder`, and the `@JvmStatic` forwarders in the `CollectionUtils` object. An iterable and a collection are both sequences in this model, so these are `CollectionUtils.ContainsExactlyInAnyOrder` itself.
- Collection elements are compared with Dafny equality. Java's `equals` across boxed types (`1` against `1L` in the tests) is not modelled.
- `QueryParamMatcher` (query-string parsing by Spring's `UriComponentsBuilder`), `describeTo` and `toString`. The test data generation (Faker, `Random`, `UUID`) and the Java interop test.

## Findings

| source | as written | input that shows it | evidently intended | confidence | as-written member | corrected member |
|---|---|---|---|---|---|---|
| src/test/kotlin/com/navelplace/spring/cache/FederatedCacheTest.kt:21-25 | `OddNumberCache.accepts` is `key % 2 == 1`; Kotlin's `%` truncates, so a negative odd key has remainder -1 | key -3: neither test cache accepts it, and the conditional strategy falls back to the even cache (`testEvict` draws random, possibly negative, keys) | accept every odd key, `key % 2 != 0` | not executed; follows from Kotlin's documented remainder semantics | EvenOddCaches.AsWrittenRoutesMinusThreeToEven | EvenOddCaches.EvenOddRouting |
