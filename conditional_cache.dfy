/** `ConditionalCache` and `ConditionalCacheStrategy`: route an entry to the
    first eligible cache that accepts it. */
module ConditionalCaches {
  import opened CacheTypes
  import opened CacheStrategies

  const RequireMessage := "Can only apply ConditionalCacheStrategy to ConditionalCaches"
  /** The message of Kotlin's `first { }` when nothing matches. */
  const NoMatchMessage := "Collection contains no element matching the predicate."

  /** `eligibleCaches.all { it is ConditionalCache }`: every cache, at every
      position, is a `ConditionalCache`; the empty set qualifies. */
  predicate AllConditional<K(==), V>(caches: seq<MapCache<K, V>>): (r: bool)
    ensures r <==> forall i :: 0 <= i < |caches| ==> caches[i].accepts.Some?
    ensures caches == [] ==> r
  {
    forall c :: c in caches ==> c.accepts.Some?
  }

  /** `ConditionalCache.accepts(key, value)`. */
  predicate Accepts<K(==), V>(c: MapCache<K, V>, k: K, v: Option<V>)
    requires c.accepts.Some?
  {
    c.accepts.value(k, v)
  }

  /** `firstOrNull { cache -> cache.accepts(key, value) }`. */
  function FirstAccepting<K(==), V>(caches: seq<MapCache<K, V>>, k: K, v: Option<V>): (r: Option<MapCache<K, V>>)
    requires AllConditional(caches)
    ensures r.Some? ==> r.value in caches && Accepts(r.value, k, v)
    ensures r.None? <==> forall i :: 0 <= i < |caches| ==> !Accepts(caches[i], k, v)
  {
    if caches == [] then None
    else if Accepts(caches[0], k, v) then Some(caches[0])
    else FirstAccepting(caches[1..], k, v)
  }

  /** The cache `FirstAccepting` picks is the first, in iteration order, that accepts. */
  lemma {:induction false} FirstAcceptingIsFirst<K, V>(caches: seq<MapCache<K, V>>, k: K, v: Option<V>, i: nat)
    requires AllConditional(caches) && i < |caches| && Accepts(caches[i], k, v)
    requires forall j :: 0 <= j < i ==> !Accepts(caches[j], k, v)
    ensures FirstAccepting(caches, k, v) == Some(caches[i])
  {
    if i > 0 {
      assert !Accepts(caches[0], k, v);
      FirstAcceptingIsFirst(caches[1..], k, v, i - 1);
    }
  }

  /** `first { it == defaultCache ?: it }`: the first cache equal to the
      default, or simply the first cache when there is no default. */
  function FirstFallback<K(==), V>(caches: seq<MapCache<K, V>>, defaultCache: Option<MapCache<K, V>>): (r: Result<MapCache<K, V>>)
    ensures r.Ok? ==> r.value in caches
    ensures r.Err? ==> r == Err(NoSuchElement(NoMatchMessage))
  {
    if caches == [] then Err(NoSuchElement(NoMatchMessage))
    else if caches[0] == defaultCache.OrElse(caches[0]) then Ok(caches[0])
    else FirstFallback(caches[1..], defaultCache)
  }

  /** With no default the fallback is the first cache, and fails only on an empty set. */
  lemma FallbackWithoutDefault<K, V>(caches: seq<MapCache<K, V>>)
    ensures FirstFallback(caches, None) == if caches == [] then Err(NoSuchElement(NoMatchMessage)) else Ok(caches[0])
  {
  }

  /** With a default the fallback is that default when it is one of the
      caches, and fails otherwise. */
  lemma {:induction false} FallbackWithDefault<K, V>(caches: seq<MapCache<K, V>>, d: MapCache<K, V>)
    ensures FirstFallback(caches, Some(d)) == if d in caches then Ok(d) else Err(NoSuchElement(NoMatchMessage))
  {
    if caches != [] && caches[0] != d {
      FallbackWithDefault(caches[1..], d);
    }
  }

  /** `ConditionalCacheStrategy(defaultCache).chooseCache(key, value, eligibleCaches)`.
      Whenever it returns, it returns one of the eligible caches. It throws
      exactly when some eligible cache is not conditional (`require`), or when
      no cache accepts and the fallback `first { }` finds nothing. */
  function ChooseConditional<K(==), V>(defaultCache: Option<MapCache<K, V>>, k: K, v: Option<V>,
                                       eligibleCaches: seq<MapCache<K, V>>): (r: Result<Option<MapCache<K, V>>>)
    ensures !AllConditional(eligibleCaches) <==> r == Err(IllegalArgument(RequireMessage))
    ensures r.Ok? ==> r.value.Some? && r.value.value in eligibleCaches
    ensures eligibleCaches == [] ==> r.Err?
    ensures r.Err? && AllConditional(eligibleCaches) ==> r == Err(NoSuchElement(NoMatchMessage))
  {
    if !AllConditional(eligibleCaches) then Err(IllegalArgument(RequireMessage))
    else match FirstAccepting(eligibleCaches, k, v)
      case Some(c) => Ok(Some(c))
      case None =>
        match FirstFallback(eligibleCaches, defaultCache)
        case Ok(c) => Ok(Some(c))
        case Err(e) => Err(e)
  }

  /** The strategy picks the first eligible cache, in iteration order, that accepts the entry. */
  lemma ChooseFirstAccepting<K, V>(defaultCache: Option<MapCache<K, V>>, k: K, v: Option<V>,
                                       eligibleCaches: seq<MapCache<K, V>>, i: nat)
    requires AllConditional(eligibleCaches) && i < |eligibleCaches| && Accepts(eligibleCaches[i], k, v)
    requires forall j :: 0 <= j < i ==> !Accepts(eligibleCaches[j], k, v)
    ensures ChooseConditional(defaultCache, k, v, eligibleCaches) == Ok(Some(eligibleCaches[i]))
  {
    FirstAcceptingIsFirst(eligibleCaches, k, v, i);
  }

  /** When no eligible cache accepts: with no default the first eligible cache
      is chosen; with a default, that default when it is eligible; otherwise
      `first { }` throws. */
  lemma ChooseWhenNoneAccepts<K, V>(defaultCache: Option<MapCache<K, V>>, k: K, v: Option<V>,
                                        eligibleCaches: seq<MapCache<K, V>>)
    requires AllConditional(eligibleCaches)
    requires forall i :: 0 <= i < |eligibleCaches| ==> !Accepts(eligibleCaches[i], k, v)
    ensures defaultCache.None? && eligibleCaches != [] ==>
              ChooseConditional(defaultCache, k, v, eligibleCaches) == Ok(Some(eligibleCaches[0]))
    ensures defaultCache.Some? && defaultCache.value in eligibleCaches ==>
              ChooseConditional(defaultCache, k, v, eligibleCaches) == Ok(defaultCache)
    ensures defaultCache.Some? && defaultCache.value !in eligibleCaches ==>
              ChooseConditional(defaultCache, k, v, eligibleCaches) == Err(NoSuchElement(NoMatchMessage))
  {
    if defaultCache.Some? {
      FallbackWithDefault(eligibleCaches, defaultCache.value);
    }
  }

  /** `ConditionalCacheStrategy(defaultCache)` as a strategy value. */
  function ConditionalCacheStrategy<K(==), V>(defaultCache: Option<MapCache<K, V>>): CacheStrategy<K, V> {
    (k, v, eligibleCaches) => ChooseConditional(defaultCache, k, v, eligibleCaches)
  }
}
