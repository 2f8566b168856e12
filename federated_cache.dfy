/** `FederatedCache`: one cache facade over a fixed set of component caches.
    Writes go to the one component a strategy picks, after the key has been
    evicted everywhere; reads return the first hit in fan-out order; evict and
    clear fan out to every cache. The read-write lock is not modelled: each
    operation is one atomic method. */
module Federated {
  import opened CacheTypes
  import opened FanOut
  import opened CacheStrategies
  import opened ConditionalCaches

  const CheckMessage := "The CacheStrategy must return one of the component caches"

  class FederatedCache<K(==), V> {
    const componentCaches: seq<MapCache<K, V>>
    const cacheStrategy: CacheStrategy<K, V>
    const defaultCache: MapCache<K, V>
    const federatedCacheName: Option<string>
    const nativeFederatedCache: Option<MapCache<K, V>>
    /** The fan-out list: components, then the native cache or the default,
        then the default, each cache once. */
    const allCaches: seq<MapCache<K, V>>

    ghost predicate Valid() {
      NoDuplicates(componentCaches) &&
      allCaches == AllCaches(componentCaches, nativeFederatedCache, defaultCache)
    }

    /** The primary constructor, every argument given. */
    constructor (componentCaches: seq<MapCache<K, V>>, cacheStrategy: CacheStrategy<K, V>,
                 defaultCache: MapCache<K, V>, federatedCacheName: Option<string>,
                 nativeFederatedCache: Option<MapCache<K, V>>)
      requires NoDuplicates(componentCaches)
      ensures Valid()
      ensures this.componentCaches == componentCaches && this.cacheStrategy == cacheStrategy
      ensures this.defaultCache == defaultCache && this.federatedCacheName == federatedCacheName
      ensures this.nativeFederatedCache == nativeFederatedCache
    {
      this.componentCaches := componentCaches;
      this.cacheStrategy := cacheStrategy;
      this.defaultCache := defaultCache;
      this.federatedCacheName := federatedCacheName;
      this.nativeFederatedCache := nativeFederatedCache;
      allCaches := AllCaches(componentCaches, nativeFederatedCache, defaultCache);
    }

    /** `FederatedCache(caches: Set<ConditionalCache>, defaultCache)`: the
        conditional strategy without a default of its own, the name of the
        default cache, and no native cache. */
    constructor OfConditional(caches: seq<MapCache<K, V>>, defaultCache: MapCache<K, V>)
      requires NoDuplicates(caches) && AllConditional(caches)
      ensures Valid()
      ensures componentCaches == caches && this.defaultCache == defaultCache
      ensures cacheStrategy == ConditionalCacheStrategy(None)
      ensures GetName() == defaultCache.name && nativeFederatedCache == None
    {
      componentCaches := caches;
      cacheStrategy := ConditionalCacheStrategy(None);
      this.defaultCache := defaultCache;
      federatedCacheName := defaultCache.name;
      nativeFederatedCache := None;
      allCaches := AllCaches(caches, None, defaultCache);
    }

    /** `getName()`: the name given at construction. */
    function GetName(): (r: Option<string>)
      ensures r == federatedCacheName
    {
      federatedCacheName
    }

    /** `getNativeCache()`: the configured native cache, or this composite. */
    function GetNativeCache(): (r: object)
      requires Valid()
      ensures r == this <==> nativeFederatedCache.None?
      ensures nativeFederatedCache.Some? ==> r == nativeFederatedCache.value
      ensures r != this ==> r in allCaches
    {
      if nativeFederatedCache.Some? then nativeFederatedCache.value else this
    }

    /** The entries of the caches on the fan-out list, in fan-out order. */
    function Contents(): (st: Stores<K, V>)
      reads allCaches
      ensures |st| == |allCaches|
      ensures forall i :: 0 <= i < |allCaches| ==> st[i] == allCaches[i].entries
    {
      seq(|allCaches|, i reads allCaches requires 0 <= i < |allCaches| => allCaches[i].entries)
    }

    /** The cache at position `i` of the fan-out list is the first to hold `k`. */
    ghost predicate FirstHolder(k: K, i: int)
      reads allCaches
    {
      0 <= i < |allCaches| && k in allCaches[i].entries &&
      forall j :: 0 <= j < i ==> k !in allCaches[j].entries
    }

    /** `get(key)`: the entry of the first cache in fan-out order that holds
        `k`, absent when none does. */
    function Get(k: K): (r: Option<ValueWrapper<V>>)
      reads allCaches
      ensures r.None? <==> forall i :: 0 <= i < |allCaches| ==> k !in allCaches[i].entries
      ensures forall i :: FirstHolder(k, i) ==> r == Some(ValueWrapper(allCaches[i].entries[k]))
    {
      var st := Contents();
      assert forall i :: FirstHolder(k, i) ==> Lookup(st, k) == Some(ValueWrapper(allCaches[i].entries[k])) by {
        forall i | FirstHolder(k, i)
          ensures Lookup(st, k) == Some(ValueWrapper(allCaches[i].entries[k]))
        {
          LookupFirstHit(st, k, i);
        }
      }
      Lookup(st, k)
    }

    /** `get(key, type)` without the cast: the value the first hit wraps;
        absent on a miss and when the stored value is null. */
    function GetValue(k: K): (r: Option<V>)
      reads allCaches
      ensures r.Some? <==> Get(k).Some? && Get(k).value.get.Some?
      ensures r.Some? ==> r == Get(k).value.get
    {
      match Get(k)
      case None => None
      case Some(w) => w.get
    }

    /** `whichCache(key, value)`: the strategy's choice among the components,
        the default cache when it abstains, and an `IllegalStateException`
        from `check` when the choice is not on the fan-out list. */
    function WhichCache(k: K, v: Option<V>): (r: Result<MapCache<K, V>>)
      requires Valid()
      ensures r.Ok? ==> r.value in allCaches
      ensures var s := cacheStrategy(k, v, componentCaches);
        && (s.Err? ==> r == Err(s.error))
        && (s == Ok(None) ==> r == Ok(defaultCache))
        && (s.Ok? && s.value.Some? ==>
              (r == Ok(s.value.value) <==> s.value.value in allCaches) &&
              (s.value.value !in allCaches ==> r == Err(IllegalState(CheckMessage))))
    {
      match cacheStrategy(k, v, componentCaches)
      case Err(e) => Err(e)
      case Ok(chosen) =>
        var cache := chosen.OrElse(defaultCache);
        if cache in allCaches then Ok(cache) else Err(IllegalState(CheckMessage))
    }

    /** `clear()`: every cache on the fan-out list is emptied. */
    method Clear()
      requires Valid()
      modifies allCaches
      ensures Contents() == ClearAll(old(Contents()))
    {
      assert NoDuplicates(allCaches);
      for i := 0 to |allCaches|
        invariant forall j :: 0 <= j < i ==> allCaches[j].entries == map[]
        invariant forall j :: i <= j < |allCaches| ==> allCaches[j].entries == old(allCaches[j].entries)
      {
        allCaches[i].Clear();
      }
    }

    /** `evict(key)`: `k` is removed from every cache on the fan-out list. */
    method Evict(k: K)
      requires Valid()
      modifies allCaches
      ensures Contents() == EvictAll(old(Contents()), k)
    {
      assert NoDuplicates(allCaches);
      for i := 0 to |allCaches|
        invariant forall j :: 0 <= j < i ==> allCaches[j].entries == old(allCaches[j].entries) - {k}
        invariant forall j :: i <= j < |allCaches| ==> allCaches[j].entries == old(allCaches[j].entries)
      {
        allCaches[i].Evict(k);
      }
    }

    /** `put(key, value)`: evict `k` everywhere, then write it into the cache
        `whichCache` picks. When `whichCache` throws, the evictions have
        already happened. */
    method Put(k: K, v: Option<V>) returns (r: Result<()>)
      requires Valid()
      modifies allCaches
      ensures WhichCache(k, v).Err? ==>
                r == Err(WhichCache(k, v).error) && Contents() == EvictAll(old(Contents()), k)
      ensures WhichCache(k, v).Ok? ==>
                r == Ok(()) && Contents() == PutAt(old(Contents()), IndexOf(allCaches, WhichCache(k, v).value), k, v)
    {
      Evict(k);
      ghost var evicted := Contents();
      var chosen := WhichCache(k, v);
      if chosen.Err? {
        return Err(chosen.error);
      }
      ghost var i := IndexOf(allCaches, chosen.value);
      assert NoDuplicates(allCaches);
      chosen.value.Put(k, v);
      r := Ok(());
      assert Contents() == evicted[i := evicted[i][k := v]];
    }

    /** `putIfAbsent(key, value)`: on a hit, return it and write nothing; on
        a miss, delegate to the chosen cache's own `putIfAbsent`, without
        evicting anything. */
    method PutIfAbsent(k: K, v: Option<V>) returns (r: Result<Option<ValueWrapper<V>>>)
      requires Valid()
      modifies allCaches
      ensures old(Get(k)).Some? ==> r == Ok(old(Get(k))) && Contents() == old(Contents())
      ensures old(Get(k)).None? && WhichCache(k, v).Err? ==>
                r == Err(WhichCache(k, v).error) && Contents() == old(Contents())
      ensures old(Get(k)).None? && WhichCache(k, v).Ok? ==>
                r == Ok(None) && Contents() == InsertAt(old(Contents()), IndexOf(allCaches, WhichCache(k, v).value), k, v)
    {
      var found := Get(k);
      if found.Some? {
        return Ok(found);
      }
      var chosen := WhichCache(k, v);
      if chosen.Err? {
        return Err(chosen.error);
      }
      ghost var i := IndexOf(allCaches, chosen.value);
      assert NoDuplicates(allCaches);
      var previous := chosen.value.PutIfAbsent(k, v);
      r := Ok(previous);
    }

    /** `get(key, valueLoader)`: a cached non-null value is returned and the
        loader is not consulted; otherwise the loader's value is stored with
        `put` and returned. A loader or `put` that throws makes the whole
        call throw. */
    method GetWithLoader(k: K, loader: () -> Result<Option<V>>) returns (r: Result<Option<V>>)
      requires Valid()
      modifies allCaches
      ensures old(GetValue(k)).Some? ==> r == Ok(old(GetValue(k))) && Contents() == old(Contents())
      ensures old(GetValue(k)).None? && loader().Err? ==> r == loader() && Contents() == old(Contents())
      ensures old(GetValue(k)).None? && loader().Ok? ==>
                var loaded := loader().value;
                && (WhichCache(k, loaded).Err? ==>
                      r == Err(WhichCache(k, loaded).error) && Contents() == EvictAll(old(Contents()), k))
                && (WhichCache(k, loaded).Ok? ==>
                      r == Ok(loaded) &&
                      Contents() == PutAt(old(Contents()), IndexOf(allCaches, WhichCache(k, loaded).value), k, loaded))
    {
      var cached := GetValue(k);
      if cached.Some? {
        return Ok(cached);
      }
      var loaded := loader();
      if loaded.Err? {
        return Err(loaded.error);
      }
      var stored := Put(k, loaded.value);
      if stored.Err? {
        return Err(stored.error);
      }
      r := Ok(loaded.value);
    }
  }
}
