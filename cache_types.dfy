/** Values shared by the whole model: Kotlin nullables, Spring's value wrapper,
    the exceptions the core throws, and the component cache itself. */
module CacheTypes {

  /** A Kotlin nullable `T?`: `None` is `null`. */
  datatype Option<+T> = None | Some(value: T)
  {
    /** Kotlin's elvis operator `this ?: other`. */
    function OrElse(other: T): T {
      if Some? then value else other
    }
  }

  /** Spring's `Cache.ValueWrapper`: a cache hit whose wrapped value may itself be null. */
  datatype ValueWrapper<+V> = ValueWrapper(get: Option<V>)

  /** The exceptions the core raises: `require` (IllegalArgumentException),
      `check` (IllegalStateException) and `first { }` (NoSuchElementException).
      `Loader` stands for whatever a user-supplied value loader throws. */
  datatype Error =
    | IllegalArgument(message: string)
    | IllegalState(message: string)
    | NoSuchElement(message: string)
    | Loader(message: string)

  /** A computation that either returns a value or throws. */
  datatype Result<+T> = Ok(value: T) | Err(error: Error)

  /** The component cache contract that the composite consumes: a key-value
      store with get/put/evict/clear/putIfAbsent and a name. `accepts` is
      `Some` exactly when the cache is also a `ConditionalCache`, and then it
      is that cache's `accepts(key, value)` predicate. */
  class MapCache<K(==), V> {
    const name: Option<string>
    const accepts: Option<(K, Option<V>) -> bool>
    var entries: map<K, Option<V>>

    constructor (name: Option<string>, accepts: Option<(K, Option<V>) -> bool>)
      ensures this.name == name && this.accepts == accepts
      ensures entries == map[]
    {
      this.name := name;
      this.accepts := accepts;
      entries := map[];
    }

    /** `Cache.put(key, value)`. */
    method Put(k: K, v: Option<V>)
      modifies this
      ensures entries == old(entries)[k := v]
    {
      entries := entries[k := v];
    }

    /** `Cache.evict(key)`. */
    method Evict(k: K)
      modifies this
      ensures entries == old(entries) - {k}
    {
      entries := entries - {k};
    }

    /** `Cache.clear()`. */
    method Clear()
      modifies this
      ensures entries == map[]
    {
      entries := map[];
    }

    /** `Cache.putIfAbsent(key, value)`: returns the existing entry, if any,
        and stores `v` only when there was none. */
    method PutIfAbsent(k: K, v: Option<V>) returns (r: Option<ValueWrapper<V>>)
      modifies this
      ensures k in old(entries) ==> r == Some(ValueWrapper(old(entries)[k])) && entries == old(entries)
      ensures k !in old(entries) ==> r == None && entries == old(entries)[k := v]
    {
      if k in entries {
        r := Some(ValueWrapper(entries[k]));
      } else {
        r := None;
        entries := entries[k := v];
      }
    }
  }
}
