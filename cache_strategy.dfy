/** `CacheStrategy`: the policy that picks, for a key and an optional value,
    one of the eligible component caches, or abstains. */
module CacheStrategies {
  import opened CacheTypes

  /** `chooseCache(key, value, eligibleCaches): Cache?`. A strategy may throw,
      so its answer is a `Result`; `Ok(None)` is abstaining. A strategy is a
      total function of its arguments and so has no state. */
  type CacheStrategy<!K(==), !V> = (K, Option<V>, seq<MapCache<K, V>>) -> Result<Option<MapCache<K, V>>>

  /** `CacheStrategy.of(block, defaultCache)`: ask `block`, substitute
      `defaultCache` when it abstains. What `block` throws propagates. */
  function Of<K(==), V>(block: CacheStrategy<K, V>, defaultCache: Option<MapCache<K, V>>): CacheStrategy<K, V> {
    (k, v, eligibleCaches) =>
      match block(k, v, eligibleCaches)
      case Err(e) => Err(e)
      case Ok(chosen) => Ok(if chosen.Some? then chosen else defaultCache)
  }

  /** `of(block, d)` answers with `block`'s choice when it makes one, with `d`
      when `block` abstains, and with `block`'s exception when it throws; the
      arguments reach `block` unchanged. */
  lemma {:induction false} OfChoice<K, V>(block: CacheStrategy<K, V>, d: Option<MapCache<K, V>>, k: K, v: Option<V>, e: seq<MapCache<K, V>>)
    ensures block(k, v, e).Ok? && block(k, v, e).value.Some? ==> Of(block, d)(k, v, e) == block(k, v, e)
    ensures block(k, v, e) == Ok(None) ==> Of(block, d)(k, v, e) == Ok(d)
    ensures block(k, v, e).Err? ==> Of(block, d)(k, v, e) == block(k, v, e)
  {
  }

  /** With no default, `of(block)` is `block` itself, abstentions included. */
  lemma {:induction false} OfWithoutDefault<K, V>(block: CacheStrategy<K, V>, k: K, v: Option<V>, e: seq<MapCache<K, V>>)
    ensures Of(block, None)(k, v, e) == block(k, v, e)
  {
    match block(k, v, e)
    case Err(_) =>
    case Ok(chosen) =>
  }
}
