/**
 * The part of Spring's cache abstraction the service calls by hand: the key type
 * `SimpleKey` and one cache region with get, put and clear. The region's size and
 * expiry bounds belong to the cache library and are not modelled; a region is a
 * plain finite map from key to value.
 */
module SpringCache {
  import opened Wrappers

  /**
   * A key made of the call's arguments, compared element by element.
   * `new SimpleKey(brand)` is `SimpleKey([brand])`.
   */
  datatype SimpleKey = SimpleKey(elements: seq<string>)

  /** One named cache region, updated in place. */
  class Cache<V> {
    const name: string
    var entries: map<SimpleKey, V>

    constructor (name: string)
      ensures this.name == name && entries == map[]
    {
      this.name := name;
      entries := map[];
    }

    /** `cache.get(key)`: the stored value on a hit, nothing on a miss; no effect on the region. */
    method Get(key: SimpleKey) returns (hit: Option<V>)
      ensures hit.Some? <==> key in entries
      ensures hit.Some? ==> hit.value == entries[key]
    {
      hit := if key in entries then Some(entries[key]) else None;
    }

    /** `cache.put(key, value)`: inserts or overwrites the one entry for `key`. */
    method Put(key: SimpleKey, value: V)
      modifies this
      ensures entries == old(entries)[key := value]
    {
      entries := entries[key := value];
    }

    /** `cache.clear()`: removes every entry of the region. */
    method Clear()
      modifies this
      ensures entries == map[]
    {
      entries := map[];
    }
  }
}
