/**
 * The look-up cache shared in shape by `src/content/api.js` and the legacy
 * `content.js`: a map from the looked-up text to the word information and
 * the time (milliseconds, the value `Date.now()` returned) it was stored.
 * An entry is served for 24 hours and only while caching is enabled.
 */
module WordCache {
  import opened Wrappers

  /** `24 * 60 * 60 * 1000`. */
  const Duration: int := 24 * 60 * 60 * 1000

  datatype Entry<T> = Entry(data: T, timestamp: int)

  /**
   * The cache check of `loadWordInfo`: the stored data when caching is
   * enabled, the key is present and less than 24 hours have passed.
   */
  function Fresh<T>(cache: map<string, Entry<T>>, key: string, now: int, enabled: bool): (r: Option<T>)
    ensures r.Some? <==> enabled && key in cache && now - cache[key].timestamp < Duration
    ensures r.Some? ==> r.value == cache[key].data
  {
    if enabled && key in cache && now - cache[key].timestamp < Duration then Some(cache[key].data) else None
  }

  /** The cache write of `loadWordInfo`: stamp the data with `now` when caching is enabled. */
  function Store<T>(cache: map<string, Entry<T>>, key: string, data: T, now: int, enabled: bool): (r: map<string, Entry<T>>)
    ensures !enabled ==> r == cache
    ensures enabled ==> r.Keys == cache.Keys + {key} && r[key] == Entry(data, now)
    ensures forall k :: k in cache && k != key ==> k in r && r[k] == cache[k]
  {
    if enabled then cache[key := Entry(data, now)] else cache
  }

  /** What was stored is served back for the next 24 hours while caching stays enabled. */
  lemma StoreThenFresh<T>(cache: map<string, Entry<T>>, key: string, data: T, now: int, later: int)
    requires now <= later < now + Duration
    ensures Fresh(Store(cache, key, data, now, true), key, later, true) == Some(data)
  {
  }

  /** From 24 hours after it was stored an entry is never served. */
  lemma ExpiredNeverServed<T>(cache: map<string, Entry<T>>, key: string, now: int)
    requires key in cache && now >= cache[key].timestamp + Duration
    ensures Fresh(cache, key, now, true).None?
  {
  }

  /** Storing under one key does not change what another key serves. */
  lemma StoreOtherKey<T>(cache: map<string, Entry<T>>, key: string, other: string, data: T, now: int, later: int, enabled: bool)
    requires other != key
    ensures Fresh(Store(cache, key, data, now, enabled), other, later, enabled) == Fresh(cache, other, later, enabled)
  {
  }
}
