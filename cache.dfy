/** The in-memory cache with lazy expiry (`Cache` in src/hooks/useCache.ts) and the cache-or-fetch
    wrapper `useCachedAPI`. The clock is a parameter: `now` is a reading in milliseconds. */
module TtlCache {
  import opened Wrappers

  /** Time to live, in seconds, when the caller gives none (`set` and `setCachedData`). */
  const DefaultTtlSeconds: int := 300

  /** A stored value, the time it was stored and its time to live in milliseconds. */
  datatype Entry<V> = Entry(data: V, timestamp: int, ttl: int)

  /** Expiry is strict: an entry is still served when exactly `ttl` milliseconds have passed. */
  predicate Expired<V>(e: Entry<V>, now: int) {
    now - e.timestamp > e.ttl
  }

  /** What `get(key)` answers at time `now`; `None` stands for `null`. */
  function Lookup<V>(storage: map<string, Entry<V>>, key: string, now: int): Option<V> {
    if key in storage && !Expired(storage[key], now) then Some(storage[key].data) else None
  }

  /** The store after `get(key)` at time `now`: an expired entry for `key` is deleted. */
  function Evict<V>(storage: map<string, Entry<V>>, key: string, now: int): map<string, Entry<V>> {
    if key in storage && Expired(storage[key], now) then storage - {key} else storage
  }

  /** The store after `set(key, data, ttlSeconds)` at time `now`. */
  function Stored<V>(storage: map<string, Entry<V>>, key: string, data: V, now: int, ttlSeconds: int)
    : map<string, Entry<V>>
  {
    storage[key := Entry(data, now, ttlSeconds * 1000)]
  }

  class Cache<V> {
    var storage: map<string, Entry<V>>

    constructor()
      ensures storage == map[]
    {
      storage := map[];
    }

    /** `set`: replaces any entry for `key` and restarts its clock. */
    method Set(now: int, key: string, data: V, ttlSeconds: int := DefaultTtlSeconds)
      modifies this
      ensures storage == Stored(old(storage), key, data, now, ttlSeconds)
    {
      storage := storage[key := Entry(data, now, ttlSeconds * 1000)];
    }

    /** `get`: the live value under `key`, deleting the entry if it has expired. */
    method Get(now: int, key: string) returns (r: Option<V>)
      modifies this
      ensures r == Lookup(old(storage), key, now)
      ensures storage == Evict(old(storage), key, now)
    {
      if key !in storage {
        return None;
      }
      var item := storage[key];
      if now - item.timestamp > item.ttl {
        storage := storage - {key};
        return None;
      }
      r := Some(item.data);
    }

    /** `has` is `get(key) !== null`, so it deletes an expired entry too. */
    method Has(now: int, key: string) returns (b: bool)
      modifies this
      ensures b <==> Lookup(old(storage), key, now).Some?
      ensures storage == Evict(old(storage), key, now)
    {
      var r := Get(now, key);
      b := r.Some?;
    }

    method Clear()
      modifies this
      ensures storage == map[]
    {
      storage := map[];
    }

    method Remove(key: string)
      modifies this
      ensures storage == old(storage) - {key}
    {
      storage := storage - {key};
    }
  }

  /** A value stored with `set` is served until `ttlSeconds * 1000` milliseconds have passed,
      and not after. */
  lemma GetAfterSet<V>(storage: map<string, Entry<V>>, key: string, data: V, t: int, ttlSeconds: int, t': int)
    ensures Lookup(Stored(storage, key, data, t, ttlSeconds), key, t') ==
            if t' - t <= ttlSeconds * 1000 then Some(data) else None
  {
  }

  /** `set` on one key leaves what every other key answers unchanged. */
  lemma SetKeepsOtherKeys<V>(storage: map<string, Entry<V>>, key: string, data: V, t: int, ttlSeconds: int,
                             other: string, t': int)
    requires other != key
    ensures Lookup(Stored(storage, key, data, t, ttlSeconds), other, t') == Lookup(storage, other, t')
  {
  }

  /** An expired entry answers `null` and is gone from the store afterwards. */
  lemma ExpiredIsEvicted<V>(storage: map<string, Entry<V>>, key: string, now: int)
    requires key in storage && Expired(storage[key], now)
    ensures Lookup(storage, key, now) == None
    ensures key !in Evict(storage, key, now)
    ensures forall k :: k != key ==> (k in Evict(storage, key, now) <==> k in storage)
  {
  }

  /** Deleting expired entries is invisible: from `now` on, every key answers as before. Expiry is
      monotone in time, so an entry expired at `now` would answer `null` later anyway. */
  lemma EvictUnobservable<V>(storage: map<string, Entry<V>>, key: string, now: int, k: string, t: int)
    requires t >= now
    ensures Lookup(Evict(storage, key, now), k, t) == Lookup(storage, k, t)
  {
    if k == key && key in storage && Expired(storage[key], now) {
      assert Expired(storage[key], t);
    }
  }

  /** `remove(key)` makes `key` answer `null` and leaves every other key as it was. */
  lemma RemoveOnlyKey<V>(storage: map<string, Entry<V>>, key: string, k: string, t: int)
    ensures Lookup(storage - {key}, k, t) == if k == key then None else Lookup(storage, k, t)
  {
  }

  /** After `clear()` every key answers `null`. */
  lemma ClearedAnswersNull<V>(k: string, t: int)
    ensures Lookup<V>(map[], k, t) == None
  {
  }

  // ---------------------------------------------------------------------------
  // useCachedAPI

  /** How the fetcher's promise settles: with a value, or by rejecting. A rejection with an `Error`
      object carries its message; any other rejection becomes `Error('Unknown error')`. */
  datatype FetchOutcome<V> = Fetched(value: V) | RejectedWithError(message: string) | RejectedWithOther

  /** How `fetchData` settles. */
  datatype FetchResult<V> = Returned(value: V) | Threw(message: string)

  function ErrorMessage<V>(o: FetchOutcome<V>): string
    requires !o.Fetched?
  {
    if o.RejectedWithError? then o.message else "Unknown error"
  }

  /** The cache key under which `useCachedAPI(key, …)` keeps its result. */
  function ApiKey(key: string): (r: string)
    ensures |r| == |key| + 4 && r[4..] == key
  {
    "api:" + key
  }

  /** The value `fetchData(force)` answers from the cache without calling the fetcher, if any:
      only when not forced, and only for a live, truthy cached value. */
  function CachedAnswer<V>(storage: map<string, Entry<V>>, key: string, now: int, force: bool,
                           truthy: V -> bool): (r: Option<V>)
    ensures r.Some? ==> !force && Lookup(storage, ApiKey(key), now) == r && truthy(r.value)
    ensures r.None? ==> force || Lookup(storage, ApiKey(key), now).None?
                        || !truthy(Lookup(storage, ApiKey(key), now).value)
  {
    var hit := Lookup(storage, ApiKey(key), now);
    if !force && hit.Some? && truthy(hit.value) then hit else None
  }

  /** The state of one `useCachedAPI(key, fetcher, ttlSeconds)` hook over the shared cache. */
  class CachedApi<V> {
    const key: string
    const ttlSeconds: int
    const cache: Cache<V>
    var data: Option<V>
    var loading: bool
    var error: Option<string>

    constructor(key: string, cache: Cache<V>, ttlSeconds: int := DefaultTtlSeconds)
      ensures this.key == key && this.cache == cache && this.ttlSeconds == ttlSeconds
      ensures data == None && !loading && error == None
    {
      this.key := key;
      this.cache := cache;
      this.ttlSeconds := ttlSeconds;
      data := None;
      loading := false;
      error := None;
    }

    /** `fetchData(force)` started at `now`; the fetcher settles with `outcome` at `settledAt`.
        `truthy` is JavaScript truthiness on cached values. `fetcherCalled` tells whether the
        fetcher ran. */
    method FetchData(now: int, force: bool, outcome: FetchOutcome<V>, settledAt: int, truthy: V -> bool)
      returns (r: FetchResult<V>, fetcherCalled: bool)
      modifies this, cache
      ensures var hit := CachedAnswer(old(cache.storage), key, now, force, truthy);
        if hit.Some? then
          && !fetcherCalled && r == Returned(hit.value)
          && data == hit && loading == old(loading) && error == old(error)
          && cache.storage == Evict(old(cache.storage), ApiKey(key), now)
        else
          var afterLookup := if force then old(cache.storage) else Evict(old(cache.storage), ApiKey(key), now);
          && fetcherCalled && !loading
          && (outcome.Fetched? ==>
                && r == Returned(outcome.value) && data == Some(outcome.value) && error == None
                && cache.storage == Stored(afterLookup, ApiKey(key), outcome.value, settledAt, ttlSeconds))
          && (!outcome.Fetched? ==>
                && r == Threw(ErrorMessage(outcome)) && data == old(data) && error == Some(ErrorMessage(outcome))
                && cache.storage == afterLookup)
    {
      var cachedKey := "api:" + key;
      if !force {
        var present := cache.Has(now, cachedKey);
        if present {
          var cachedData := cache.Get(now, cachedKey);
          if cachedData.Some? && truthy(cachedData.value) {
            data := cachedData;
            return Returned(cachedData.value), false;
          }
        }
      }
      loading := true;
      error := None;
      fetcherCalled := true;
      match outcome {
        case Fetched(result) =>
          cache.Set(settledAt, cachedKey, result, ttlSeconds);
          data := Some(result);
          r := Returned(result);
        case _ =>
          var message := ErrorMessage(outcome);
          error := Some(message);
          r := Threw(message);
      }
      loading := false;
    }
  }
}
