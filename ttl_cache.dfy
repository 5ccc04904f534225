/** The response cache: entries keyed by cache key, each with an expiry time in milliseconds. */
module TtlCache {
  import opened Wrappers
  import opened JsonValues

  datatype Entry = Entry(data: Json, expire: int)

  type CacheMap = map<string, Entry>

  /** A hit is an entry whose expiry lies strictly after `now`; an expired entry reads as absent. */
  function Lookup(cache: CacheMap, key: string, now: int): (r: Option<Json>)
    ensures r.Some? <==> key in cache && now < cache[key].expire
    ensures r.Some? ==> r.value == cache[key].data
  {
    if key in cache && cache[key].expire > now then Some(cache[key].data) else None
  }

  /** Expiry of an entry stored at `now` (milliseconds) with a TTL in seconds. */
  function ExpireAt(now: int, ttlSeconds: int): int {
    now + ttlSeconds * 1000
  }

  /** `cache.set`: overwrites any entry under the key. */
  function Put(cache: CacheMap, key: string, data: Json, now: int, ttlSeconds: int): (c: CacheMap)
    ensures c.Keys == cache.Keys + {key}
    ensures c[key] == Entry(data, ExpireAt(now, ttlSeconds))
    ensures forall k :: k in cache && k != key ==> c[k] == cache[k]
  {
    cache[key := Entry(data, ExpireAt(now, ttlSeconds))]
  }

  /** A stored entry is served exactly until its TTL has elapsed. */
  lemma {:induction false} PutThenLookup(cache: CacheMap, key: string, data: Json, now: int, ttlSeconds: int, later: int)
    ensures Lookup(Put(cache, key, data, now, ttlSeconds), key, later) ==
              if later < now + ttlSeconds * 1000 then Some(data) else None
  {
  }

  /** Storing under one key does not change what any other key reads. */
  lemma {:induction false} PutKeepsOtherKeys(cache: CacheMap, key: string, other: string, data: Json,
                                             now: int, ttlSeconds: int, later: int)
    requires other != key
    ensures Lookup(Put(cache, key, data, now, ttlSeconds), other, later) == Lookup(cache, other, later)
  {
  }

  /** Lookup is lazy: an expired entry reads as absent at a time and stays readable at no later time. */
  lemma {:induction false} LookupMonotone(cache: CacheMap, key: string, t1: int, t2: int)
    requires t1 <= t2
    ensures Lookup(cache, key, t2).Some? ==> Lookup(cache, key, t1) == Lookup(cache, key, t2)
  {
  }
}
