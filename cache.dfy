/** The in-memory response cache: a dictionary from key to entry, with
    a TTL that is stored but never consulted, and the query-keyed
    helpers `get_cached_response` and `set_cached_response`. SHA-256 as
    a hex string is a function given as a parameter. */
module Cache {
  import opened Common
  import opened Text

  const DefaultTtlSeconds: int := 3600
  const CacheKeyLength: nat := 16

  /** `_get_cache_key(query)`: the first 16 hex digits of the SHA-256 of
      the lower-cased, stripped query. */
  function CacheKey(sha256Hex: string -> string, query: string): (key: string)
    ensures |key| <= CacheKeyLength
  {
    Prefix(sha256Hex(Normalize(query)), CacheKeyLength)
  }

  /** Queries that differ only in ASCII case and surrounding whitespace
      share a key, and a query shares its key with its normal form. */
  lemma CacheKeyOfNormalForm(sha256Hex: string -> string, q: string, q': string)
    requires Normalize(q) == Normalize(q')
    ensures CacheKey(sha256Hex, q) == CacheKey(sha256Hex, q')
    ensures CacheKey(sha256Hex, q) == CacheKey(sha256Hex, Normalize(q))
  {
    NormalizeIdempotent(q);
  }

  /** `{"value": value, "ttl": ttl}`. */
  datatype Entry<V> = Entry(value: V, ttl: int)

  /** `ttl_seconds or self.default_ttl`: a missing or zero TTL takes the
      default. */
  function StoredTtl(ttlSeconds: Option<int>, defaultTtl: int): (ttl: int)
    ensures ttlSeconds.Some? && ttlSeconds.value != 0 ==> ttl == ttlSeconds.value
    ensures ttlSeconds.None? || ttlSeconds.value == 0 ==> ttl == defaultTtl
  {
    if ttlSeconds.Some? && ttlSeconds.value != 0 then ttlSeconds.value else defaultTtl
  }

  /** What `get(key)` returns from a store: the entry's value, whatever
      its TTL, or nothing. */
  function Lookup<V>(store: map<string, Entry<V>>, key: string): Option<V> {
    if key in store then Some(store[key].value) else None
  }

  class SimpleCache<V> {
    const defaultTtl: int
    var store: map<string, Entry<V>>

    constructor(defaultTtlSeconds: int)
      ensures defaultTtl == defaultTtlSeconds && store == map[]
    {
      defaultTtl := defaultTtlSeconds;
      store := map[];
    }

    /** `get(key)`. */
    method Get(key: string) returns (r: Option<V>)
      ensures r == Lookup(store, key)
      ensures r.Some? <==> key in store
    {
      if key in store {
        var entry := store[key];
        return Some(entry.value);
      }
      return None;
    }

    /** `set(key, value, ttl_seconds)`. */
    method Set(key: string, value: V, ttlSeconds: Option<int>)
      modifies this
      ensures store == old(store)[key := Entry(value, StoredTtl(ttlSeconds, defaultTtl))]
    {
      store := store[key := Entry(value, StoredTtl(ttlSeconds, defaultTtl))];
    }

    /** `delete(key)`: `pop(key, None)`, so an absent key is no error. */
    method Delete(key: string)
      modifies this
      ensures store == old(store) - {key}
    {
      store := store - {key};
    }

    /** `clear()`. */
    method Clear()
      modifies this
      ensures store == map[]
    {
      store := map[];
    }
  }

  /** A set followed by a get of the same key returns the value, and
      other keys read as before; a get of a key never set returns
      nothing. */
  lemma SetThenGet<V>(store: map<string, Entry<V>>, key: string, value: V, ttl: int, other: string)
    ensures Lookup(store[key := Entry(value, ttl)], key) == Some(value)
    ensures other != key ==> Lookup(store[key := Entry(value, ttl)], other) == Lookup(store, other)
    ensures other !in store && other != key ==> Lookup(store[key := Entry(value, ttl)], other).None?
  {
  }

  /** Entries never expire: what a get returns does not depend on the
      stored TTL. */
  lemma GetIgnoresTtl<V>(store: map<string, Entry<V>>, key: string, value: V, ttl: int, ttl': int)
    ensures Lookup(store[key := Entry(value, ttl)], key) == Lookup(store[key := Entry(value, ttl')], key)
  {
  }

  /** Deleting a key removes it and nothing else; deleting an absent key
      changes nothing. */
  lemma DeleteFacts<V>(store: map<string, Entry<V>>, key: string, other: string)
    ensures Lookup(store - {key}, key).None?
    ensures other != key ==> Lookup(store - {key}, other) == Lookup(store, other)
    ensures key !in store ==> store - {key} == store
  {
  }

  /** `get_cached_response(query)`. */
  method GetCachedResponse<V>(cache: SimpleCache<V>, sha256Hex: string -> string, query: string)
    returns (r: Option<V>)
    ensures r == Lookup(cache.store, CacheKey(sha256Hex, query))
  {
    r := cache.Get(CacheKey(sha256Hex, query));
  }

  /** `set_cached_response(query, response, ttl_seconds)`. */
  method SetCachedResponse<V>(cache: SimpleCache<V>, sha256Hex: string -> string, query: string,
                              response: V, ttlSeconds: int)
    modifies cache
    ensures cache.store == old(cache.store)[CacheKey(sha256Hex, query) := Entry(response, StoredTtl(Some(ttlSeconds), cache.defaultTtl))]
  {
    cache.Set(CacheKey(sha256Hex, query), response, Some(ttlSeconds));
  }

  /** A response cached under one query is found under any query with the
      same normal form. */
  lemma CachedResponseRoundTrip<V>(store: map<string, Entry<V>>, sha256Hex: string -> string,
                                   q: string, q': string, response: V, ttl: int)
    requires Normalize(q) == Normalize(q')
    ensures Lookup(store[CacheKey(sha256Hex, q) := Entry(response, ttl)], CacheKey(sha256Hex, q')) == Some(response)
  {
    CacheKeyOfNormalForm(sha256Hex, q, q');
  }

  /** The same round trip through the two helpers on one cache. */
  method CacheRoundTrip<V>(cache: SimpleCache<V>, sha256Hex: string -> string,
                           q: string, q': string, response: V, ttlSeconds: int)
    returns (r: Option<V>)
    requires Normalize(q) == Normalize(q')
    modifies cache
    ensures r == Some(response)
  {
    SetCachedResponse(cache, sha256Hex, q, response, ttlSeconds);
    CachedResponseRoundTrip(old(cache.store), sha256Hex, q, q', response, StoredTtl(Some(ttlSeconds), cache.defaultTtl));
    r := GetCachedResponse(cache, sha256Hex, q');
  }
}
