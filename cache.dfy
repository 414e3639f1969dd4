/**
 * The in-memory response cache (index.js:11): one process-wide map from a
 * key to a payload and its expiry time. Entries are only ever written, never
 * deleted: an entry whose expiry has passed is ignored by lookups and stays
 * in the map until a later write for the same key replaces it.
 */
module Cache {
  import opened Wrappers

  const KeyPrefix := "cache:"

  /** A cached upstream payload and the time, in milliseconds, from which it is stale. */
  datatype Entry<D> = Entry(data: D, expiry: int)

  /** The key of a request: the prefix followed by the request's original URL, verbatim. */
  function CacheKey(url: string): string
  {
    KeyPrefix + url
  }

  /** Expiry of an entry written at `now` (milliseconds) with a TTL in seconds. */
  function Expiry(now: int, ttlSeconds: nat): int
  {
    now + ttlSeconds * 1000
  }

  /** What a lookup at time `now` finds: the payload of a live entry, or nothing. */
  function Get<D>(entries: map<string, Entry<D>>, key: string, now: int): Option<D>
  {
    if key in entries && now < entries[key].expiry then Some(entries[key].data) else None
  }

  /** The map after writing `data` under `key` at time `now`: last write wins. */
  function Put<D>(entries: map<string, Entry<D>>, key: string, data: D, now: int, ttlSeconds: nat): map<string, Entry<D>>
  {
    entries[key := Entry(data, Expiry(now, ttlSeconds))]
  }

  /** No normalisation: distinct URLs, however alike, have distinct keys. */
  lemma CacheKeyInjective(u: string, v: string)
    ensures CacheKey(u) == CacheKey(v) <==> u == v
  {
    if CacheKey(u) == CacheKey(v) {
      assert u == CacheKey(u)[|KeyPrefix|..];
      assert v == CacheKey(v)[|KeyPrefix|..];
    }
  }

  /** A write at `t` with TTL `s` is seen by a lookup at `t'` exactly while `t' < t + s*1000`. */
  lemma PutThenGet<D>(entries: map<string, Entry<D>>, key: string, data: D, t: int, ttlSeconds: nat, t': int)
    ensures Get(Put(entries, key, data, t, ttlSeconds), key, t') == if t' < t + ttlSeconds * 1000 then Some(data) else None
  {
  }

  /** A write adds or replaces one key and leaves every other entry as it was. */
  lemma PutFrame<D>(entries: map<string, Entry<D>>, key: string, data: D, t: int, ttlSeconds: nat)
    ensures Put(entries, key, data, t, ttlSeconds).Keys == entries.Keys + {key}
    ensures forall k :: k in entries && k != key ==> Put(entries, key, data, t, ttlSeconds)[k] == entries[k]
    ensures forall k, t' :: k != key ==> Get(Put(entries, key, data, t, ttlSeconds), k, t') == Get(entries, k, t')
  {
  }

  /** Staleness is permanent: once a lookup misses on an entry's expiry, every later lookup misses too. */
  lemma GetStaysStale<D>(entries: map<string, Entry<D>>, key: string, t1: int, t2: int)
    requires t1 <= t2 && Get(entries, key, t1).None?
    ensures Get(entries, key, t2).None?
  {
  }

  /**
   * The cache object itself. Its methods are the two uses the source makes of
   * the map: the middleware's lookup (index.js:28-31) and the handlers' write
   * (index.js:54-58, 72-76).
   */
  class ResponseCache<D> {
    var entries: map<string, Entry<D>>

    constructor ()
      ensures entries == map[]
    {
      entries := map[];
    }

    /** A hit exactly when an entry exists and has not reached its expiry; the map is only read. */
    method Lookup(key: string, now: int) returns (r: Option<D>)
      ensures r == Get(entries, key, now)
    {
      if key in entries {
        var cached := entries[key];
        if now < cached.expiry {
          return Some(cached.data);
        }
      }
      return None;
    }

    method Store(key: string, data: D, now: int, ttlSeconds: nat)
      modifies this
      ensures entries == Put(old(entries), key, data, now, ttlSeconds)
    {
      entries := entries[key := Entry(data, now + ttlSeconds * 1000)];
    }
  }
}
