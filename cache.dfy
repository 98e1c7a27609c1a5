/**
 * The response cache: string keys of two fingerprints, values with an
 * absolute expiry time, as the process-wide cache backend keeps them.
 */
module Cache {

  import opened Wrappers

  /** `f"gemini_response_{hash(message)}_{context_hash}"`: two integers
      joined by a separator no integer contains, so the key is determined
      by the pair and determines it. */
  datatype CacheKey = CacheKey(messageHash: int, contextHash: int)

  /** A stored value and the time (in seconds) from which it is stale. */
  datatype Entry = Entry(value: string, expiresAt: int)

  /** How long a successful reply is kept, in seconds. */
  const CacheTimeout: int := 3600

  /** `cache.get(key)` at time `now`: the value while it has not expired. */
  function Lookup(entries: map<CacheKey, Entry>, key: CacheKey, now: int): (r: Option<string>)
    ensures r.Some? <==> key in entries && now < entries[key].expiresAt
    ensures r.Some? ==> r.value == entries[key].value
  {
    if key in entries && now < entries[key].expiresAt then Some(entries[key].value) else None
  }

  /** The walrus test `if cached_response := cache.get(key)`: a live value
      that is also truthy, i.e. not the empty string. */
  predicate Hit(entries: map<CacheKey, Entry>, key: CacheKey, now: int)
  {
    Lookup(entries, key, now).Some? && Lookup(entries, key, now).value != ""
  }

  /** A value written at `now` with a timeout is read back until the timeout
      has elapsed and not afterwards; other keys are not affected. */
  lemma SetThenLookup(entries: map<CacheKey, Entry>, key: CacheKey, value: string,
                      timeout: int, now: int, later: int, other: CacheKey)
    requires other != key
    ensures Lookup(entries[key := Entry(value, now + timeout)], key, later)
      == if later < now + timeout then Some(value) else None
    ensures Lookup(entries[key := Entry(value, now + timeout)], other, later)
      == Lookup(entries, other, later)
  {
  }

  class ResponseCache {
    var entries: map<CacheKey, Entry>

    constructor ()
      ensures entries == map[]
    {
      entries := map[];
    }

    /** `cache.get(key)` */
    method Get(key: CacheKey, now: int) returns (v: Option<string>)
      ensures v == Lookup(entries, key, now)
    {
      if key in entries && now < entries[key].expiresAt {
        v := Some(entries[key].value);
      } else {
        v := None;
      }
    }

    /** `cache.set(key, value, timeout=...)` */
    method Set(key: CacheKey, value: string, timeout: int, now: int)
      modifies this
      ensures entries == old(entries)[key := Entry(value, now + timeout)]
    {
      entries := entries[key := Entry(value, now + timeout)];
    }
  }
}
