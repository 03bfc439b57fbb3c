/** The local cache of the serving tier: a werkzeug SimpleCache used as a
    key/value map whose entries expire a fixed time after they are set. */
module TtlCache {
  import opened Common

  /** Seconds an entry stays in the local cache. */
  const Timeout: int := 2 * 60

  /** A cached value and the time from which it is no longer returned. */
  datatype Entry = Entry(value: Field, expiresAt: int)

  type Cache = map<Field, Entry>

  /** cache.set(key, value, timeout=Timeout) at time now. */
  function Set(cache: Cache, key: Field, value: Field, now: int): (c: Cache)
    ensures c.Keys == cache.Keys + {key}
    ensures key in c && c[key].value == value && c[key].expiresAt == now + Timeout
    ensures forall k :: k in cache && k != key ==> c[k] == cache[k]
  {
    cache[key := Entry(value, now + Timeout)]
  }

  /** cache.get(key) at time now: None for a missing or expired entry. */
  function Get(cache: Cache, key: Field, now: int): (r: Field)
    ensures r.Some? ==> key in cache && now < cache[key].expiresAt
    ensures key in cache && now < cache[key].expiresAt ==> r == cache[key].value
    ensures key !in cache || cache[key].expiresAt <= now ==> r.None?
  {
    if key in cache && now < cache[key].expiresAt then cache[key].value else None
  }

  /** A value set at time `written` is read back until Timeout seconds have
      passed, and never after. */
  lemma ReadAfterWrite(cache: Cache, key: Field, value: Field, written: int, now: int)
    ensures Get(Set(cache, key, value, written), key, now)
         == if now < written + Timeout then value else None
  {
  }

  /** Setting one key changes what no other key reads. */
  lemma WriteIsolated(cache: Cache, key: Field, value: Field, written: int, other: Field, now: int)
    requires other != key
    ensures Get(Set(cache, key, value, written), other, now) == Get(cache, other, now)
  {
  }
}
