/**
 * The expiry rule of the `node-cache` package, which both module caches of the server use:
 * `set` stamps an entry with the instant `now + ttl * 1000` (milliseconds), and `get`/`has`
 * treat an entry as present while the current instant is not past that stamp.
 * The clock is an explicit parameter.
 */
module TtlCache {
  import opened Wrappers

  datatype Stamped<T> = Stamped(value: T, expires: int)

  predicate Live<T>(m: map<string, Stamped<T>>, key: string, now: int)
  {
    key in m && now <= m[key].expires
  }

  /** `cache.get(key)`: the stored value while it has not expired. */
  function Get<T>(m: map<string, Stamped<T>>, key: string, now: int): (r: Option<T>)
    ensures r.Some? <==> Live(m, key, now)
    ensures r.Some? ==> r.value == m[key].value
  {
    if Live(m, key, now) then Some(m[key].value) else None
  }

  /** `cache.set(key, value)` with a time-to-live of `ttl` seconds. */
  function Set<T>(m: map<string, Stamped<T>>, key: string, value: T, now: int, ttl: nat): (r: map<string, Stamped<T>>)
    ensures forall t :: now <= t <= now + ttl * 1000 ==> Get(r, key, t) == Some(value)
    ensures forall t :: now + ttl * 1000 < t ==> Get(r, key, t) == None
    ensures forall k, t :: k != key ==> Get(r, k, t) == Get(m, k, t)
    ensures r.Keys == m.Keys + {key}
  {
    m[key := Stamped(value, now + ttl * 1000)]
  }
}
