/** The time-to-live cache the three vendor clients (`server/fninkClient.js`,
    `server/matsuiClient.js`, `server/ggClient.js`) each keep in a module-level
    `Map`, with the same `getCached`/`setCache` pair, and the cached GET that the
    Matsui and GG Fusion clients share. The clock is a parameter (`now`). */
module TtlCache {
  import opened Wrappers
  import opened JsonValue

  /** `CACHE_TTL`: ten minutes, in milliseconds. */
  const CacheTtl: int := 10 * 60 * 1000

  /** `{ data, ts }` */
  datatype Entry = Entry(data: Json, ts: int)

  type Store = map<string, Entry>

  /** `getCached(key)` at time `now`; `None` is the `null` of a miss. */
  function Lookup(cache: Store, key: string, now: int): Option<Json> {
    if key in cache && now - cache[key].ts < CacheTtl then Some(cache[key].data) else None
  }

  /** `setCache(key, data)` at time `now`. */
  function Set(cache: Store, key: string, data: Json, now: int): Store {
    cache[key := Entry(data, now)]
  }

  /** `if (cached)`: a cached value counts only when it is truthy. */
  predicate Hit(cache: Store, key: string, now: int) {
    Truthy(Lookup(cache, key, now))
  }

  /** A lookup answers exactly the data of an entry younger than the TTL. */
  lemma LookupFresh(cache: Store, key: string, now: int, d: Json)
    ensures Lookup(cache, key, now) == Some(d) <==>
      key in cache && cache[key].data == d && now - cache[key].ts < CacheTtl
  {
  }

  /** What was just stored is answered for ten minutes, and not after. */
  lemma SetThenLookup(cache: Store, key: string, data: Json, t: int, now: int)
    ensures Lookup(Set(cache, key, data, t), key, now) == (if now < t + CacheTtl then Some(data) else None)
  {
  }

  /** Storing under one key leaves every other key's answer as it was. */
  lemma SetLeavesOthers(cache: Store, key: string, data: Json, t: int, other: string, now: int)
    requires other != key
    ensures Lookup(Set(cache, key, data, t), other, now) == Lookup(cache, other, now)
  {
  }

  /** Once an entry has expired it stays expired as the clock advances. */
  lemma ExpiredStaysExpired(cache: Store, key: string, now: int, later: int)
    requires now <= later && Lookup(cache, key, now).None?
    ensures Lookup(cache, key, later).None?
  {
  }

  /** What an HTTPS request ends with: a body, `None` when `JSON.parse` rejects it,
      received at time `at`; or the request's `error` event. */
  datatype Response = Received(parsed: Option<Json>, at: int) | Failed(error: Json)

  /** How the returned promise settles. `Rejected` carries what `new Error(…)` is given
      (or the request's error); `TypeFailure` is a `TypeError` from a property read
      on `null` or `undefined`. */
  datatype Outcome = Resolved(value: Option<Json>) | Rejected(error: Json) | TypeFailure

  /** The shared `matsuiGet`/`ggGet`: with `useCache` a truthy fresh entry under `key`
      answers without a request, and a parsed body is stored under `key`; without it
      the cache is neither read nor written. `invalid` is the client's parse-error
      message. Answers the outcome, whether a request was made, and the new cache. */
  function CachedGet(cache: Store, key: string, useCache: bool, now: int, response: Response, invalid: string)
    : (Outcome, bool, Store)
  {
    if useCache && Hit(cache, key, now) then (Resolved(Lookup(cache, key, now)), false, cache)
    else
      match response
      case Failed(e) => (Rejected(e), true, cache)
      case Received(None, _) => (Rejected(JStr(invalid)), true, cache)
      case Received(Some(p), at) =>
        (Resolved(Some(p)), true, if useCache then Set(cache, key, p, at) else cache)
  }

  /** Without `useCache` the cache is neither consulted nor changed, and the
      answer is whatever the request gives. */
  lemma {:induction false} UncachedGet(cache: Store, key: string, now: int, response: Response, invalid: string)
    ensures CachedGet(cache, key, false, now, response, invalid).1
    ensures CachedGet(cache, key, false, now, response, invalid).2 == cache
    ensures CachedGet(cache, key, false, now, response, invalid).0 ==
      match response
      case Failed(e) => Rejected(e)
      case Received(None, _) => Rejected(JStr(invalid))
      case Received(Some(p), _) => Resolved(Some(p))
  {
  }

  /** With `useCache`, a fresh truthy entry answers without a request, and the
      cache stays as it is. */
  lemma CachedGetHit(cache: Store, key: string, now: int, response: Response, invalid: string)
    requires Hit(cache, key, now)
    ensures CachedGet(cache, key, true, now, response, invalid) == (Resolved(Some(cache[key].data)), false, cache)
  {
  }

  /** With `useCache` and a miss, a parsed body is stored whatever its shape; a
      failure stores nothing. */
  lemma CachedGetMiss(cache: Store, key: string, now: int, response: Response, invalid: string)
    requires !Hit(cache, key, now)
    ensures CachedGet(cache, key, true, now, response, invalid).1
    ensures response.Received? && response.parsed.Some? ==>
      CachedGet(cache, key, true, now, response, invalid).2 == Set(cache, key, response.parsed.value, response.at)
    ensures !(response.Received? && response.parsed.Some?) ==>
      CachedGet(cache, key, true, now, response, invalid).2 == cache
  {
  }

  /** A GET changes the cache at most under its own key. */
  lemma CachedGetOnlyKey(cache: Store, key: string, useCache: bool, now: int, response: Response, invalid: string, other: string)
    requires other != key
    ensures var c := CachedGet(cache, key, useCache, now, response, invalid).2;
      (other in c <==> other in cache) && (other in c ==> c[other] == cache[other])
  {
  }
}
