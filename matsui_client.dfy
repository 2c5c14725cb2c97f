/** The Matsui REST client (`server/matsuiClient.js`): GETs optionally cached under
    `GET:<path>` for ten minutes, POSTs never cached. */
module MatsuiClient {
  import opened Wrappers
  import opened JsonValue
  import opened TtlCache

  const InvalidJson := "Invalid JSON from Matsui API"

  /** The cache key of a GET. */
  function GetKey(path: string): string { "GET:" + path }

  /** The client's module state: the `cache` map. */
  class Client {
    var cache: Store

    constructor ()
      ensures cache == map[]
    {
      cache := map[];
    }

    /** `matsuiGet(path, { useCache })` at time `now`; `response` is how the request
        would end, used only when a request is made. */
    method MatsuiGet(path: string, useCache: bool, now: int, response: Response)
      returns (outcome: Outcome, requested: bool)
      modifies this
      ensures (outcome, requested, cache) == CachedGet(old(cache), GetKey(path), useCache, now, response, InvalidJson)
    {
      if useCache {
        var cached := Lookup(cache, GetKey(path), now);
        if Truthy(cached) {
          return Resolved(cached), false;
        }
      }
      requested := true;
      match response
      case Failed(e) =>
        outcome := Rejected(e);
      case Received(None, _) =>
        outcome := Rejected(JStr(InvalidJson));
      case Received(Some(parsed), at) =>
        if useCache {
          cache := Set(cache, GetKey(path), parsed, at);
        }
        outcome := Resolved(Some(parsed));
    }

    /** `matsuiPost(path, body)`: always a request, and the cache is not touched
        (the method may not change the client). */
    method MatsuiPost(path: string, body: Json, response: Response) returns (outcome: Outcome)
      ensures outcome == match response
        case Failed(e) => Rejected(e)
        case Received(None, _) => Rejected(JStr(InvalidJson))
        case Received(Some(p), _) => Resolved(Some(p))
    {
      match response
      case Failed(e) =>
        outcome := Rejected(e);
      case Received(None, _) =>
        outcome := Rejected(JStr(InvalidJson));
      case Received(Some(parsed), _) =>
        outcome := Resolved(Some(parsed));
    }
  }
}
