/** The FN-INK GraphQL client (`server/fninkClient.js`): a TTL cache that admits a
    response only when its data passes a light shape check. */
module FnInkClient {
  import opened Wrappers
  import opened JsonValue
  import opened TtlCache

  const ColorsKey := "fnink:colors"
  const MaterialsKey := "fnink:materials"
  const InvalidJson := "Invalid JSON from FN-INK API"

  /** `x[0]`, for the values where it can give something with properties. */
  function First(v: Json): Option<Json> {
    if v.JArr? then (if |v.items| > 0 then Some(v.items[0]) else None)
    else Get(v, "0")
  }

  /** `looksValidGraphQL(cacheKey, data)`; `None` when it throws, as it does on
      `data.colors[0].code` when the first colour is `null`. */
  function LooksValid(key: string, data: Option<Json>): Option<bool> {
    if data.None? || !(data.value.JArr? || data.value.JObj?) then Some(false)
    else
      var d := data.value;
      if key == ColorsKey && Truthy(Get(d, "colors")) then
        var colors := Get(d, "colors").value;
        if !colors.JArr? then Some(false)
        else if |colors.items| > 0 && colors.items[0] == JNull then None
        else if |colors.items| > 0 && !IsStr(Get(colors.items[0], "code")) then Some(false)
        else Some(true)
      else if key == MaterialsKey && Truthy(Get(d, "materials")) then
        Some(IsArr(Get(d, "materials")))
      else Some(true)
  }

  /** The shape check's verdicts, case by case. */
  lemma LooksValidCases(key: string, data: Option<Json>)
    ensures (data.None? || data.value.JNull? || data.value.JBool? || data.value.JNum? || data.value.JStr?)
            ==> LooksValid(key, data) == Some(false)
    ensures key == ColorsKey && data.Some? && Truthy(Get(data.value, "colors")) && !IsArr(Get(data.value, "colors"))
            ==> LooksValid(key, data) == Some(false)
    ensures key == ColorsKey && data.Some? && IsArr(Get(data.value, "colors")) ==>
            var cs := Get(data.value, "colors").value.items;
            LooksValid(key, data) == if cs == [] || IsStr(Get(cs[0], "code")) then Some(true)
                                     else if cs[0] == JNull then None else Some(false)
    ensures key == MaterialsKey && data.Some? && Truthy(Get(data.value, "materials"))
            ==> LooksValid(key, data) == Some(IsArr(Get(data.value, "materials")))
    ensures key != ColorsKey && key != MaterialsKey && data.Some? && (data.value.JArr? || data.value.JObj?)
            ==> LooksValid(key, data) == Some(true)
  {
  }

  /** `parsed.errors[0]?.message || "GraphQL error"` */
  function GraphqlError(errors: Json): Json {
    var first := First(errors);
    var message := if first.Some? then Get(first.value, "message") else None;
    Or(message, Str("GraphQL error")).value
  }

  /** Every cached entry passed the shape check for its key. */
  predicate Admissible(cache: Store) {
    forall k | k in cache :: LooksValid(k, Some(cache[k].data)) == Some(true)
  }

  /** The settlement of `graphqlPost` given what the request ends with, whether a
      request was made, and the new cache. Failures raised inside the `try` (a
      `null` body, a throwing shape check) are reported as invalid JSON. */
  function Post(cache: Store, useCache: bool, key: string, now: int, response: Response): (Outcome, bool, Store) {
    var caching := useCache && key != [];
    if caching && Hit(cache, key, now) then (Resolved(Lookup(cache, key, now)), false, cache)
    else
      match response
      case Failed(e) => (Rejected(e), true, cache)
      case Received(None, _) => (Rejected(JStr(InvalidJson)), true, cache)
      case Received(Some(p), at) =>
        if p == JNull then (Rejected(JStr(InvalidJson)), true, cache)
        else if Truthy(Get(p, "errors")) then (Rejected(GraphqlError(Get(p, "errors").value)), true, cache)
        else
          var data := Get(p, "data");
          if !caching then (Resolved(data), true, cache)
          else
            var check := LooksValid(key, data);
            if check.None? then (Rejected(JStr(InvalidJson)), true, cache)
            else if check.value then (Resolved(data), true, Set(cache, key, data.value, at))
            else (Resolved(data), true, cache)
  }

  /** A cache hit answers the cached data without a request. */
  lemma PostHit(cache: Store, key: string, now: int, response: Response)
    requires key != [] && Hit(cache, key, now)
    ensures Post(cache, true, key, now, response) == (Resolved(Some(cache[key].data)), false, cache)
  {
  }

  /** A response carrying `errors` rejects and caches nothing. */
  lemma PostErrorsNotCached(cache: Store, useCache: bool, key: string, now: int, p: Json, at: int)
    requires !(useCache && key != [] && Hit(cache, key, now))
    requires Truthy(Get(p, "errors"))
    ensures Post(cache, useCache, key, now, Received(Some(p), at)) == (Rejected(GraphqlError(Get(p, "errors").value)), true, cache)
  {
  }

  /** Data that fails the shape check still reaches the caller, but is not cached. */
  lemma PostMalformedNotCached(cache: Store, key: string, now: int, p: Json, at: int)
    requires key != [] && !Hit(cache, key, now)
    requires p != JNull && !Truthy(Get(p, "errors")) && LooksValid(key, Get(p, "data")) == Some(false)
    ensures Post(cache, true, key, now, Received(Some(p), at)) == (Resolved(Get(p, "data")), true, cache)
  {
  }

  /** A body that is not JSON rejects with the client's message and caches nothing. */
  lemma PostInvalidJson(cache: Store, useCache: bool, key: string, now: int, at: int)
    requires !(useCache && key != [] && Hit(cache, key, now))
    ensures Post(cache, useCache, key, now, Received(None, at)) == (Rejected(JStr(InvalidJson)), true, cache)
  {
  }

  /** Only data that passes the shape check ever enters the cache, so the cache
      holds nothing malformed. */
  lemma {:induction false} PostKeepsAdmissible(cache: Store, useCache: bool, key: string, now: int, response: Response)
    requires Admissible(cache)
    ensures Admissible(Post(cache, useCache, key, now, response).2)
  {
    var c := Post(cache, useCache, key, now, response).2;
    forall k | k in c ensures LooksValid(k, Some(c[k].data)) == Some(true) {
      if k != key || c == cache {
        assert k in cache && c[k] == cache[k];
      }
    }
  }

  /** `data.colors` of a settled request (a `TypeError` when there is no data). */
  function Field(outcome: Outcome, name: string): Outcome {
    match outcome
    case Resolved(d) => if d.None? || d.value == JNull then TypeFailure else Resolved(Get(d.value, name))
    case _ => outcome
  }

  /** The client's module state: the `cache` map. */
  class Client {
    var cache: Store

    constructor ()
      ensures cache == map[]
    {
      cache := map[];
    }

    predicate Valid()
      reads this
    {
      Admissible(cache)
    }

    /** `graphqlPost(query, { useCache, cacheKey })` at time `now`; `response` is how
        the request would end, used only when a request is made. */
    method GraphqlPost(useCache: bool, cacheKey: string, now: int, response: Response)
      returns (outcome: Outcome, requested: bool)
      requires Valid()
      modifies this
      ensures (outcome, requested, cache) == Post(old(cache), useCache, cacheKey, now, response)
      ensures Valid()
    {
      PostKeepsAdmissible(cache, useCache, cacheKey, now, response);
      if useCache && cacheKey != [] {
        var cached := Lookup(cache, cacheKey, now);
        if Truthy(cached) {
          return Resolved(cached), false;
        }
      }
      requested := true;
      match response
      case Failed(e) =>
        outcome := Rejected(e);
      case Received(None, _) =>
        outcome := Rejected(JStr(InvalidJson));
      case Received(Some(parsed), at) =>
        if parsed == JNull {
          outcome := Rejected(JStr(InvalidJson));
          return;
        }
        if Truthy(Get(parsed, "errors")) {
          outcome := Rejected(GraphqlError(Get(parsed, "errors").value));
          return;
        }
        var data := Get(parsed, "data");
        if useCache && cacheKey != [] {
          var check := LooksValid(cacheKey, data);
          if check.None? {
            outcome := Rejected(JStr(InvalidJson));
            return;
          }
          if check.value {
            cache := Set(cache, cacheKey, data.value, at);
          }
        }
        outcome := Resolved(data);
    }

    /** `getAllFnInkColors()`: cached under `fnink:colors`. */
    method GetAllFnInkColors(now: int, response: Response) returns (outcome: Outcome, requested: bool)
      requires Valid()
      modifies this
      ensures var (o, req, c) := Post(old(cache), true, ColorsKey, now, response);
        outcome == Field(o, "colors") && requested == req && cache == c
      ensures Valid()
    {
      var data;
      data, requested := GraphqlPost(true, ColorsKey, now, response);
      outcome := Field(data, "colors");
    }

    /** `getFnInkMaterials()`: cached under `fnink:materials`. */
    method GetFnInkMaterials(now: int, response: Response) returns (outcome: Outcome, requested: bool)
      requires Valid()
      modifies this
      ensures var (o, req, c) := Post(old(cache), true, MaterialsKey, now, response);
        outcome == Field(o, "materials") && requested == req && cache == c
      ensures Valid()
    {
      var data;
      data, requested := GraphqlPost(true, MaterialsKey, now, response);
      outcome := Field(data, "materials");
    }
  }
}
