/** `server/matsuiData.js`: the local Matsui catalog, one JSON file per series,
    each loaded once into a cache and searched by code or description.  Whether a
    series' file exists and what reading and parsing it gives are parameters. */
module MatsuiData {
  import opened Wrappers
  import opened JsText
  import opened JsonValue
  import opened Lists

  /** The keys of `LOCAL_FILES`, in their order. */
  const LocalSeries: seq<string> := ["301 RC Neo", "Alpha Discharge", "Brite Discharge", "HM Discharge", "OW Stretch"]

  /** `getLocalSeriesNames()` */
  function LocalSeriesNames(): (names: seq<string>)
    ensures |names| == 5 && forall n :: n in names <==> n in LocalSeries
  {
    LocalSeries
  }

  /** `hasLocalData(seriesName)`; `fileExists` is `existsSync` on its file. */
  function HasLocalData(seriesName: string, fileExists: bool): (b: bool)
    ensures b <==> seriesName in LocalSeries && fileExists
  {
    seriesName in LocalSeries && fileExists
  }

  /** A formula the search can read: not `null`, and its code and description
      strings or falsy, as `(x || "").toLowerCase()` needs. */
  predicate Searchable(f: Json) {
    f != JNull && StrOrFalsy(Get(f, "formulaCode")) && StrOrFalsy(Get(f, "formulaDescription"))
  }

  /** `(f.formulaCode || "").toLowerCase().includes(q) || (f.formulaDescription || "")…` */
  function MatchesQuery(q: string): Json -> bool {
    f => Searchable(f)
         && (Contains(Lower(StrOrEmpty(Get(f, "formulaCode"))), q)
             || Contains(Lower(StrOrEmpty(Get(f, "formulaDescription"))), q))
  }

  predicate Blank(query: Option<string>) { query.None? || Trim(query.value) == [] }

  /** `query.toLowerCase().trim()` */
  function QueryKey(query: string): string { Trim(Lower(query)) }

  /** What `getLocalFormulas` returns once `loadSeries` gave `loaded`: nothing for a
      missing or falsy list, the whole list for a blank query, else the filter. */
  function Search(loaded: Option<Json>, query: Option<string>): (r: Option<Json>)
    requires loaded.Some? && Truthy(loaded) && !Blank(query) ==>
      loaded.value.JArr? && forall i | 0 <= i < |loaded.value.items| :: Searchable(loaded.value.items[i])
    ensures !Truthy(loaded) ==> r.None?
    ensures Truthy(loaded) && Blank(query) ==> r == loaded
    ensures Truthy(loaded) && !Blank(query) ==>
      r == Some(JArr(Filter(loaded.value.items, MatchesQuery(QueryKey(query.value)))))
  {
    if !Truthy(loaded) then None
    else if Blank(query) then loaded
    else Some(JArr(Filter(loaded.value.items, MatchesQuery(QueryKey(query.value)))))
  }

  /** The search keeps exactly the formulas that match the lower-cased, trimmed
      query, in list order. */
  lemma SearchKeepsMatches(formulas: seq<Json>, query: string)
    requires !Blank(Some(query))
    requires forall i | 0 <= i < |formulas| :: Searchable(formulas[i])
    ensures var r := Search(Some(JArr(formulas)), Some(query)).value.items;
      var q := QueryKey(query);
      Subsequence(r, formulas)
      && (forall i | 0 <= i < |r| :: MatchesQuery(q)(r[i]))
      && (forall i | 0 <= i < |formulas| && MatchesQuery(q)(formulas[i]) :: formulas[i] in r)
  {
    var p := MatchesQuery(QueryKey(query));
    assert Search(Some(JArr(formulas)), Some(query)) == Some(JArr(Filter(formulas, p)));
    FilterSubsequence(formulas, p);
  }

  /** The module's `cache`: series name to the parsed file. */
  class Catalog {
    var cache: map<string, Json>

    constructor ()
      ensures cache == map[]
    {
      cache := map[];
    }

    /** `loadSeries(seriesName)`: `fileExists` is `existsSync(filePath)` and `parsed`
        what reading and parsing the file gives (`None` when either throws). */
    method LoadSeries(seriesName: string, fileExists: bool, parsed: Option<Json>) returns (r: Option<Json>)
      modifies this
      ensures seriesName in old(cache) ==> r == Some(old(cache)[seriesName]) && cache == old(cache)
      ensures seriesName !in old(cache) && !(seriesName in LocalSeries && fileExists) ==>
        r.None? && cache == old(cache)
      ensures seriesName !in old(cache) && seriesName in LocalSeries && fileExists ==>
        r == parsed
        && cache == if parsed.Some? then old(cache)[seriesName := parsed.value] else old(cache)
    {
      if seriesName in cache {
        return Some(cache[seriesName]);
      }
      if !(seriesName in LocalSeries && fileExists) {
        return None;
      }
      if parsed.None? {
        return None;
      }
      cache := cache[seriesName := parsed.value];
      return parsed;
    }

    /** `getLocalFormulas(seriesName, query)` */
    method GetLocalFormulas(seriesName: string, query: Option<string>, fileExists: bool, parsed: Option<Json>)
      returns (r: Option<Json>)
      requires var loaded := if seriesName in cache then Some(cache[seriesName])
                             else if seriesName in LocalSeries && fileExists then parsed else None;
        loaded.Some? && Truthy(loaded) && !Blank(query) ==>
          loaded.value.JArr? && forall i | 0 <= i < |loaded.value.items| :: Searchable(loaded.value.items[i])
      modifies this
      ensures seriesName in old(cache) ==>
        cache == old(cache) && r == Search(Some(old(cache)[seriesName]), query)
      ensures seriesName !in old(cache) && !(seriesName in LocalSeries && fileExists) ==>
        cache == old(cache) && r.None?
      ensures seriesName !in old(cache) && seriesName in LocalSeries && fileExists ==>
        cache == (if parsed.Some? then old(cache)[seriesName := parsed.value] else old(cache))
        && r == Search(parsed, query)
    {
      var formulas := LoadSeries(seriesName, fileExists, parsed);
      r := Search(formulas, query);
    }
  }
}
