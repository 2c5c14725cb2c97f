/** `server/matcher.js`: the swatch list, loaded once (from the data file when it
    parses, otherwise from the stub list) and the nearest-PMS search over it. */
module Matcher {
  import opened Wrappers
  import opened JsonValue
  import opened ServerColor
  import opened StableSort
  import opened Ranking
  import opened Lists

  datatype Mode = Stub | Live

  /** One entry of `results`; the rounded distance is the `Scored` wrapper's. */
  datatype PmsMatch = PmsMatch(pms: Option<Json>, series: Option<Json>, hex: string, name: Json, notes: Json)

  /** The data file loads: it was read and parsed (`file` is `None` when it is missing
      or fails to read or parse), and the log line's `swatches.length` does not throw,
      which it does only on `null`. */
  predicate FileLoads(file: Option<Json>) {
    file.Some? && file.value != JNull
  }

  /** The swatch list after `loadSwatches`: kept when already set to a truthy value
      (an array, even an empty one, is truthy), else the parsed data file when it
      loads, else the stubs. */
  function Loaded(current: Json, file: Option<Json>, stubs: seq<Json>): (v: Json)
    ensures Truthy(Some(current)) ==> v == current
    ensures !Truthy(Some(current)) && FileLoads(file) ==> v == file.value
    ensures !Truthy(Some(current)) && !FileLoads(file) ==> v == JArr(stubs)
    ensures v != JNull
  {
    if Truthy(Some(current)) then current
    else if FileLoads(file) then file.value
    else JArr(stubs)
  }

  function LoadedMode(current: Json, mode: Mode, file: Option<Json>): (m: Mode)
    ensures Truthy(Some(current)) ==> m == mode
    ensures !Truthy(Some(current)) ==> (m == Live <==> FileLoads(file))
  {
    if Truthy(Some(current)) then mode
    else if FileLoads(file) then Live
    else Stub
  }

  /** A data file that parses to `null` is set, then the `catch` of the `.length`
      read falls back to the stubs in stub mode, as a missing file does. */
  lemma NullFileGivesStubs(current: Json, mode: Mode, stubs: seq<Json>)
    requires !Truthy(Some(current))
    ensures Loaded(current, Some(JNull), stubs) == Loaded(current, None, stubs) == JArr(stubs)
    ensures LoadedMode(current, mode, Some(JNull)) == LoadedMode(current, mode, None) == Stub
  { }

  /** `s.series === series` */
  function SeriesIs(series: string): Json -> bool {
    s => Get(s, "series") == Str(series)
  }

  /** The pool `matchPms` scores: every swatch for `BOTH`, else exactly those whose
      series is the one asked for, in list order. */
  function Pool(swatches: seq<Json>, series: string): (pool: seq<Json>)
    ensures series == "BOTH" ==> pool == swatches
    ensures series != "BOTH" ==> pool == Filter(swatches, SeriesIs(series))
  {
    if series == "BOTH" then swatches else Filter(swatches, SeriesIs(series))
  }

  /** A swatch `hexToRgb(normalizeHex(s.hex))` can be applied to: its hex is a string
      `normalizeHex` accepts. */
  predicate HasValidHex(s: Json) {
    IsStr(Get(s, "hex")) && NormalizeHex(Get(s, "hex").value.s).Some?
  }

  /** A swatch on which the mapping throws: `s.hex` of a `null` swatch, or
      `hexToRgb(null)` because `normalizeHex` rejects `String(s.hex)` -- a missing hex
      (`"undefined"`), `null`, a boolean, an object (`"[object Object]"`) or a string
      that is not six hex digits. */
  predicate HexThrows(s: Json) {
    s == JNull ||
    var h := Get(s, "hex");
    h.None? || h.value.JNull? || h.value.JBool? || h.value.JObj? || (h.value.JStr? && NormalizeHex(h.value.s).None?)
  }

  /** No swatch both can be scored and throws. */
  lemma ValidOrThrows(s: Json)
    ensures !(HasValidHex(s) && HexThrows(s))
  { }

  /** The swatches this model decides: all but those whose hex is a number or an
      array, which `String` turns into text that may or may not be a hex. */
  predicate HexDecided(s: Json) {
    HasValidHex(s) || HexThrows(s)
  }

  const InvalidHex := "Invalid hex"

  /** The message of the `TypeError` a property read on `null` raises. */
  function NullRead(prop: string): string {
    "Cannot read properties of null (reading '" + prop + "')"
  }

  /** What the mapping throws on a swatch it cannot score. */
  function ThrowMessage(s: Json): (msg: string)
    requires HexThrows(s)
    ensures s == JNull ==> msg == NullRead("hex")
    ensures s != JNull ==> msg == NullRead("replace")
  {
    if s == JNull then NullRead("hex") else NullRead("replace")
  }

  /** The first swatch of `pool` the mapping throws on, if any. */
  function FirstThrowing(pool: seq<Json>): (r: Option<nat>)
    ensures r.None? <==> forall i | 0 <= i < |pool| :: !HexThrows(pool[i])
    ensures r.Some? ==> r.value < |pool| && HexThrows(pool[r.value])
    ensures r.Some? ==> forall j | 0 <= j < r.value :: !HexThrows(pool[j])
  {
    if pool == [] then None
    else if HexThrows(pool[0]) then Some(0)
    else
      match FirstThrowing(pool[1..])
      case None => None
      case Some(k) => Some(k + 1)
  }

  /** The series filter reads `s.series` of every swatch, and throws on a `null` one. */
  predicate FilterThrows(swatches: seq<Json>, series: string) {
    series != "BOTH" && JNull in swatches
  }

  /** The swatch's normalised hex. */
  function SwatchHex(s: Json): (h: string)
    requires HasValidHex(s)
    ensures IsNormalHex(h)
  {
    NormalizeHex(Get(s, "hex").value.s).value
  }

  /** The mapped entry for one swatch. */
  function Score(input: Rgb, s: Json): (m: Scored<PmsMatch>)
    requires HasValidHex(s)
    ensures m.item.hex == SwatchHex(s)
    ensures m.item.name == Or(Get(s, "name"), Str("")).value
    ensures m.item.notes == Or(Get(s, "notes"), Str("")).value
    ensures m.item.pms == Get(s, "pms") && m.item.series == Get(s, "series")
    ensures m.distance == Hundredths(DistanceSq(input, HexToRgb(SwatchHex(s))))
  {
    var h := SwatchHex(s);
    Scored(PmsMatch(Get(s, "pms"), Get(s, "series"), h, Or(Get(s, "name"), Str("")).value,
                    Or(Get(s, "notes"), Str("")).value),
           Hundredths(DistanceSq(input, HexToRgb(h))))
  }

  predicate AllValidHex(pool: seq<Json>) {
    forall i | 0 <= i < |pool| :: HasValidHex(pool[i])
  }

  function ScoreAll(input: Rgb, pool: seq<Json>): (r: seq<Scored<PmsMatch>>)
    requires AllValidHex(pool)
    ensures |r| == |pool|
    ensures forall i | 0 <= i < |pool| :: r[i] == Score(input, pool[i])
  {
    seq(|pool|, i requires 0 <= i < |pool| => Score(input, pool[i]))
  }

  /** `matchPms` returns its results: the hex normalises, the filter meets no `null`
      and every pool swatch can be scored. */
  predicate Succeeds(swatches: seq<Json>, hex: string, series: string) {
    NormalizeHex(hex).Some? && !FilterThrows(swatches, series) && AllValidHex(Pool(swatches, series))
  }

  /** The `results` of `matchPms(hex, series, limit)` over a loaded list, or the message
      of what it throws: `"Invalid hex"`, the filter's `TypeError` on a `null` swatch,
      or the mapping's on the first pool swatch it cannot score. */
  function MatchResults(swatches: seq<Json>, hex: string, series: string, limit: int): (r: Result<seq<Scored<PmsMatch>>>)
    requires NormalizeHex(hex).Some? && !FilterThrows(swatches, series) ==>
      forall i | 0 <= i < |Pool(swatches, series)| :: HexDecided(Pool(swatches, series)[i])
    ensures r.Ok? <==> Succeeds(swatches, hex, series)
    ensures NormalizeHex(hex).None? ==> r == Err(InvalidHex)
    ensures NormalizeHex(hex).Some? && FilterThrows(swatches, series) ==> r == Err(NullRead("series"))
    ensures NormalizeHex(hex).Some? && !FilterThrows(swatches, series) && r.Err? ==>
      var pool := Pool(swatches, series);
      exists i | 0 <= i < |pool| :: HexThrows(pool[i]) && r.message == ThrowMessage(pool[i])
        && forall j | 0 <= j < i :: !HexThrows(pool[j])
    ensures r.Ok? && 0 <= limit ==>
      |r.value| == Min(limit, |Pool(swatches, series)|)
  {
    var norm := NormalizeHex(hex);
    if norm.None? then Err(InvalidHex)
    else if FilterThrows(swatches, series) then Err(NullRead("series"))
    else
      var pool := Pool(swatches, series);
      match FirstThrowing(pool)
      case Some(i) =>
        ValidOrThrows(pool[i]);
        Err(ThrowMessage(pool[i]))
      case None =>
        assert AllValidHex(pool) by {
          forall i | 0 <= i < |pool| ensures HasValidHex(pool[i]) { assert HexDecided(pool[i]); }
        }
        Ok(Rank(ScoreAll(HexToRgb(norm.value), pool), limit))
  }

  /** On success the results are the ranked scores of the whole pool. */
  lemma MatchOk(swatches: seq<Json>, hex: string, series: string, limit: int)
    requires Succeeds(swatches, hex, series)
    ensures MatchResults(swatches, hex, series, limit)
      == Ok(Rank(ScoreAll(HexToRgb(NormalizeHex(hex).value), Pool(swatches, series)), limit))
  {
    var pool := Pool(swatches, series);
    forall i | 0 <= i < |pool| ensures !HexThrows(pool[i]) { ValidOrThrows(pool[i]); }
    assert FirstThrowing(pool) == None;
    assert !FilterThrows(swatches, series) && NormalizeHex(hex).Some?;
  }

  /** Results come in non-decreasing distance. */
  lemma MatchSorted(swatches: seq<Json>, hex: string, series: string, limit: int)
    requires Succeeds(swatches, hex, series)
    ensures Sorted(MatchResults(swatches, hex, series, limit).value, ByDistance)
  {
    MatchOk(swatches, hex, series, limit);
    RankOrdered(ScoreAll(HexToRgb(NormalizeHex(hex).value), Pool(swatches, series)), limit);
  }

  /** Every result is the mapped entry of a pool swatch: its hex normalised, name and
      notes defaulted to `""`, and its distance rounded from the exact one. */
  lemma MatchFromPool(swatches: seq<Json>, hex: string, series: string, limit: int, k: nat)
    requires Succeeds(swatches, hex, series)
    requires k < |MatchResults(swatches, hex, series, limit).value|
    ensures exists j | 0 <= j < |Pool(swatches, series)| ::
      MatchResults(swatches, hex, series, limit).value[k]
        == Score(HexToRgb(NormalizeHex(hex).value), Pool(swatches, series)[j])
  {
    var pool := Pool(swatches, series);
    var input := HexToRgb(NormalizeHex(hex).value);
    var scored := ScoreAll(input, pool);
    MatchOk(swatches, hex, series, limit);
    RankFrom(scored, limit, k);
    var j :| 0 <= j < |scored| && scored[j] == Rank(scored, limit)[k];
    assert scored[j] == Score(input, pool[j]);
  }

  /** No pool swatch left out is strictly nearer than one returned. */
  lemma MatchNearest(swatches: seq<Json>, hex: string, series: string, limit: int)
    requires Succeeds(swatches, hex, series)
    ensures var scored := ScoreAll(HexToRgb(NormalizeHex(hex).value), Pool(swatches, series));
      var r := MatchResults(swatches, hex, series, limit).value;
      forall x, y | x in r && y in multiset(scored) - multiset(r) :: x.distance <= y.distance
  {
    MatchOk(swatches, hex, series, limit);
    RankOrdered(ScoreAll(HexToRgb(NormalizeHex(hex).value), Pool(swatches, series)), limit);
  }

  /** With a series other than `BOTH`, only swatches of that series are scored, and
      every one of them is. */
  lemma PoolOfSeries(swatches: seq<Json>, series: string)
    requires series != "BOTH"
    ensures forall i | 0 <= i < |Pool(swatches, series)| ::
      Pool(swatches, series)[i] in swatches && Get(Pool(swatches, series)[i], "series") == Str(series)
    ensures forall i | 0 <= i < |swatches| && Get(swatches[i], "series") == Str(series) ::
      swatches[i] in Pool(swatches, series)
    ensures Subsequence(Pool(swatches, series), swatches)
  {
    FilterSubsequence(swatches, SeriesIs(series));
  }

  /** The module state of `matcher.js`: `swatches` (initially `null`) and `mode`. */
  class SwatchStore {
    var swatches: Json
    var mode: Mode

    constructor ()
      ensures swatches == JNull && mode == Stub
    {
      swatches := JNull;
      mode := Stub;
    }

    /** `loadSwatches()`, with the data file's parsed contents (or `None`) and the
        stub list given. */
    method LoadSwatches(file: Option<Json>, stubs: seq<Json>)
      modifies this
      ensures swatches == Loaded(old(swatches), file, stubs)
      ensures mode == LoadedMode(old(swatches), old(mode), file)
    {
      if Truthy(Some(swatches)) {
        return;
      }
      if file.Some? {
        swatches := file.value;
        mode := Live;
        if swatches != JNull {
          return;
        }
        // `swatches.length` throws on `null`; the `catch` falls through to the stubs.
      }
      swatches := JArr(stubs);
      mode := Stub;
    }

    /** `getAllSwatches()` */
    method GetAllSwatches(file: Option<Json>, stubs: seq<Json>) returns (list: Json, m: Mode)
      modifies this
      ensures swatches == Loaded(old(swatches), file, stubs) && mode == LoadedMode(old(swatches), old(mode), file)
      ensures list == swatches && m == mode
    {
      LoadSwatches(file, stubs);
      list, m := swatches, mode;
    }

    /** `matchPms(hex, series, limit)`: loads the list, then searches it, or gives the
        message of what it throws. */
    method MatchPms(hex: string, series: string, limit: int, file: Option<Json>, stubs: seq<Json>)
      returns (results: Result<seq<Scored<PmsMatch>>>, m: Mode)
      requires NormalizeHex(hex).Some? ==>
        var l := Loaded(swatches, file, stubs);
        l.JArr? && !FilterThrows(l.items, series) ==>
          forall i | 0 <= i < |Pool(l.items, series)| :: HexDecided(Pool(l.items, series)[i])
      modifies this
      ensures swatches == Loaded(old(swatches), file, stubs) && mode == LoadedMode(old(swatches), old(mode), file)
      ensures NormalizeHex(hex).None? ==> results == Err(InvalidHex)
      ensures NormalizeHex(hex).Some? && !swatches.JArr? ==> results == Err(NotAList(series))
      ensures NormalizeHex(hex).Some? && swatches.JArr? ==> results == MatchResults(swatches.items, hex, series, limit)
      ensures m == mode
    {
      LoadSwatches(file, stubs);
      var norm := NormalizeHex(hex);
      if norm.None? {
        return Err(InvalidHex), mode;
      }
      if !swatches.JArr? {
        return Err(NotAList(series)), mode;
      }
      results, m := MatchResults(swatches.items, hex, series, limit), mode;
    }
  }

  /** What `swatches.filter` (or, for `BOTH`, `pool.map`) throws when the loaded list
      is a value other than an array and `null`: a call of an undefined method. */
  function NotAList(series: string): (msg: string)
    ensures series != "BOTH" ==> msg == "swatches.filter is not a function"
    ensures series == "BOTH" ==> msg == "pool.map is not a function"
  {
    if series != "BOTH" then "swatches.filter is not a function" else "pool.map is not a function"
  }

  /** Once the list is set, later loads keep it and the mode, whatever the file.
      A data file whose contents parse to a falsy value other than `null` (`0`, `""`,
      `false`) is the exception: the list stays falsy and is loaded again next time. */
  lemma LoadOnce(current: Json, mode: Mode, file: Option<Json>, file2: Option<Json>, stubs: seq<Json>, stubs2: seq<Json>)
    requires Truthy(Some(current)) || !FileLoads(file) || Truthy(file)
    ensures var l := Loaded(current, file, stubs);
      Loaded(l, file2, stubs2) == l
      && LoadedMode(l, LoadedMode(current, mode, file), file2) == LoadedMode(current, mode, file)
  {
  }
}
