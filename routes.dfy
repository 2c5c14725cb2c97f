/** The request handling of `server/index.js` that is not plumbing: the query
    parameter checks shared by the routes and the filter / score / sort / slice block
    of each `/match` route.  A route is a function from its query parameters and the
    data its data source returned to the reply it sends. */
module Routes {
  import opened Wrappers
  import opened JsText
  import opened JsonValue
  import opened ServerColor
  import opened StableSort
  import opened Ranking
  import opened Lists
  import Matcher

  /** `res.json(body)` with status 200, or `res.status(status).json({ error })`. */
  datatype Reply<T> = Sent(body: T) | Fail(status: nat, error: string)

  // ------------------------------------------------------------------
  // Query parameters

  const MissingHex := "Missing required query param: hex"
  const BadHex := "Invalid hex format. Expected #RRGGBB or RRGGBB."

  /** `parseHex(req, res)`; `None` is an absent parameter. */
  function ParseHex(hex: Option<string>): (r: Result<string>)
    ensures hex.None? || hex.value == [] ==> r == Err(MissingHex)
    ensures hex.Some? && hex.value != [] && NormalizeHex(hex.value).None? ==> r == Err(BadHex)
    ensures r.Ok? ==> hex.Some? && NormalizeHex(hex.value) == Some(r.value)
    ensures r.Ok? ==> IsNormalHex(r.value) && NormalizeHex(r.value) == Some(r.value)
  {
    if hex.None? || hex.value == [] then Err(MissingHex)
    else match NormalizeHex(hex.value)
      case None => Err(BadHex)
      case Some(h) =>
        // already normalised, so `matchPms` accepts it again
        NormalizeHexIdempotent(hex.value);
        Ok(h)
  }

  /** `parseInt(raw, 10)`; an absent parameter is `NaN`. */
  function LimitValue(raw: Option<string>): Option<int> {
    if raw.None? then None else ParseInt(raw.value, Decimal)
  }

  /** What `parseLimit(raw, { min, max, defaultVal })` returns. */
  function ClampedLimit(raw: Option<string>, min: int, max: int, defaultVal: int): (limit: int)
    ensures limit <= max
    ensures var p := LimitValue(raw); p.Some? && min <= p.value <= max ==> limit == p.value
    ensures var p := LimitValue(raw); p.Some? && min <= p.value && max < p.value ==> limit == max
    ensures var p := LimitValue(raw); p.None? || p.value < min ==> limit == Min(defaultVal, max)
  {
    var p := LimitValue(raw);
    var l := if p.None? || p.value < min then defaultVal else p.value;
    if l > max then max else l
  }

  /** `parseLimit`, reassigning its local `limit` as the source does. */
  method ParseLimit(raw: Option<string>, min: int, max: int, defaultVal: int) returns (limit: int)
    ensures limit == ClampedLimit(raw, min, max, defaultVal)
  {
    var parsed := LimitValue(raw);
    limit := if parsed.Some? then parsed.value else 0;
    if parsed.None? || limit < min {
      limit := defaultVal;
    }
    if limit > max {
      limit := max;
    }
  }

  /** The routes call `parseLimit(raw)` with min 1, max 50 and default 10, so every
      limit they use is in 1..50. */
  lemma RouteLimitInRange(raw: Option<string>)
    ensures 1 <= ClampedLimit(raw, 1, 50, 10) <= 50
  {
  }

  const ValidSeries: seq<string> := ["C", "U", "BOTH"]
  const BadSeries := "Invalid series. Expected one of: C, U, BOTH"

  /** `rawSeries ? rawSeries.toUpperCase() : "BOTH"`, then the `VALID_SERIES` check. */
  function SeriesParam(raw: Option<string>): (r: Result<string>)
    ensures raw.None? || raw.value == [] ==> r == Ok("BOTH")
    ensures raw.Some? && raw.value != [] ==> (r.Ok? <==> Upper(raw.value) in ValidSeries)
    ensures r.Ok? ==> r.value in ValidSeries
    ensures r.Ok? && raw.Some? && raw.value != [] ==> r.value == Upper(raw.value)
    ensures r.Err? ==> r.message == BadSeries
  {
    var series := if raw.None? || raw.value == [] then "BOTH" else Upper(raw.value);
    if series in ValidSeries then Ok(series) else Err(BadSeries)
  }

  const BadCategory := "Invalid category. Expected UD or CD."

  /** `(category || "UD").toUpperCase()`, then the UD / CD check. */
  function CategoryParam(raw: Option<string>): (r: Result<string>)
    ensures raw.None? || raw.value == [] ==> r == Ok("UD")
    ensures raw.Some? && raw.value != [] ==> (r.Ok? <==> Upper(raw.value) in ["UD", "CD"])
    ensures r.Ok? ==> r.value in ["UD", "CD"]
    ensures r.Ok? && raw.Some? && raw.value != [] ==> r.value == Upper(raw.value)
    ensures r.Err? ==> r.message == BadCategory
  {
    var cat := if raw.None? || raw.value == [] then "UD" else Upper(raw.value);
    if cat == "UD" || cat == "CD" then Ok(cat) else Err(BadCategory)
  }

  // ------------------------------------------------------------------
  // GET /api/pms

  datatype PmsReply = PmsReply(hex: string, series: string, limit: int,
                               results: seq<Scored<Matcher.PmsMatch>>, mode: Matcher.Mode, note: string)

  function ModeNote(mode: Matcher.Mode): string {
    if mode == Matcher.Stub then "Pantone database not installed yet. Using stub data."
    else "Matched against live swatch database."
  }

  /** `GET /api/pms` over the loaded swatch list: the hex check, then the series, then
      the search, whose thrown message the `catch` sends with status 500. */
  function PmsRoute(hexQ: Option<string>, seriesQ: Option<string>, limitQ: Option<string>,
                    swatches: seq<Json>, mode: Matcher.Mode): (r: Reply<PmsReply>)
    requires ParseHex(hexQ).Ok? && SeriesParam(seriesQ).Ok? && !Matcher.FilterThrows(swatches, SeriesParam(seriesQ).value) ==>
      var pool := Matcher.Pool(swatches, SeriesParam(seriesQ).value);
      forall i | 0 <= i < |pool| :: Matcher.HexDecided(pool[i])
    ensures ParseHex(hexQ).Err? ==> r == Fail(400, ParseHex(hexQ).message)
    ensures ParseHex(hexQ).Ok? && SeriesParam(seriesQ).Err? ==> r == Fail(400, BadSeries)
    ensures ParseHex(hexQ).Ok? && SeriesParam(seriesQ).Ok? ==>
      var hex, series, limit := ParseHex(hexQ).value, SeriesParam(seriesQ).value, ClampedLimit(limitQ, 1, 50, 10);
      var m := Matcher.MatchResults(swatches, hex, series, limit);
      (m.Err? ==> r == Fail(500, m.message)) && (m.Ok? ==> r == Sent(PmsReply(hex, series, limit, m.value, mode, ModeNote(mode))))
  {
    match ParseHex(hexQ)
    case Err(e) => Fail(400, e)
    case Ok(normHex) =>
      match SeriesParam(seriesQ)
      case Err(e) => Fail(400, e)
      case Ok(series) =>
        var limit := ClampedLimit(limitQ, 1, 50, 10);
        match Matcher.MatchResults(swatches, normHex, series, limit)
        case Err(e) => Fail(500, e)
        case Ok(results) => Sent(PmsReply(normHex, series, limit, results, mode, ModeNote(mode)))
  }

  // ------------------------------------------------------------------
  // GET /api/matsui/match

  const MissingSeries := "Missing required query param: series"
  const Sentinel := "#888888"

  /** `f.formulaSwatchColor?.formulaColor` */
  function SwatchColorField(f: Json): Option<Json> {
    var sc := Get(f, "formulaSwatchColor");
    if sc.Some? then Get(sc.value, "formulaColor") else None
  }

  /** Both colour fields are strings wherever they are truthy, as the template
      literal needs to give `#` and the digits. */
  predicate MatsuiHexFields(f: Json) {
    StrOrFalsy(SwatchColorField(f)) && StrOrFalsy(Get(f, "formulaColor"))
  }

  /** The comparison hex: the swatch colour, else the formula colour, with `#`. */
  function MatsuiHex(f: Json): (h: Option<string>)
    requires MatsuiHexFields(f)
    ensures h.Some? <==> Truthy(SwatchColorField(f)) || Truthy(Get(f, "formulaColor"))
    ensures Truthy(SwatchColorField(f)) ==> h == Some("#" + SwatchColorField(f).value.s)
    ensures !Truthy(SwatchColorField(f)) && Truthy(Get(f, "formulaColor")) ==>
      h == Some("#" + Get(f, "formulaColor").value.s)
    ensures h.Some? ==> f.JObj? && |h.value| >= 2 && h.value[0] == '#'
  {
    if Truthy(SwatchColorField(f)) then Some("#" + SwatchColorField(f).value.s)
    else if Truthy(Get(f, "formulaColor")) then Some("#" + Get(f, "formulaColor").value.s)
    else None
  }

  /** A formula the route can score: the hex it compares is `#RRGGBB` unless the
      formula is dropped. */
  predicate MatsuiUsable(f: Json) {
    MatsuiHexFields(f)
    && (MatsuiHex(f).Some? && MatsuiHex(f).value != Sentinel ==> IsHashHex(MatsuiHex(f).value))
  }

  /** `{ ...f, resolvedHex, distance }` */
  function WithMatch(f: Json, hex: string, k: nat): (g: Json)
    requires f.JObj?
    ensures Get(g, "resolvedHex") == Str(hex) && Get(g, "distance") == Some(JNum(k as real / 100.0))
    ensures forall key | key in f.fields && key != "resolvedHex" && key != "distance" :: Get(g, key) == Get(f, key)
  {
    JObj(f.fields["resolvedHex" := JStr(hex)]["distance" := JNum(k as real / 100.0)])
  }

  /** The mapped entry of one formula: `null` when it has no hex or the sentinel.  On a
      `null` formula `f.formulaSwatchColor` throws instead (see `MatsuiRoute`). */
  function MatsuiCandidate(target: Rgb, f: Json): (c: Option<Scored<Json>>)
    requires MatsuiUsable(f) && f != JNull
    ensures c.Some? <==> MatsuiHex(f).Some? && MatsuiHex(f).value != Sentinel
    ensures c.Some? ==> var h := MatsuiHex(f).value;
      c.value.distance == Hundredths(DistanceSq(target, HexToRgb(h)))
      && c.value.item == WithMatch(f, h, c.value.distance)
  {
    var h := MatsuiHex(f);
    if h.None? || h.value == Sentinel then None
    else
      var k := Hundredths(DistanceSq(target, HexToRgb(h.value)));
      Some(Scored(WithMatch(f, h.value, k), k))
  }

  /** The local catalog when there is one (an empty list included), else the API's
      answer when it is an array, else nothing. */
  function MatsuiFormulas(local: Option<seq<Json>>, api: Json): (fs: seq<Json>)
    ensures local.Some? ==> fs == local.value
    ensures local.None? && api.JArr? ==> fs == api.items
    ensures local.None? && !api.JArr? ==> fs == []
  {
    if local.Some? then local.value else if api.JArr? then api.items else []
  }

  function MatsuiCandidates(target: Rgb, fs: seq<Json>): (cs: seq<Option<Scored<Json>>>)
    requires JNull !in fs && forall i | 0 <= i < |fs| :: MatsuiUsable(fs[i])
    ensures |cs| == |fs| && forall i | 0 <= i < |fs| :: cs[i] == MatsuiCandidate(target, fs[i])
  {
    seq(|fs|, i requires 0 <= i < |fs| => MatsuiCandidate(target, fs[i]))
  }

  /** The reply of the Matsui match: the kept formulas, nearest first, `limit` of them. */
  function MatsuiResults(target: Rgb, fs: seq<Json>, limit: int): (r: seq<Scored<Json>>)
    requires JNull !in fs && forall i | 0 <= i < |fs| :: MatsuiUsable(fs[i])
    ensures 0 <= limit ==> |r| == Min(limit, |Collect(MatsuiCandidates(target, fs))|)
  {
    RankCandidates(MatsuiCandidates(target, fs), limit)
  }

  const MatsuiFailed := "Failed to match Matsui formulas"

  /** `GET /api/matsui/match`: `local` is what `getLocalFormulas(series, "")` gave and
      `api` the parsed answer of the Matsui API, asked only when `local` is `None`.
      A `null` formula makes the mapping throw, and the `catch` replies 500. */
  function MatsuiRoute(hexQ: Option<string>, seriesQ: Option<string>, limitQ: Option<string>,
                       local: Option<seq<Json>>, api: Json): (r: Reply<seq<Scored<Json>>>)
    requires forall i | 0 <= i < |MatsuiFormulas(local, api)| :: MatsuiUsable(MatsuiFormulas(local, api)[i])
    ensures ParseHex(hexQ).Err? ==> r == Fail(400, ParseHex(hexQ).message)
    ensures ParseHex(hexQ).Ok? && (seriesQ.None? || seriesQ.value == []) ==> r == Fail(400, MissingSeries)
    ensures ParseHex(hexQ).Ok? && seriesQ.Some? && seriesQ.value != [] && JNull in MatsuiFormulas(local, api) ==>
      r == Fail(500, MatsuiFailed)
    ensures ParseHex(hexQ).Ok? && seriesQ.Some? && seriesQ.value != [] && JNull !in MatsuiFormulas(local, api) ==>
      r == Sent(MatsuiResults(HexToRgb(ParseHex(hexQ).value), MatsuiFormulas(local, api), ClampedLimit(limitQ, 1, 50, 10)))
  {
    match ParseHex(hexQ)
    case Err(e) => Fail(400, e)
    case Ok(normHex) =>
      if seriesQ.None? || seriesQ.value == [] then Fail(400, MissingSeries)
      else
        var formulas := MatsuiFormulas(local, api);
        if JNull in formulas then Fail(500, MatsuiFailed)
        else
          var limit := ClampedLimit(limitQ, 1, 50, 10);
          Sent(MatsuiResults(HexToRgb(normHex), formulas, limit))
  }

  lemma MatsuiResultsSorted(target: Rgb, fs: seq<Json>, limit: int)
    requires JNull !in fs && forall i | 0 <= i < |fs| :: MatsuiUsable(fs[i])
    ensures Sorted(MatsuiResults(target, fs, limit), ByDistance)
  {
    RankCandidatesFacts(MatsuiCandidates(target, fs), limit);
  }

  /** Every entry is a formula of the list with its resolved hex (never the sentinel)
      and its rounded distance added. */
  lemma MatsuiResultFrom(target: Rgb, fs: seq<Json>, limit: int, k: nat)
    requires JNull !in fs && forall i | 0 <= i < |fs| :: MatsuiUsable(fs[i])
    requires k < |MatsuiResults(target, fs, limit)|
    ensures var e := MatsuiResults(target, fs, limit)[k];
      exists j | 0 <= j < |fs| ::
        MatsuiHex(fs[j]).Some? && MatsuiHex(fs[j]).value != Sentinel
        && e.item == WithMatch(fs[j], MatsuiHex(fs[j]).value, e.distance)
        && e.distance == Hundredths(DistanceSq(target, HexToRgb(MatsuiHex(fs[j]).value)))
  {
    var cs := MatsuiCandidates(target, fs);
    RankCandidatesFacts(cs, limit);
    var e := MatsuiResults(target, fs, limit)[k];
    assert Some(e) in cs;
    var j :| 0 <= j < |cs| && cs[j] == Some(e);
    assert MatsuiCandidate(target, fs[j]) == Some(e);
  }

  // ------------------------------------------------------------------
  // GET /api/gg/match and GET /api/gg/formula

  /** A channel the vendor sends as a whole number. */
  predicate ChannelNum(v: Option<Json>) { IsNum(v) && v.value.n == v.value.n.Floor as real }

  predicate GgUsable(c: Json) { ChannelNum(Get(c, "r")) && ChannelNum(Get(c, "g")) && ChannelNum(Get(c, "b")) }

  /** `{ r: c.r, g: c.g, b: c.b }` */
  function GgRgb(c: Json): Rgb
    requires GgUsable(c)
  {
    Rgb(Get(c, "r").value.n.Floor, Get(c, "g").value.n.Floor, Get(c, "b").value.n.Floor)
  }

  datatype GgMatch = GgMatch(id: Option<Json>, code: Option<Json>, name: Option<Json>, hex: Option<Json>)

  /** `{ _id, code, name, hex, distance }` for one colour; none is dropped. */
  function GgScore(target: Rgb, c: Json): (m: Scored<GgMatch>)
    requires GgUsable(c)
    ensures m.item == GgMatch(Get(c, "_id"), Get(c, "code"), Get(c, "name"), Get(c, "hex"))
    ensures m.distance == Hundredths(DistanceSq(target, GgRgb(c)))
  {
    Scored(GgMatch(Get(c, "_id"), Get(c, "code"), Get(c, "name"), Get(c, "hex")),
           Hundredths(DistanceSq(target, GgRgb(c))))
  }

  function GgScores(target: Rgb, colors: seq<Json>): (s: seq<Scored<GgMatch>>)
    requires forall c | c in colors :: GgUsable(c)
    ensures |s| == |colors| && forall i | 0 <= i < |colors| :: s[i] == GgScore(target, colors[i])
  {
    seq(|colors|, i requires 0 <= i < |colors| => GgScore(target, colors[i]))
  }

  const GgFailed := "Failed to fetch GG colors"

  /** `GET /api/gg/match`: `colorsOf(category)` is what `getGGColors` returned.  A
      `null` colour makes `c.r` throw, and the `catch` replies 502. */
  function GgRoute(hexQ: Option<string>, categoryQ: Option<string>, limitQ: Option<string>,
                   colorsOf: string -> seq<Json>): (r: Reply<seq<Scored<GgMatch>>>)
    requires CategoryParam(categoryQ).Ok? ==>
      var colors := colorsOf(CategoryParam(categoryQ).value);
      forall c | c in colors && c != JNull :: GgUsable(c)
    ensures ParseHex(hexQ).Err? ==> r == Fail(400, ParseHex(hexQ).message)
    ensures ParseHex(hexQ).Ok? && CategoryParam(categoryQ).Err? ==> r == Fail(400, BadCategory)
    ensures ParseHex(hexQ).Ok? && CategoryParam(categoryQ).Ok? && JNull in colorsOf(CategoryParam(categoryQ).value) ==>
      r == Fail(502, GgFailed)
    ensures ParseHex(hexQ).Ok? && CategoryParam(categoryQ).Ok? && JNull !in colorsOf(CategoryParam(categoryQ).value) ==>
      r == Sent(Rank(GgScores(HexToRgb(ParseHex(hexQ).value), colorsOf(CategoryParam(categoryQ).value)),
                     ClampedLimit(limitQ, 1, 50, 10)))
  {
    match ParseHex(hexQ)
    case Err(e) => Fail(400, e)
    case Ok(normHex) =>
      match CategoryParam(categoryQ)
      case Err(e) => Fail(400, e)
      case Ok(cat) =>
        var colors := colorsOf(cat);
        if JNull in colors then Fail(502, GgFailed)
        else Sent(Rank(GgScores(HexToRgb(normHex), colors), ClampedLimit(limitQ, 1, 50, 10)))
  }

  /** No colour is dropped: the reply has `limit` entries or all of them, nearest
      first, each the entry of some colour. */
  lemma GgResults(target: Rgb, colors: seq<Json>, limit: int, k: nat)
    requires forall c | c in colors :: GgUsable(c)
    requires 1 <= limit
    ensures var r := Rank(GgScores(target, colors), limit);
      |r| == Min(limit, |colors|) && Sorted(r, ByDistance)
      && (k < |r| ==> exists j | 0 <= j < |colors| :: r[k] == GgScore(target, colors[j]))
  {
    var s := GgScores(target, colors);
    var r := Rank(s, limit);
    RankOrdered(s, limit);
    if k < |r| {
      assert r[k] in multiset(s);
      var j :| 0 <= j < |s| && s[j] == r[k];
    }
  }

  const MissingCode := "Missing required query param: code"

  /** `GET /api/gg/formula` up to the vendor request: the code and category it asks for. */
  function GgFormulaRoute(codeQ: Option<string>, categoryQ: Option<string>): (r: Reply<(string, string)>)
    ensures codeQ.None? || codeQ.value == [] ==> r == Fail(400, MissingCode)
    ensures codeQ.Some? && codeQ.value != [] && CategoryParam(categoryQ).Err? ==> r == Fail(400, BadCategory)
    ensures codeQ.Some? && codeQ.value != [] && CategoryParam(categoryQ).Ok? ==>
      r == Sent((codeQ.value, CategoryParam(categoryQ).value))
  {
    if codeQ.None? || codeQ.value == [] then Fail(400, MissingCode)
    else
      match CategoryParam(categoryQ)
      case Err(e) => Fail(400, e)
      case Ok(cat) => Sent((codeQ.value, cat))
  }

  // ------------------------------------------------------------------
  // GET /api/fnink/match and GET /api/icc/match

  /** A vendor record whose `hex`, where truthy, is a string that is `#RRGGBB` once
      `#` is added. */
  predicate HexUsable(f: Json) {
    StrOrFalsy(Get(f, "hex")) && (Truthy(Get(f, "hex")) ==> IsHashHex(WithHash(Get(f, "hex").value.s)))
  }

  /** `f.hex.startsWith("#") ? f.hex : "#" + f.hex` */
  function RecordHex(f: Json): (h: string)
    requires HexUsable(f) && Truthy(Get(f, "hex"))
    ensures IsHashHex(h) && h == WithHash(Get(f, "hex").value.s)
  {
    WithHash(Get(f, "hex").value.s)
  }

  datatype FnInkMatch = FnInkMatch(id: Option<Json>, code: Option<Json>, name: Option<Json>, hex: string,
                                   formula: Option<Json>)

  /** The mapped entry of one FN-INK colour: `null` when its hex is empty.  On a `null`
      colour `c.hex` throws instead (see `FnInkRoute`). */
  function FnInkCandidate(target: Rgb, c: Json): (m: Option<Scored<FnInkMatch>>)
    requires HexUsable(c) && c != JNull
    ensures m.Some? <==> Truthy(Get(c, "hex"))
    ensures m.Some? ==>
      m.value.item == FnInkMatch(Get(c, "id"), Get(c, "code"), Get(c, "name"), RecordHex(c), Get(c, "formula"))
      && m.value.distance == Hundredths(DistanceSq(target, HexToRgb(RecordHex(c))))
  {
    if !Truthy(Get(c, "hex")) then None
    else
      var h := RecordHex(c);
      Some(Scored(FnInkMatch(Get(c, "id"), Get(c, "code"), Get(c, "name"), h, Get(c, "formula")),
                  Hundredths(DistanceSq(target, HexToRgb(h)))))
  }

  function FnInkCandidates(target: Rgb, colors: seq<Json>): (cs: seq<Option<Scored<FnInkMatch>>>)
    requires JNull !in colors && forall i | 0 <= i < |colors| :: HexUsable(colors[i])
    ensures |cs| == |colors| && forall i | 0 <= i < |colors| :: cs[i] == FnInkCandidate(target, colors[i])
  {
    seq(|colors|, i requires 0 <= i < |colors| => FnInkCandidate(target, colors[i]))
  }

  /** The reply of the FN-INK match. */
  function FnInkResults(target: Rgb, colors: seq<Json>, limit: int): (r: seq<Scored<FnInkMatch>>)
    requires JNull !in colors && forall i | 0 <= i < |colors| :: HexUsable(colors[i])
    ensures 0 <= limit ==> |r| == Min(limit, |Collect(FnInkCandidates(target, colors))|)
  {
    RankCandidates(FnInkCandidates(target, colors), limit)
  }

  const FnInkFailed := "Failed to fetch FN-INK colors"

  /** `GET /api/fnink/match`: `colors` is what `getAllFnInkColors` returned.  A `null`
      colour makes the mapping throw, and the `catch` replies 502. */
  function FnInkRoute(hexQ: Option<string>, limitQ: Option<string>, colors: seq<Json>): (r: Reply<seq<Scored<FnInkMatch>>>)
    requires forall i | 0 <= i < |colors| :: HexUsable(colors[i])
    ensures ParseHex(hexQ).Err? ==> r == Fail(400, ParseHex(hexQ).message)
    ensures ParseHex(hexQ).Ok? && JNull in colors ==> r == Fail(502, FnInkFailed)
    ensures ParseHex(hexQ).Ok? && JNull !in colors ==>
      r == Sent(FnInkResults(HexToRgb(ParseHex(hexQ).value), colors, ClampedLimit(limitQ, 1, 50, 10)))
  {
    match ParseHex(hexQ)
    case Err(e) => Fail(400, e)
    case Ok(normHex) =>
      if JNull in colors then Fail(502, FnInkFailed)
      else Sent(FnInkResults(HexToRgb(normHex), colors, ClampedLimit(limitQ, 1, 50, 10)))
  }

  lemma FnInkResultsSorted(target: Rgb, colors: seq<Json>, limit: int)
    requires JNull !in colors && forall i | 0 <= i < |colors| :: HexUsable(colors[i])
    ensures Sorted(FnInkResults(target, colors, limit), ByDistance)
  {
    RankCandidatesFacts(FnInkCandidates(target, colors), limit);
  }

  /** Every FN-INK entry is a colour with a hex, `#` added where it was missing. */
  lemma FnInkResultFrom(target: Rgb, colors: seq<Json>, limit: int, k: nat)
    requires JNull !in colors && forall i | 0 <= i < |colors| :: HexUsable(colors[i])
    requires k < |FnInkResults(target, colors, limit)|
    ensures var e := FnInkResults(target, colors, limit)[k];
      exists j | 0 <= j < |colors| :: Truthy(Get(colors[j], "hex")) && FnInkCandidate(target, colors[j]) == Some(e)
  {
    var cs := FnInkCandidates(target, colors);
    RankCandidatesFacts(cs, limit);
    var e := FnInkResults(target, colors, limit)[k];
    assert Some(e) in cs;
    var j :| 0 <= j < |cs| && cs[j] == Some(e);
    var c := FnInkCandidate(target, colors[j]);
    assert c == cs[j];
    assert c.Some? && Truthy(Get(colors[j], "hex"));
  }

  const DefaultFamily := "7500 Coated"

  /** `family || "7500 Coated"` */
  function FamilyName(q: Option<string>): (f: string)
    ensures q.Some? && q.value != [] ==> f == q.value
    ensures q.None? || q.value == [] ==> f == DefaultFamily
  {
    if q.None? || q.value == [] then DefaultFamily else q.value
  }

  datatype IccMatch = IccMatch(id: Option<Json>, code: Option<Json>, name: Option<Json>, hex: string,
                               family: string, lines: Json)

  /** The mapped entry of one ICC formula: `null` when its hex is empty; the id
      defaults to the code and the lines to `[]`.  On a `null` formula `f.hex` throws
      instead (see `IccRoute`). */
  function IccCandidate(target: Rgb, family: string, f: Json): (m: Option<Scored<IccMatch>>)
    requires HexUsable(f) && f != JNull
    ensures m.Some? <==> Truthy(Get(f, "hex"))
    ensures m.Some? ==> var e := m.value.item;
      e.hex == RecordHex(f) && e.family == family && e.code == Get(f, "code") && e.name == Get(f, "name")
      && (Truthy(Get(f, "id")) ==> e.id == Get(f, "id")) && (!Truthy(Get(f, "id")) ==> e.id == Get(f, "code"))
      && (Truthy(Get(f, "lines")) ==> e.lines == Get(f, "lines").value)
      && (!Truthy(Get(f, "lines")) ==> e.lines == JArr([]))
      && m.value.distance == Hundredths(DistanceSq(target, HexToRgb(RecordHex(f))))
  {
    if !Truthy(Get(f, "hex")) then None
    else
      var h := RecordHex(f);
      Some(Scored(IccMatch(Or(Get(f, "id"), Get(f, "code")), Get(f, "code"), Get(f, "name"), h, family,
                           Or(Get(f, "lines"), Some(JArr([]))).value),
                  Hundredths(DistanceSq(target, HexToRgb(h)))))
  }

  function IccCandidates(target: Rgb, family: string, fs: seq<Json>): (cs: seq<Option<Scored<IccMatch>>>)
    requires JNull !in fs && forall i | 0 <= i < |fs| :: HexUsable(fs[i])
    ensures |cs| == |fs| && forall i | 0 <= i < |fs| :: cs[i] == IccCandidate(target, family, fs[i])
  {
    seq(|fs|, i requires 0 <= i < |fs| => IccCandidate(target, family, fs[i]))
  }

  /** The reply of the ICC match. */
  function IccResults(target: Rgb, family: string, fs: seq<Json>, limit: int): (r: seq<Scored<IccMatch>>)
    requires JNull !in fs && forall i | 0 <= i < |fs| :: HexUsable(fs[i])
    ensures 0 <= limit ==> |r| == Min(limit, |Collect(IccCandidates(target, family, fs))|)
  {
    RankCandidates(IccCandidates(target, family, fs), limit)
  }

  const IccFailed := "Failed to match ICC formulas"

  /** `GET /api/icc/match`: `formulasOf(family)` is what `getIccFormulas` returned.  A
      `null` formula makes the mapping throw, and the `catch` replies 500. */
  function IccRoute(hexQ: Option<string>, familyQ: Option<string>, limitQ: Option<string>,
                    formulasOf: string -> Option<seq<Json>>): (r: Reply<seq<Scored<IccMatch>>>)
    requires var fs := formulasOf(FamilyName(familyQ));
      fs.Some? ==> forall i | 0 <= i < |fs.value| :: HexUsable(fs.value[i])
    ensures ParseHex(hexQ).Err? ==> r == Fail(400, ParseHex(hexQ).message)
    ensures ParseHex(hexQ).Ok? && formulasOf(FamilyName(familyQ)).None? ==>
      r == Fail(404, "No ICC data for family: " + FamilyName(familyQ))
    ensures ParseHex(hexQ).Ok? && formulasOf(FamilyName(familyQ)).Some? && JNull in formulasOf(FamilyName(familyQ)).value ==>
      r == Fail(500, IccFailed)
    ensures ParseHex(hexQ).Ok? && formulasOf(FamilyName(familyQ)).Some? && JNull !in formulasOf(FamilyName(familyQ)).value ==>
      r == Sent(IccResults(HexToRgb(ParseHex(hexQ).value), FamilyName(familyQ),
                           formulasOf(FamilyName(familyQ)).value, ClampedLimit(limitQ, 1, 50, 10)))
  {
    match ParseHex(hexQ)
    case Err(e) => Fail(400, e)
    case Ok(normHex) =>
      var family := FamilyName(familyQ);
      var limit := ClampedLimit(limitQ, 1, 50, 10);
      match formulasOf(family)
      case None => Fail(404, "No ICC data for family: " + family)
      case Some(fs) =>
        if JNull in fs then Fail(500, IccFailed)
        else Sent(IccResults(HexToRgb(normHex), family, fs, limit))
  }

  lemma IccResultsSorted(target: Rgb, family: string, fs: seq<Json>, limit: int)
    requires JNull !in fs && forall i | 0 <= i < |fs| :: HexUsable(fs[i])
    ensures Sorted(IccResults(target, family, fs, limit), ByDistance)
  {
    RankCandidatesFacts(IccCandidates(target, family, fs), limit);
  }

  /** Every ICC entry is a formula with a hex, tagged with the family asked for. */
  lemma IccResultFrom(target: Rgb, family: string, fs: seq<Json>, limit: int, k: nat)
    requires JNull !in fs && forall i | 0 <= i < |fs| :: HexUsable(fs[i])
    requires k < |IccResults(target, family, fs, limit)|
    ensures var e := IccResults(target, family, fs, limit)[k];
      e.item.family == family
      && exists j | 0 <= j < |fs| :: Truthy(Get(fs[j], "hex")) && IccCandidate(target, family, fs[j]) == Some(e)
  {
    var cs := IccCandidates(target, family, fs);
    RankCandidatesFacts(cs, limit);
    var e := IccResults(target, family, fs, limit)[k];
    assert Some(e) in cs;
    var j :| 0 <= j < |cs| && cs[j] == Some(e);
    assert IccCandidate(target, family, fs[j]) == Some(e);
  }
}
