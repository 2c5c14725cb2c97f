/** `scripts/seed-icc.js`: downloads the ICC UltraMix 7500 Coated formulas into a
    local JSON file.  It discovers the formula IDs from a page's dropdown, fetches
    each formula that is not already in the file, turns it into a record whose hex
    comes from the Pantone swatch map, and writes the list out every 50 formulas and
    once at the end.  The pages, the regular-expression matches on them and the
    files read are parameters; what is written is returned. */
module SeedIcc {
  import opened Wrappers
  import opened JsText
  import opened JsonValue
  import opened Lists
  import opened StableSort
  import opened SwatchNames
  import PatchIccHex

  // ------------------------------------------------------------------
  // resolveHex

  /** `resolveHex(formulaName, swatchMap)`: `null` for a falsy name, otherwise the
      lookup chain on the upper-cased, trimmed name.  Unlike the function of the same
      name in `scripts/patch-icc-hex.js` it has no specialty table and cuts no date
      suffix. */
  function ResolveHex(formulaName: Option<Json>, m: NameMap): Option<Json>
    requires StrOrFalsy(formulaName)
  {
    if !Truthy(formulaName) then Some(JNull) else Lookup(m, UpperKey(formulaName.value.s))
  }

  /** A falsy name resolves to `null`; any other name to the value stored under the
      first of its variants the map has, or `null` when it has none. */
  lemma ResolveHexCases(formulaName: Option<Json>, m: NameMap)
    requires StrOrFalsy(formulaName)
    ensures !Truthy(formulaName) ==> ResolveHex(formulaName, m) == Some(JNull)
    ensures Truthy(formulaName) ==>
      var vs := Variants(UpperKey(formulaName.value.s));
      ((forall i | 0 <= i < |vs| :: vs[i] !in m) ==> ResolveHex(formulaName, m) == Some(JNull))
      && forall i | 0 <= i < |vs| && vs[i] in m && (forall j | 0 <= j < i :: vs[j] !in m) ::
           ResolveHex(formulaName, m) == m[vs[i]]
  {
    if Truthy(formulaName) {
      LookupCases(m, UpperKey(formulaName.value.s));
    }
  }

  /** Where the patch script finds no specialty and cuts nothing off the name, both
      scripts resolve a name alike. */
  lemma ResolveHexAgrees(formulaName: Option<Json>, m: NameMap)
    requires StrOrFalsy(formulaName)
    requires Truthy(formulaName) ==>
      PatchIccHex.Specialty(UpperKey(formulaName.value.s)).None?
      && PatchIccHex.Cleaned(UpperKey(formulaName.value.s)) == UpperKey(formulaName.value.s)
    ensures ResolveHex(formulaName, m) == PatchIccHex.ResolveHex(formulaName, m)
  {
  }

  // ------------------------------------------------------------------
  // discoverFormulaIds

  /** The captures of `/<option\s+value="(\d+)"/g` on the dropdown page. */
  predicate AllDigitStrings(matches: seq<string>) {
    forall i | 0 <= i < |matches| :: matches[i] != [] && AllDigits(matches[i])
  }

  /** The IDs the loop pushes, in the order of the page: each positive value once. */
  function FoundIds(matches: seq<string>): seq<nat>
    requires AllDigitStrings(matches)
  {
    if matches == [] then []
    else
      var prev := FoundIds(matches[..|matches| - 1]);
      var id := DigitsValue(matches[|matches| - 1], false);
      if id > 0 && id !in prev then prev + [id] else prev
  }

  /** `(a, b) => a - b` as an order. */
  function IdLe(a: nat, b: nat): bool { a <= b }

  /** What `discoverFormulaIds` returns. */
  function FormulaIds(matches: seq<string>): seq<nat>
    requires AllDigitStrings(matches)
  {
    Sort(FoundIds(matches), IdLe)
  }

  /** A value some capture on the page reads as. */
  predicate OnPage(matches: seq<string>, n: nat)
    requires AllDigitStrings(matches)
  {
    exists i | 0 <= i < |matches| :: DigitsValue(matches[i], false) == n
  }

  lemma {:induction false} FoundIdsFacts(matches: seq<string>)
    requires AllDigitStrings(matches)
    ensures NoDups(FoundIds(matches))
    ensures forall n: nat :: n in FoundIds(matches) <==> n > 0 && OnPage(matches, n)
  {
    if matches != [] {
      var init := matches[..|matches| - 1];
      FoundIdsFacts(init);
      forall n: nat ensures OnPage(matches, n) <==> OnPage(init, n) || DigitsValue(matches[|matches| - 1], false) == n {
        if OnPage(init, n) {
          var i :| 0 <= i < |init| && DigitsValue(init[i], false) == n;
          assert matches[i] == init[i];
        }
      }
    }
  }

  /** The IDs come out strictly ascending, so without duplicates; they are exactly
      the positive values on the page. */
  lemma FormulaIdsFacts(matches: seq<string>)
    requires AllDigitStrings(matches)
    ensures var ids := FormulaIds(matches);
      (forall i, j | 0 <= i < j < |ids| :: ids[i] < ids[j])
      && forall n: nat :: n in ids <==> n > 0 && OnPage(matches, n)
  {
    var found, ids := FoundIds(matches), FormulaIds(matches);
    FoundIdsFacts(matches);
    assert TotalPreorder(IdLe);
    SortSorted(found, IdLe);
    PermutationNoDups(ids, found);
    forall n: nat ensures n in ids <==> n in found {
      assert n in ids <==> n in multiset(ids);
      assert n in found <==> n in multiset(found);
    }
  }

  /** `discoverFormulaIds()` once the page is fetched: `matches` are the captured
      digit strings, in page order. */
  method DiscoverFormulaIds(matches: seq<string>) returns (ids: seq<nat>)
    requires AllDigitStrings(matches)
    ensures ids == FormulaIds(matches)
    ensures forall i, j | 0 <= i < j < |ids| :: ids[i] < ids[j]
    ensures forall n: nat :: n in ids <==> n > 0 && OnPage(matches, n)
  {
    var found: seq<nat> := [];
    for k := 0 to |matches|
      invariant found == FoundIds(matches[..k])
    {
      ParseIntDecimalDigits(matches[k]);
      var id := ParseInt(matches[k], Decimal).value;
      if id > 0 && id !in found {
        found := found + [id];
      }
      assert matches[..k + 1][..k] == matches[..k];
    }
    assert matches[..|matches|] == matches;
    ids := Sort(found, IdLe);
    FormulaIdsFacts(matches);
  }

  // ------------------------------------------------------------------
  // extractFromHtml

  /** `cells[k]`, `undefined` past the end. */
  function Cell(cells: seq<string>, k: nat): Option<string> {
    if k < |cells| then Some(cells[k]) else None
  }

  /** `parseFloat(c) || 0`: NaN and zero give zero. */
  function FloatOrZero(c: Option<string>): real {
    if c.Some? && ParseFloat(c.value).Some? then ParseFloat(c.value).value else 0.0
  }

  /** `parseFloat(cells[2]) || parseFloat(cells[1]) || 0` */
  function RowPercent(cells: seq<string>): real {
    if FloatOrZero(Cell(cells, 2)) != 0.0 then FloatOrZero(Cell(cells, 2)) else FloatOrZero(Cell(cells, 1))
  }

  /** A formula line as both scripts write it. */
  function LineObject(partNumber: Json, name: Json, percent: Json, weight: Json, category: Json, density: Json): Json {
    JObj(map[
      "part_number" := partNumber, "name" := name, "percent" := percent,
      "weight" := weight, "category" := category, "density" := density])
  }

  /** The fields of a line object, and the alternative names it does not carry. */
  lemma LineFields(partNumber: Json, name: Json, percent: Json, weight: Json, category: Json, density: Json)
    ensures var l := LineObject(partNumber, name, percent, weight, category, density);
      Get(l, "part_number") == Some(partNumber) && Get(l, "name") == Some(name)
      && Get(l, "percent") == Some(percent) && Get(l, "weight") == Some(weight)
      && Get(l, "category") == Some(category) && Get(l, "density") == Some(density)
      && Get(l, "partNumber").None? && Get(l, "component_name").None? && Get(l, "percentage").None?
      && Get(l, "grams").None? && Get(l, "type").None?
  {
    var l := LineObject(partNumber, name, percent, weight, category, density);
    assert "partNumber" != "part_number" && "partNumber" != "name" && "partNumber" != "percent";
    assert "component_name" != "category" && "percentage" != "percent" && "grams" != "name";
    assert "type" != "name" && "type" != "weight" && "type" != "category";
  }

  /** The formula line one table row gives, or `None` when the row has fewer than
      three cells or no positive percentage. */
  function HtmlLine(cells: seq<string>): Option<Json> {
    if |cells| >= 3 && RowPercent(cells) > 0.0 then
      Some(LineObject(JStr(cells[0]), JStr(if cells[1] != [] then cells[1] else cells[0]),
        JNum(RowPercent(cells)), JNum(FloatOrZero(Cell(cells, 3))), JStr(Cell(cells, 4).GetOr([])),
        JNum(FloatOrZero(Cell(cells, 5)))))
    else None
  }

  /** The lines of the rows, in row order. */
  function HtmlLines(rows: seq<seq<string>>): seq<Json> {
    Kept(rows, HtmlLine)
  }

  /** The heading's text, or `Formula <id>` when the page has no heading. */
  function HtmlName(heading: Option<string>, formulaId: nat): string {
    if heading.Some? then heading.value else "Formula " + DecimalString(formulaId)
  }

  function HtmlData(heading: Option<string>, rows: seq<seq<string>>, formulaId: nat): Json {
    JObj(map["name" := JStr(HtmlName(heading, formulaId)), "lines" := JArr(HtmlLines(rows))])
  }

  /** One more row adds its line, if it gives one, at the end. */
  lemma HtmlLinesStep(rows: seq<seq<string>>, i: nat)
    requires i < |rows|
    ensures HtmlLines(rows[..i + 1]) == HtmlLines(rows[..i]) + if HtmlLine(rows[i]).Some? then [HtmlLine(rows[i]).value] else []
  {
    assert rows[..i + 1][..i] == rows[..i];
  }

  /** `extractFromHtml(html, formulaId)`: `heading` is the text of the first `<h1>`
      to `<h4>` with its tags stripped and trimmed, `rows` the stripped, trimmed
      cells of each `<tr>`. */
  method ExtractFromHtml(heading: Option<string>, rows: seq<seq<string>>, formulaId: nat) returns (data: Json)
    ensures data == HtmlData(heading, rows, formulaId)
  {
    var name := if heading.Some? then heading.value else "Formula " + DecimalString(formulaId);
    var lines: seq<Json> := [];
    for i := 0 to |rows|
      invariant lines == HtmlLines(rows[..i])
    {
      var cells := rows[i];
      HtmlLinesStep(rows, i);
      // the row's two tests (three cells, a positive percentage) are HtmlLine's
      var line := HtmlLine(cells);
      if line.Some? {
        lines := lines + [line.value];
      }
    }
    assert rows[..|rows|] == rows;
    data := JObj(map["name" := JStr(name), "lines" := JArr(lines)]);
  }

  /** A line with a positive percentage. */
  predicate PositivePercent(line: Json) {
    IsNum(Get(line, "percent")) && Get(line, "percent").value.n > 0.0
  }

  /** A row gives a line exactly when it has three cells and a positive percentage,
      and the line carries that percentage. */
  lemma HtmlLineKept(cells: seq<string>)
    ensures HtmlLine(cells).Some? <==> |cells| >= 3 && RowPercent(cells) > 0.0
    ensures HtmlLine(cells).Some? ==>
      PositivePercent(HtmlLine(cells).value) && Get(HtmlLine(cells).value, "percent") == Some(JNum(RowPercent(cells)))
  {
    if |cells| >= 3 && RowPercent(cells) > 0.0 {
      var c := cells;
      LineFields(JStr(c[0]), JStr(if c[1] != [] then c[1] else c[0]), JNum(RowPercent(c)),
        JNum(FloatOrZero(Cell(c, 3))), JStr(Cell(c, 4).GetOr([])), JNum(FloatOrZero(Cell(c, 5))));
    }
  }

  /** Every line comes from a row with at least three cells and carries a positive
      percentage; every such row with a positive percentage gives a line. */
  lemma HtmlLinesFacts(rows: seq<seq<string>>)
    ensures var lines := HtmlLines(rows);
      (forall k | 0 <= k < |lines| :: PositivePercent(lines[k])
         && exists i | 0 <= i < |rows| :: |rows[i]| >= 3 && HtmlLine(rows[i]) == Some(lines[k]))
      && forall i | 0 <= i < |rows| && |rows[i]| >= 3 && RowPercent(rows[i]) > 0.0 ::
           HtmlLine(rows[i]).Some? && HtmlLine(rows[i]).value in lines
  {
    var lines := HtmlLines(rows);
    KeptFrom(rows, HtmlLine);
    KeptComplete(rows, HtmlLine);
    forall k | 0 <= k < |lines|
      ensures PositivePercent(lines[k]) && exists i | 0 <= i < |rows| :: |rows[i]| >= 3 && HtmlLine(rows[i]) == Some(lines[k])
    {
      var i :| 0 <= i < |rows| && HtmlLine(rows[i]) == Some(lines[k]);
      HtmlLineKept(rows[i]);
    }
    forall i | 0 <= i < |rows| && |rows[i]| >= 3 && RowPercent(rows[i]) > 0.0
      ensures HtmlLine(rows[i]).Some? && HtmlLine(rows[i]).value in lines
    {
      HtmlLineKept(rows[i]);
    }
  }

  // ------------------------------------------------------------------
  // The record written for a formula

  /** `parseFloat(v)`, which reads `String(v)`: a number is itself, a string is
      parsed, and `null`, booleans and objects read as NaN (`None`).  An array is
      joined with commas, its `null` and empty elements giving empty text, and
      `parseFloat` stops at the first comma (`ParseFloatStopsAtComma`), so an array
      reads as its first element, and an empty one as NaN. */
  function FloatOf(v: Json): Option<real> {
    match v
    case JNum(x) => Some(x)
    case JStr(t) => ParseFloat(t)
    case JArr(items) => if items == [] then None else FloatOf(items[0])
    case _ => None
  }

  /** An array whose first element is the text `t` reads as `parseFloat` does on the
      joined text, whatever `tail` the later elements join to. */
  lemma FloatOfTextArray(t: string, more: seq<Json>, tail: string)
    ensures more == [] ==> FloatOf(JArr([JStr(t)] + more)) == ParseFloat(t)
    ensures more != [] ==> FloatOf(JArr([JStr(t)] + more)) == ParseFloat(t + "," + tail)
  {
    var a := [JStr(t)] + more;
    assert a[0] == JStr(t);
    assert FloatOf(JArr(a)) == ParseFloat(t);
    ParseFloatStopsAtComma(t, tail);
  }

  /** `parseFloat([5])` is 5 and `parseFloat([1, 2])`, which reads `"1,2"`, is 1;
      `parseFloat([])` and `parseFloat([null, 3])`, which read `""` and `",3"`, are NaN. */
  lemma FloatOfArrayExamples()
    ensures FloatOf(JArr([JNum(5.0)])) == Some(5.0)
    ensures FloatOf(JArr([JNum(1.0), JNum(2.0)])) == Some(1.0)
    ensures FloatOf(JArr([])) == None && FloatOf(JArr([JNull, JNum(3.0)])) == None
  {
    assert [JNum(5.0)][0] == JNum(5.0);
    assert [JNum(1.0), JNum(2.0)][0] == JNum(1.0);
    assert [JNull, JNum(3.0)][0] == JNull;
  }

  /** A number as `JSON.stringify` writes it: NaN becomes `null`. */
  function NumOrNull(x: Option<real>): Json {
    if x.Some? then JNum(x.value) else JNull
  }

  /** `a || b || d` for a default `d` that is present. */
  function Either(a: Option<Json>, b: Option<Json>, d: Json): Json {
    Or(Or(a, b), Some(d)).GetOr(d)
  }

  /** The `lines.map` callback: each field under its name or its alternative name,
      with the numbers put through `parseFloat`. */
  function NormalLine(l: Json): Json
    requires l != JNull
  {
    LineObject(
      Either(Get(l, "part_number"), Get(l, "partNumber"), JStr("")),
      Either(Get(l, "name"), Get(l, "component_name"), JStr("")),
      NumOrNull(FloatOf(Either(Get(l, "percent"), Get(l, "percentage"), JNum(0.0)))),
      NumOrNull(FloatOf(Either(Get(l, "weight"), Get(l, "grams"), JNum(0.0)))),
      Either(Get(l, "category"), Get(l, "type"), JStr("")),
      NumOrNull(FloatOf(Either(Get(l, "density"), None, JNum(0.0)))))
  }

  predicate NoNulls(items: seq<Json>) {
    forall i | 0 <= i < |items| :: items[i] != JNull
  }

  function NormalLines(items: seq<Json>): (r: seq<Json>)
    requires NoNulls(items)
    ensures |r| == |items| && forall i | 0 <= i < |items| :: r[i] == NormalLine(items[i])
  {
    seq(|items|, i requires 0 <= i < |items| => NormalLine(items[i]))
  }

  /** A line with string texts and numeric amounts is written back unchanged. */
  lemma NormalLineFixed(partNumber: string, name: string, percent: real, weight: real, category: string, density: real)
    ensures var l := LineObject(JStr(partNumber), JStr(name), JNum(percent), JNum(weight), JStr(category), JNum(density));
      NormalLine(l) == l
  {
    var a, b, p, w, k, d := JStr(partNumber), JStr(name), JNum(percent), JNum(weight), JStr(category), JNum(density);
    LineFields(a, b, p, w, k, d);
    assert Either(Some(a), None, JStr("")) == a;
    assert Either(Some(b), None, JStr("")) == b;
    assert Either(Some(k), None, JStr("")) == k;
    assert NumOrNull(FloatOf(Either(Some(p), None, JNum(0.0)))) == p;
    assert NumOrNull(FloatOf(Either(Some(w), None, JNum(0.0)))) == w;
    assert NumOrNull(FloatOf(Either(Some(d), None, JNum(0.0)))) == d;
  }

  /** The lines read from a table are none of them `null`, and are written back
      unchanged. */
  lemma HtmlLinesNormal(rows: seq<seq<string>>)
    ensures NoNulls(HtmlLines(rows)) && NormalLines(HtmlLines(rows)) == HtmlLines(rows)
  {
    var lines := HtmlLines(rows);
    KeptFrom(rows, HtmlLine);
    forall k | 0 <= k < |lines| ensures lines[k] != JNull && NormalLine(lines[k]) == lines[k] {
      var i :| 0 <= i < |rows| && HtmlLine(rows[i]) == Some(lines[k]);
      var c := rows[i];
      NormalLineFixed(c[0], if c[1] != [] then c[1] else c[0], RowPercent(c),
        FloatOrZero(Cell(c, 3)), Cell(c, 4).GetOr([]), FloatOrZero(Cell(c, 5)));
    }
  }

  /** The record pushed to `results`. */
  function Record(id: nat, name: string, hex: Option<Json>, lines: seq<Json>): Json {
    JObj(map[
      "id" := JStr(DecimalString(id)), "code" := JStr(name), "name" := JStr(name),
      "hex" := (if Truthy(hex) then hex.value else JNull), "family" := JStr("7500 Coated"),
      "lines" := JArr(lines)])
  }

  lemma RecordFields(id: nat, name: string, hex: Option<Json>, lines: seq<Json>)
    ensures var r := Record(id, name, hex, lines);
      Get(r, "id") == Str(DecimalString(id)) && Get(r, "code") == Str(name) && Get(r, "name") == Str(name)
      && Get(r, "hex") == Some(if Truthy(hex) then hex.value else JNull)
      && Get(r, "family") == Str("7500 Coated") && Get(r, "lines") == Some(JArr(lines))
  {
  }

  /** `data.name || data.formula_name || `Formula ${id}`` */
  function RecordName(id: nat, data: Json): Json {
    Either(Get(data, "name"), Get(data, "formula_name"), JStr("Formula " + DecimalString(id)))
  }

  /** A name that is a string is never empty: an empty one falls through to the next. */
  lemma RecordNameNonEmpty(id: nat, data: Json)
    requires RecordName(id, data).JStr?
    ensures RecordName(id, data).s != []
  {
    var a, b := Get(data, "name"), Get(data, "formula_name");
    if !Truthy(a) && !Truthy(b) {
      assert RecordName(id, data) == JStr("Formula " + DecimalString(id));
    }
  }

  /** `data.lines || data.formula_lines || []` */
  function RecordLines(data: Json): Json {
    Either(Get(data, "lines"), Get(data, "formula_lines"), JArr([]))
  }

  /** Whether building the record goes through: `toUpperCase` needs a string name,
      `map` an array of lines, and each line must not be `null`. */
  predicate Buildable(id: nat, data: Json) {
    RecordName(id, data).JStr? && RecordLines(data).JArr? && NoNulls(RecordLines(data).items)
  }

  /** The record for formula `id` once `data` is extracted, or `None` when building
      it throws (the `catch` counts an error and pushes nothing). */
  function NewRecord(id: nat, data: Json, m: NameMap): Option<Json> {
    if Buildable(id, data) then
      var name := RecordName(id, data);
      Some(Record(id, name.s, ResolveHex(Some(name), m), NormalLines(RecordLines(data).items)))
    else None
  }

  /** The record carries the formula's ID as a string, the family, the name twice,
      `null` for a name the swatches do not resolve, and one normalised line per
      line of the data; it is built exactly when the data allows it. */
  lemma RecordShape(id: nat, data: Json, m: NameMap)
    ensures NewRecord(id, data, m).Some? <==> Buildable(id, data)
    ensures NewRecord(id, data, m).Some? ==>
      var r, name, items := NewRecord(id, data, m).value, RecordName(id, data), RecordLines(data).items;
      var hex := ResolveHex(Some(name), m);
      Get(r, "id") == Str(DecimalString(id)) && Get(r, "family") == Str("7500 Coated")
      && Get(r, "code") == Some(name) && Get(r, "name") == Some(name) && name.s != []
      && (Get(r, "hex") == Some(JNull) <==> !Truthy(hex) || hex == Some(JNull))
      && (Truthy(hex) ==> Get(r, "hex") == hex)
      && Get(r, "lines") == Some(JArr(NormalLines(items)))
  {
    if Buildable(id, data) {
      var name := RecordName(id, data);
      var hex := ResolveHex(Some(name), m);
      var lines := NormalLines(RecordLines(data).items);
      assert NewRecord(id, data, m) == Some(Record(id, name.s, hex, lines));
      RecordNameNonEmpty(id, data);
      RecordFields(id, name.s, hex, lines);
    }
  }

  lemma HtmlDataFields(heading: Option<string>, rows: seq<seq<string>>, id: nat)
    ensures var data := HtmlData(heading, rows, id);
      Get(data, "name") == Str(HtmlName(heading, id)) && Get(data, "lines") == Some(JArr(HtmlLines(rows)))
      && Get(data, "formula_name").None? && Get(data, "formula_lines").None?
  {
    assert "formula_name" != "name" && "formula_name" != "lines";
    assert "formula_lines" != "name" && "formula_lines" != "lines";
  }

  /** A formula read from a table page becomes a record with exactly the table's
      lines, named after the heading, or `Formula <id>` when there is none or it is
      empty. */
  lemma HtmlRecord(heading: Option<string>, rows: seq<seq<string>>, id: nat, m: NameMap)
    ensures var name := if HtmlName(heading, id) != [] then HtmlName(heading, id) else "Formula " + DecimalString(id);
      NewRecord(id, HtmlData(heading, rows, id), m)
        == Some(Record(id, name, ResolveHex(Str(name), m), HtmlLines(rows)))
  {
    var data := HtmlData(heading, rows, id);
    HtmlDataFields(heading, rows, id);
    HtmlLinesNormal(rows);
    var name := if HtmlName(heading, id) != [] then HtmlName(heading, id) else "Formula " + DecimalString(id);
    assert RecordName(id, data) == JStr(name);
    assert RecordLines(data) == JArr(HtmlLines(rows));
  }

  // ------------------------------------------------------------------
  // main

  /** What fetching a formula's page gives: the request fails, or the page is read
      and `extractFormulaData` returns `data`. */
  datatype Page = Unreachable | Loaded(data: Json)

  /** The variables of `main`'s loop, and every list `writeFileSync` was given. */
  datatype SeedState = SeedState(
    results: seq<Json>, seen: set<Option<Json>>, fetched: nat, skipped: nat, errors: nat,
    writes: seq<seq<Json>>)

  /** `f.id || f.code`, the key `existingIds` keeps for a record of the file. */
  function IdOf(f: Json): Option<Json> {
    Or(Get(f, "id"), Get(f, "code"))
  }

  function IdSet(fs: seq<Json>): set<Option<Json>> {
    if fs == [] then {} else IdSet(fs[..|fs| - 1]) + {IdOf(fs[|fs| - 1])}
  }

  lemma {:induction false} IdSetHas(fs: seq<Json>)
    ensures forall i | 0 <= i < |fs| :: IdOf(fs[i]) in IdSet(fs)
  {
    if fs != [] {
      var init := fs[..|fs| - 1];
      IdSetHas(init);
      forall i | 0 <= i < |init| ensures IdOf(fs[i]) in IdSet(fs) {
        assert fs[i] == init[i];
      }
    }
  }

  /** `existingIds.has(String(id)) || existingIds.has(id)` */
  predicate Skip(seen: set<Option<Json>>, id: nat) {
    Str(DecimalString(id)) in seen || Some(JNum(id as real)) in seen
  }

  /** What happens to one formula ID. */
  datatype Outcome = Skipped | Failed | Empty | Added(record: Json)

  /** What handling a formula that is not skipped comes to: the request fails, the
      data is falsy, building the record throws, or the record is added.  `build`
      builds the record from the data (`NewRecord` on the swatch map). */
  function Fetch(id: nat, page: Page, build: (nat, Json) -> Option<Json>): Outcome {
    match page
    case Unreachable => Failed
    case Loaded(data) =>
      if !Truthy(Some(data)) then Empty
      else match build(id, data)
        case None => Failed
        case Some(r) => Added(r)
  }

  function Builder(m: NameMap): (nat, Json) -> Option<Json> {
    (id: nat, data: Json) => NewRecord(id, data, m)
  }

  function Fetcher(pages: nat -> Page, build: (nat, Json) -> Option<Json>): nat -> Outcome {
    (id: nat) => Fetch(id, pages(id), build)
  }

  /** A formula added carries its ID as a string, so that a later run skips it. */
  lemma FetcherIds(pages: nat -> Page, m: NameMap)
    ensures var fetch := Fetcher(pages, Builder(m));
      forall id: nat | fetch(id).Added? :: IdOf(fetch(id).record) == Str(DecimalString(id))
  {
    var fetch := Fetcher(pages, Builder(m));
    forall id: nat | fetch(id).Added? ensures IdOf(fetch(id).record) == Str(DecimalString(id)) {
      if pages(id).Loaded? {
        RecordShape(id, pages(id).data, m);
      }
    }
  }

  function OutcomeOf(seen: set<Option<Json>>, id: nat, fetch: nat -> Outcome): Outcome {
    if Skip(seen, id) then Skipped else fetch(id)
  }

  /** The periodic save: after a formula is handled without an error, the list is
      written when `fetched + skipped` is a multiple of 50. */
  function Checkpoint(st: SeedState): SeedState {
    if (st.fetched + st.skipped) % 50 == 0 then st.(writes := st.writes + [st.results]) else st
  }

  /** One turn of the loop over the IDs, once the outcome is known. */
  function Step(st: SeedState, id: nat, o: Outcome): SeedState {
    match o
    case Skipped => st.(skipped := st.skipped + 1)
    case Failed => st.(errors := st.errors + 1)
    case Empty => Checkpoint(st)
    case Added(r) =>
      Checkpoint(st.(results := st.results + [r], seen := st.seen + {Str(DecimalString(id))},
                     fetched := st.fetched + 1))
  }

  /** The loop over `ids`, starting from `st`; `fetch(id)` is what handling formula
      `id` comes to when it is not skipped. */
  function Run(st: SeedState, ids: seq<nat>, fetch: nat -> Outcome): SeedState {
    if ids == [] then st
    else
      var prev, id := Run(st, ids[..|ids| - 1], fetch), ids[|ids| - 1];
      Step(prev, id, OutcomeOf(prev.seen, id, fetch))
  }

  /** Each ID's outcome judged against the IDs the file started with. */
  function Outcomes(seen: set<Option<Json>>, ids: seq<nat>, fetch: nat -> Outcome): (os: seq<Outcome>)
    ensures |os| == |ids|
  {
    if ids == [] then []
    else Outcomes(seen, ids[..|ids| - 1], fetch) + [OutcomeOf(seen, ids[|ids| - 1], fetch)]
  }

  lemma {:induction false} OutcomesAt(seen: set<Option<Json>>, ids: seq<nat>, fetch: nat -> Outcome, k: nat)
    requires k < |ids|
    ensures Outcomes(seen, ids, fetch)[k] == OutcomeOf(seen, ids[k], fetch)
  {
    var n := |ids| - 1;
    if k < n {
      OutcomesAt(seen, ids[..n], fetch, k);
    }
  }

  function AddedRecord(o: Outcome): Option<Json> {
    if o.Added? then Some(o.record) else None
  }

  /** The records the outcomes add, in order. */
  function Records(os: seq<Outcome>): seq<Json> {
    Kept(os, AddedRecord)
  }

  lemma NoDupsInit(ids: seq<nat>)
    requires NoDups(ids) && ids != []
    ensures NoDups(ids[..|ids| - 1]) && ids[|ids| - 1] !in ids[..|ids| - 1]
  {
    var n := |ids| - 1;
    forall i | 0 <= i < n ensures ids[..n][i] != ids[n] {
      assert ids[..n][i] == ids[i];
    }
  }

  /** Adding the string form of `id` changes the status of no other ID. */
  lemma SkipOthers(seen: set<Option<Json>>, id: nat, x: nat)
    requires x != id
    ensures Skip(seen + {Str(DecimalString(id))}, x) == Skip(seen, x)
  {
    if Str(DecimalString(x)) == Str(DecimalString(id)) {
      DecimalStringInjective(x, id);
    }
  }

  /** The run's results are the file's records followed by the new records in ID
      order; the counters count the outcomes; the IDs it did not get to keep their
      status. */
  lemma {:induction false} RunFacts(st: SeedState, ids: seq<nat>, fetch: nat -> Outcome)
    requires NoDups(ids)
    ensures var r, os := Run(st, ids, fetch), Outcomes(st.seen, ids, fetch);
      r.results == st.results + Records(os)
      && r.fetched == st.fetched + |Records(os)|
      && r.skipped == st.skipped + Count(os, Skipped)
      && r.errors == st.errors + Count(os, Failed)
      && forall x: nat | x !in ids :: Skip(r.seen, x) == Skip(st.seen, x)
  {
    if ids != [] {
      var n := |ids| - 1;
      var init, id := ids[..n], ids[n];
      NoDupsInit(ids);
      RunFacts(st, init, fetch);
      var prev, os := Run(st, init, fetch), Outcomes(st.seen, ids, fetch);
      assert OutcomeOf(prev.seen, id, fetch) == OutcomeOf(st.seen, id, fetch);
      assert os[..n] == Outcomes(st.seen, init, fetch);
      forall x: nat | x !in ids ensures Skip(Run(st, ids, fetch).seen, x) == Skip(st.seen, x) {
        SkipOthers(prev.seen, id, x);
      }
    }
  }

  /** A record some outcome adds is in the results, and so is its ID. */
  lemma AddedListed(results: seq<Json>, base: seq<Json>, os: seq<Outcome>, k: nat)
    requires results == base + Records(os)
    requires k < |os| && os[k].Added?
    ensures IdOf(os[k].record) in IdSet(results)
  {
    var rec := os[k].record;
    KeptComplete(os, AddedRecord);
    assert AddedRecord(os[k]) == Some(rec);
    var i :| 0 <= i < |Records(os)| && Records(os)[i] == rec;
    assert results[|base| + i] == rec;
    IdSetHas(results);
  }

  /** Running again on the file this run writes skips every formula it added: the
      script resumes where it stopped. */
  lemma Resumable(st: SeedState, ids: seq<nat>, fetch: nat -> Outcome)
    requires NoDups(ids)
    requires forall id: nat | fetch(id).Added? :: IdOf(fetch(id).record) == Str(DecimalString(id))
    ensures var os := Outcomes(st.seen, ids, fetch);
      forall k | 0 <= k < |ids| && os[k].Added? :: Skip(IdSet(Run(st, ids, fetch).results), ids[k])
  {
    var os, results := Outcomes(st.seen, ids, fetch), Run(st, ids, fetch).results;
    RunFacts(st, ids, fetch);
    forall k | 0 <= k < |ids| && os[k].Added? ensures Skip(IdSet(results), ids[k]) {
      OutcomesAt(st.seen, ids, fetch, k);
      assert os[k] == fetch(ids[k]);
      AddedListed(results, st.results, os, k);
    }
  }

  /** Every list written is a prefix of the results at that point: the saves only
      ever grow. */
  lemma {:induction false} RunWrites(st: SeedState, ids: seq<nat>, fetch: nat -> Outcome)
    requires forall k | 0 <= k < |st.writes| :: st.writes[k] <= st.results
    ensures var r := Run(st, ids, fetch);
      st.results <= r.results && st.writes <= r.writes
      && forall k | 0 <= k < |r.writes| :: r.writes[k] <= r.results
  {
    if ids != [] {
      RunWrites(st, ids[..|ids| - 1], fetch);
    }
  }

  /** The swatch map `loadSwatchMap` builds from the file, empty without one. */
  function SwatchMap(file: Option<seq<Json>>): NameMap
    requires file.Some? ==> AllNamed(file.value)
  {
    if file.None? then map[] else BuildMap(file.value)
  }

  /** The loop's state before the first ID. */
  function Start(existing: seq<Json>): SeedState {
    SeedState(existing, IdSet(existing), 0, 0, 0, [])
  }

  /** One turn of `main`'s loop on its variables. */
  method Visit(st: SeedState, id: nat, pages: nat -> Page, build: (nat, Json) -> Option<Json>) returns (next: SeedState)
    ensures next == Step(st, id, OutcomeOf(st.seen, id, Fetcher(pages, build)))
  {
    var results, seen, fetched, skipped, errors, writes := st.results, st.seen, st.fetched, st.skipped, st.errors, st.writes;
    if Str(DecimalString(id)) in seen || Some(JNum(id as real)) in seen {
      skipped := skipped + 1;
    } else if pages(id).Unreachable? {
      errors := errors + 1;
    } else {
      var data := pages(id).data;
      if !Truthy(Some(data)) {
        if (fetched + skipped) % 50 == 0 {
          writes := writes + [results];
        }
      } else {
        var rec := build(id, data);
        if rec.None? {
          errors := errors + 1;
        } else {
          results := results + [rec.value];
          seen := seen + {Str(DecimalString(id))};
          fetched := fetched + 1;
          if (fetched + skipped) % 50 == 0 {
            writes := writes + [results];
          }
        }
      }
    }
    next := SeedState(results, seen, fetched, skipped, errors, writes);
  }

  /** The `for (const f of existing)` loop that fills `existingIds`. */
  method ExistingIds(existing: seq<Json>) returns (existingIds: set<Option<Json>>)
    ensures existingIds == IdSet(existing)
  {
    existingIds := {};
    for i := 0 to |existing|
      invariant existingIds == IdSet(existing[..i])
    {
      existingIds := existingIds + {IdOf(existing[i])};
      assert existing[..i + 1][..i] == existing[..i];
    }
    assert existing[..|existing|] == existing;
  }

  /** The `for (const id of formulaIds)` loop. */
  method VisitAll(st0: SeedState, ids: seq<nat>, pages: nat -> Page, build: (nat, Json) -> Option<Json>)
    returns (st: SeedState)
    ensures st == Run(st0, ids, Fetcher(pages, build))
  {
    st := st0;
    for i := 0 to |ids|
      invariant st == Run(st0, ids[..i], Fetcher(pages, build))
    {
      st := Visit(st, ids[i], pages, build);
      assert ids[..i + 1][..i] == ids[..i];
    }
    assert ids[..|ids|] == ids;
  }

  /** `main()`: `swatchFile` and `existingFile` are the parsed files, `None` when
      they do not exist; `matches` the captures on the dropdown page; `pages(id)`
      what fetching formula `id` gives.  Returns the exit code, the final results,
      every list written to the output file in order, and the three counters. */
  method Seed(swatchFile: Option<seq<Json>>, existingFile: Option<seq<Json>>, matches: seq<string>, pages: nat -> Page)
    returns (exitCode: nat, results: seq<Json>, writes: seq<seq<Json>>, fetched: nat, skipped: nat, errors: nat)
    requires swatchFile.Some? ==> AllNamed(swatchFile.value)
    requires existingFile.Some? ==> NoNulls(existingFile.value)
    requires AllDigitStrings(matches)
    ensures FormulaIds(matches) == [] ==>
      exitCode == 1 && results == [] && writes == [] && fetched == 0 && skipped == 0 && errors == 0
    ensures FormulaIds(matches) != [] ==>
      var existing, fetch := existingFile.GetOr([]), Fetcher(pages, Builder(SwatchMap(swatchFile)));
      var st := Run(Start(existing), FormulaIds(matches), fetch);
      var os := Outcomes(IdSet(existing), FormulaIds(matches), fetch);
      exitCode == 0 && results == st.results && writes == st.writes + [st.results]
      && fetched == st.fetched && skipped == st.skipped && errors == st.errors
      && results == existing + Records(os) && fetched == |Records(os)|
      && skipped == Count(os, Skipped) && errors == Count(os, Failed)
      && forall k | 0 <= k < |os| && os[k].Added? :: Skip(IdSet(results), FormulaIds(matches)[k])
  {
    var m := LoadSwatchMap(swatchFile);
    var existing: seq<Json> := [];
    var existingIds: set<Option<Json>> := {};
    if existingFile.Some? {
      existing := existingFile.value;
      existingIds := ExistingIds(existing);
    }
    var ids := DiscoverFormulaIds(matches);
    if |ids| == 0 {
      return 1, [], [], 0, 0, 0;
    }
    var st := VisitAll(SeedState(existing, existingIds, 0, 0, 0, []), ids, pages, Builder(m));
    results, writes := st.results, st.writes + [st.results];
    fetched, skipped, errors := st.fetched, st.skipped, st.errors;
    exitCode := 0;
    FormulaIdsFacts(matches);
    RunFacts(Start(existing), ids, Fetcher(pages, Builder(m)));
    FetcherIds(pages, m);
    Resumable(Start(existing), ids, Fetcher(pages, Builder(m)));
  }
}
