/** `scripts/convert-matsui-xlsx.js`: turns the rows of each Matsui series'
    spreadsheet into formula records, one per formula code, with components in row
    order, a swatch colour taken from the Pantone file or blended from the
    components, sorted numeric codes first.  The parsed spreadsheets and the parsed
    swatch file are parameters; the files written are returned. */
module ConvertMatsui {
  import opened Wrappers
  import opened JsText
  import opened JsonValue
  import opened Patterns
  import opened Lists
  import opened StableSort
  import ColorMath
  import Schemas

  // ------------------------------------------------------------------
  // Tables

  /** One entry of `SERIES`. */
  datatype SeriesConfig = SeriesConfig(name: string, input: string, output: string)

  const SeriesList: seq<SeriesConfig> := [
      SeriesConfig("301 RC Neo", "matsui_301_rc_neo_raw.xlsx", "matsui_301_rc_neo.json"),
      SeriesConfig("Alpha Discharge", "matsui_alpha_discharge_raw.xlsx", "matsui_alpha_discharge.json"),
      SeriesConfig("Brite Discharge", "matsui_brite_discharge_raw.xlsx", "matsui_brite_discharge.json"),
      SeriesConfig("HM Discharge", "matsui_hm_discharge_raw.xlsx", "matsui_hm_discharge.json"),
      SeriesConfig("OW Stretch", "matsui_ow_stretch_raw.xlsx", "matsui_ow_stretch.json")
    ]

  /** `COMP_HEX`, as its list of entries: component code to bare hex. */
  const CompHex: seq<(string, string)> := [
      ("CLR 301C", "FFFFFF"),
      ("MAT 301M", "FFFFFF"),
      ("PNK MB", "CB6597"),
      ("BLU MB", "0066B0"),
      ("VLT MFB", "654285"),
      ("BLU MG", "008EB9"),
      ("GRN MB", "00A073"),
      ("YEL M3G", "FADC00"),
      ("SLVRSM 620", "9F9B92"),
      ("RED MFB", "C92A4F"),
      ("ORNG MGD", "F8622C"),
      ("GLDYEL MFR", "FFBD0D"),
      ("RED MGD", "E84446"),
      ("GOLDSM 620", "FADC00"),
      ("VLT ECGR", "654285"),
      ("ROSE EC5B", "CB487E"),
      ("PNK EC5B", "EA1679"),
      ("ORNG ECR", "F95D4C"),
      ("YEL ECB", "F8FA00"),
      ("GRN EC5G", "A8EA16"),
      ("BLU ECBR", "008EB9"),
      ("BLK MK", "3E3D39"),
      ("ROSE MB", "CB6597"),
      ("RED ECB", "FF888E"),
      ("YEL ECGG", "F8FA00"),
      ("BRITE DSCHRG BASE", "FFFFFF"),
      ("BR DSCHRG BASE", "FFFFFF"),
      ("BRT DSCHRG WHT", "FFFFFF"),
      ("BRITE DSCHRG WHT", "FFFFFF"),
      ("ALPHA DSCHRG BASE", "FFFFFF"),
      ("ALPHA DSCHRG WHT", "FFFFFF"),
      ("ALPHA TRANS WHITE", "FFFFFF"),
      ("HM DSCHRG BASE", "FFFFFF"),
      ("HM DSCHRG WHT", "FFFFFF"),
      ("EP WHT 301", "FFFFFF"),
      ("WH301W-B", "FFFFFF"),
      ("ST CLR 301", "FFFFFF"),
      ("ST CLR 301-5", "FFFFFF"),
      ("ST WHT 300", "FFFFFF"),
      ("ST WHT 301", "FFFFFF"),
      ("ST WHT 301-5", "FFFFFF"),
      ("ST WHT 302", "FFFFFF"),
      ("STRETCH WHITER 301-5", "FFFFFF"),
      ("NEO BLACK BK", "000000"),
      ("Navy B", "1A2355"),
      ("NEO VIOLET MSGR", "654285"),
      ("SLVRSM 602", "C0C0C0"),
      ("GLW VLT ECGR", "654285"),
      ("ORNG", "F8622C"),
      ("YEL MFR", "FFBD0D")
    ]

  /** `BASE_CODES` */
  const BaseCodes: seq<string> := [
      "CLR 301C", "MAT 301M", "EP WHT 301", "WH301W-B",
      "ST CLR 301", "ST CLR 301-5", "ST WHT 300", "ST WHT 301", "ST WHT 301-5", "ST WHT 302",
      "STRETCH WHITER 301-5",
      "BR DSCHRG BASE", "BRITE DSCHRG BASE", "BRITE DSCHRG WHT", "BRT DSCHRG WHT",
      "ALPHA DSCHRG BASE", "ALPHA DSCHRG WHT", "ALPHA TRANS WHITE",
      "HM DSCHRG BASE", "HM DSCHRG WHT"
    ]

  /** `COMP_HEX[compCode] || null` */
  function CompHexOf(code: string): Option<string> {
    match Find(CompHex, code)
    case Some(h) => if h != [] then Some(h) else None
    case None => None
  }

  // ------------------------------------------------------------------
  // Rows

  /** A number with no fractional part. */
  predicate Integral(n: real) { n == n.Floor as real }

  /** A cell `String(cell || "")` is modelled for: falsy, a string, `true`, or an
      integral number (what a spreadsheet's text, boolean and whole-number cells
      give). */
  predicate TextCell(v: Option<Json>) {
    !Truthy(v) || IsStr(v) || v == Some(JBool(true)) || (IsNum(v) && Integral(v.value.n))
  }

  /** `String(n)` for an integer. */
  function IntString(n: int): string {
    if n < 0 then "-" + DecimalString(-n) else DecimalString(n)
  }

  /** `String(cell || "")` */
  function CellText(v: Option<Json>): string
    requires TextCell(v)
  {
    if !Truthy(v) then ""
    else if IsStr(v) then v.value.s
    else if IsNum(v) then IntString(v.value.n.Floor)
    else "true"
  }

  /** A cell `Number(cell)` is modelled for: absent, `null`, a boolean, a number, an
      object, or a blank string. */
  predicate NumberCell(v: Option<Json>) {
    v.None? || !(v.value.JArr? || v.value.JStr?) || (v.value.JStr? && Trim(v.value.s) == [])
  }

  /** `Number(cell) || 0`: NaN and 0 both give 0. */
  function PercentOf(v: Option<Json>): real
    requires NumberCell(v)
  {
    if IsNum(v) then v.value.n
    else if v == Some(JBool(true)) then 1.0
    else 0.0
  }

  /** A row of `sheet_to_json` whose cells the loop can read. */
  predicate Readable(row: Json) {
    TextCell(Get(row, "FormulaCode")) && TextCell(Get(row, "FormulaDescription"))
    && TextCell(Get(row, "ComponentCode")) && TextCell(Get(row, "ComponentDescription"))
    && NumberCell(Get(row, "Percentage"))
  }

  predicate AllReadable(rows: seq<Json>) {
    forall i | 0 <= i < |rows| :: Readable(rows[i])
  }

  /** A row's cells as the grouping loop reads them: the four text cells through
      `String(… || "").trim()`, the percentage through `Number(…) || 0`. */
  datatype Row = Row(code: string, desc: string, componentCode: string, componentDescription: string,
                     percentage: real)

  function ReadRow(v: Json): Row
    requires Readable(v)
  {
    Row(Trim(CellText(Get(v, "FormulaCode"))), Trim(CellText(Get(v, "FormulaDescription"))),
        Trim(CellText(Get(v, "ComponentCode"))), Trim(CellText(Get(v, "ComponentDescription"))),
        PercentOf(Get(v, "Percentage")))
  }

  function ReadRows(rows: seq<Json>): (r: seq<Row>)
    requires AllReadable(rows)
    ensures |r| == |rows| && forall i | 0 <= i < |rows| :: r[i] == ReadRow(rows[i])
  {
    seq(|rows|, i requires 0 <= i < |rows| => ReadRow(rows[i]))
  }

  // ------------------------------------------------------------------
  // Grouping by formula code

  /** `{ componentCode, componentDescription, percentage, hex, isBase }` */
  datatype Component = Component(componentCode: string, componentDescription: string, percentage: real,
                                 hex: Option<string>, isBase: bool)

  function ComponentOf(row: Row): Component {
    Component(row.componentCode, row.componentDescription, row.percentage, CompHexOf(row.componentCode),
              row.componentCode in BaseCodes)
  }

  /** An entry of `grouped`: the code, and the `{ desc, components }` it maps to. */
  datatype Group = Group(code: string, desc: string, components: seq<Component>)

  /** Where `grouped` holds `code`. */
  function IndexOf(gs: seq<Group>, code: string): (r: Option<nat>)
    ensures r.Some? ==> r.value < |gs| && gs[r.value].code == code
    ensures r.None? ==> forall k | 0 <= k < |gs| :: gs[k].code != code
  {
    if gs == [] then None
    else if gs[|gs| - 1].code == code then Some(|gs| - 1)
    else IndexOf(gs[..|gs| - 1], code)
  }

  /** One turn of the grouping loop on a row with a code: a new entry for a new
      code, then the component pushed onto the code's entry. */
  function AddRow(gs: seq<Group>, row: Row, mk: Row -> Component): seq<Group> {
    match IndexOf(gs, row.code)
    case Some(k) => gs[k := gs[k].(components := gs[k].components + [mk(row)])]
    case None => gs + [Group(row.code, row.desc, [mk(row)])]
  }

  /** `grouped` after the loop, in insertion order; `mk` builds a row's component
      (`ComponentOf`, which the grouping does not look into). */
  function Grouped(rows: seq<Row>, mk: Row -> Component): seq<Group> {
    if rows == [] then []
    else
      var prev, row := Grouped(rows[..|rows| - 1], mk), rows[|rows| - 1];
      if row.code == [] then prev else AddRow(prev, row, mk)
  }

  lemma GroupedStep(rows: seq<Row>, mk: Row -> Component, i: nat)
    requires i < |rows|
    ensures Grouped(rows[..i + 1], mk) ==
      if rows[i].code == [] then Grouped(rows[..i], mk) else AddRow(Grouped(rows[..i], mk), rows[i], mk)
  {
    assert rows[..i + 1][..i] == rows[..i];
  }

  /** The grouping loop, `grouped` kept as its list of entries. */
  method GroupRows(rows: seq<Row>, mk: Row -> Component) returns (grouped: seq<Group>)
    ensures grouped == Grouped(rows, mk)
  {
    grouped := [];
    for i := 0 to |rows|
      invariant grouped == Grouped(rows[..i], mk)
    {
      GroupedStep(rows, mk, i);
      var row := rows[i];
      if row.code == [] {
        continue;
      }
      ghost var before := grouped;
      var k := IndexOf(grouped, row.code);
      ghost var found := k;
      if k.None? {
        grouped := grouped + [Group(row.code, row.desc, [])];
        k := Some(|grouped| - 1);
      }
      var g := grouped[k.value];
      grouped := grouped[k.value := g.(components := g.components + [mk(row)])];
      if found.None? {
        assert g.components + [mk(row)] == [mk(row)];
        assert grouped == before + [Group(row.code, row.desc, [mk(row)])];
      }
    }
    assert rows[..|rows|] == rows;
  }

  /** The first row with `code`, or the number of rows when no row has it. */
  function FirstRow(rows: seq<Row>, code: string): (i: nat)
    ensures i <= |rows|
    ensures i < |rows| ==> rows[i].code == code
    ensures forall j | 0 <= j < i :: rows[j].code != code
  {
    if rows == [] then 0
    else
      var n := |rows| - 1;
      var f := FirstRow(rows[..n], code);
      assert forall j | 0 <= j < n :: rows[..n][j] == rows[j];
      if f < n then f else if rows[n].code == code then n else |rows|
  }

  /** A row's component when the row has `code`. */
  function OfCode(code: string, mk: Row -> Component): Row -> Option<Component> {
    (r: Row) => if r.code == code then Some(mk(r)) else None
  }

  /** The components of the rows with `code`, in row order. */
  function Members(rows: seq<Row>, code: string, mk: Row -> Component): seq<Component> {
    Kept(rows, OfCode(code, mk))
  }

  lemma MembersLast(rows: seq<Row>, code: string, mk: Row -> Component)
    requires rows != []
    ensures Members(rows, code, mk) ==
      Members(rows[..|rows| - 1], code, mk) + (if rows[|rows| - 1].code == code then [mk(rows[|rows| - 1])] else [])
  {
  }

  /** No row has the code: no members. */
  lemma {:induction false} MembersNone(rows: seq<Row>, code: string, mk: Row -> Component)
    requires FirstRow(rows, code) == |rows|
    ensures Members(rows, code, mk) == []
  {
    if rows != [] {
      var n := |rows| - 1;
      assert FirstRow(rows[..n], code) == n;
      MembersNone(rows[..n], code, mk);
      MembersLast(rows, code, mk);
    }
  }

  /** What an entry of `grouped` is: a code some row has, the description of the
      first row with it, and the components of all its rows in row order. */
  predicate GroupOf(rows: seq<Row>, mk: Row -> Component, g: Group) {
    g.code != [] && FirstRow(rows, g.code) < |rows| && g.desc == rows[FirstRow(rows, g.code)].desc
    && g.components == Members(rows, g.code, mk)
  }

  /** The grouping against its reference: every entry is the group of its code, the
      entries come in the order their codes first appear (so no code twice), and
      every row with a code has an entry. */
  predicate GroupsFit(rows: seq<Row>, mk: Row -> Component, gs: seq<Group>) {
    (forall k | 0 <= k < |gs| :: GroupOf(rows, mk, gs[k]))
    && (forall k1, k2 | 0 <= k1 < k2 < |gs| :: FirstRow(rows, gs[k1].code) < FirstRow(rows, gs[k2].code))
    && (forall i | 0 <= i < |rows| && rows[i].code != [] :: exists k | 0 <= k < |gs| :: gs[k].code == rows[i].code)
  }

  lemma {:induction false} GroupedFacts(rows: seq<Row>, mk: Row -> Component)
    ensures GroupsFit(rows, mk, Grouped(rows, mk))
  {
    if rows != [] {
      var n := |rows| - 1;
      GroupedFacts(rows[..n], mk);
      var prev, row := Grouped(rows[..n], mk), rows[n];
      if row.code == [] {
        FitKeep(rows, mk, prev);
      } else {
        match IndexOf(prev, row.code)
        case Some(k0) => FitExtend(rows, mk, prev, k0);
        case None => FitNew(rows, mk, prev);
      }
    }
  }

  /** The first row of a code the earlier rows have is the same after one more row. */
  lemma FirstRowKept(rows: seq<Row>, code: string)
    requires rows != [] && FirstRow(rows[..|rows| - 1], code) < |rows| - 1
    ensures FirstRow(rows, code) == FirstRow(rows[..|rows| - 1], code)
    ensures rows[FirstRow(rows, code)] == rows[..|rows| - 1][FirstRow(rows, code)]
  {
  }

  /** An entry of the earlier rows' grouping is the group of its code over all rows
      when the last row does not add to it. */
  lemma {:induction false} GroupOfKept(rows: seq<Row>, mk: Row -> Component, g: Group)
    requires rows != [] && GroupOf(rows[..|rows| - 1], mk, g) && rows[|rows| - 1].code != g.code
    ensures GroupOf(rows, mk, g)
    ensures FirstRow(rows, g.code) == FirstRow(rows[..|rows| - 1], g.code) < |rows| - 1
  {
    FirstRowKept(rows, g.code);
    MembersLast(rows, g.code, mk);
  }

  /** Every row with a code before the last has an entry in `gs`, given that the
      earlier rows' rows do. */
  lemma CoveredKept(rows: seq<Row>, prev: seq<Group>, gs: seq<Group>)
    requires rows != []
    requires forall i | 0 <= i < |rows| - 1 && rows[i].code != [] :: exists k | 0 <= k < |prev| :: prev[k].code == rows[i].code
    requires |prev| <= |gs| && forall k | 0 <= k < |prev| :: gs[k].code == prev[k].code
    ensures forall i | 0 <= i < |rows| - 1 && rows[i].code != [] :: exists k | 0 <= k < |gs| :: gs[k].code == rows[i].code
  {
    forall i | 0 <= i < |rows| - 1 && rows[i].code != []
      ensures exists k | 0 <= k < |gs| :: gs[k].code == rows[i].code
    {
      var k :| 0 <= k < |prev| && prev[k].code == rows[i].code;
      assert gs[k].code == rows[i].code;
    }
  }

  /** Every row with a code has an entry in `gs` when the earlier rows' rows had one
      in `prev`, `gs` keeps `prev`'s codes, and the last row's code is in `gs`. */
  lemma CoveredLast(rows: seq<Row>, init: seq<Row>, prev: seq<Group>, gs: seq<Group>, k0: nat)
    requires rows != [] && init == rows[..|rows| - 1]
    requires forall i | 0 <= i < |init| && init[i].code != [] :: exists k | 0 <= k < |prev| :: prev[k].code == init[i].code
    requires |prev| <= |gs| && forall k | 0 <= k < |prev| :: gs[k].code == prev[k].code
    requires k0 < |gs| && gs[k0].code == rows[|rows| - 1].code
    ensures forall i | 0 <= i < |rows| && rows[i].code != [] :: exists k | 0 <= k < |gs| :: gs[k].code == rows[i].code
  {
    forall i | 0 <= i < |rows| - 1 ensures rows[i] == init[i] { }
    CoveredKept(rows, prev, gs);
  }

  /** The step of `GroupedFacts` on a row without a code. */
  lemma {:induction false} FitKeep(rows: seq<Row>, mk: Row -> Component, prev: seq<Group>)
    requires rows != [] && rows[|rows| - 1].code == []
    requires GroupsFit(rows[..|rows| - 1], mk, prev)
    ensures GroupsFit(rows, mk, prev)
  {
    var init := rows[..|rows| - 1];
    forall k | 0 <= k < |prev| ensures GroupOf(rows, mk, prev[k]) && FirstRow(rows, prev[k].code) == FirstRow(init, prev[k].code) {
      GroupOfKept(rows, mk, prev[k]);
    }
    forall i | 0 <= i < |rows| - 1 ensures rows[i] == init[i] { }
    CoveredKept(rows, prev, prev);
  }

  /** The step of `GroupedFacts` on a row whose code has entry `k0`. */
  lemma {:induction false} FitExtend(rows: seq<Row>, mk: Row -> Component, prev: seq<Group>, k0: nat)
    requires rows != [] && k0 < |prev| && prev[k0].code == rows[|rows| - 1].code
    requires GroupsFit(rows[..|rows| - 1], mk, prev)
    ensures GroupsFit(rows, mk, prev[k0 := prev[k0].(components := prev[k0].components + [mk(rows[|rows| - 1])])])
  {
    var n := |rows| - 1;
    var init, row := rows[..n], rows[n];
    var gs := prev[k0 := prev[k0].(components := prev[k0].components + [mk(row)])];
    forall k | 0 <= k < |gs|
      ensures gs[k].code == prev[k].code
      ensures GroupOf(rows, mk, gs[k]) && FirstRow(rows, gs[k].code) == FirstRow(init, gs[k].code)
    {
      if k == k0 {
        FirstRowKept(rows, row.code);
        MembersLast(rows, row.code, mk);
      } else {
        assert FirstRow(init, prev[k].code) != FirstRow(init, prev[k0].code);
        GroupOfKept(rows, mk, prev[k]);
      }
    }
    forall i | 0 <= i < n ensures rows[i] == init[i] { }
    CoveredKept(rows, prev, gs);
    assert gs[k0].code == row.code;
  }

  /** A code no entry of the earlier rows' grouping has is first seen in the last row. */
  lemma {:induction false} NewFirstRow(rows: seq<Row>, mk: Row -> Component, prev: seq<Group>)
    requires rows != [] && rows[|rows| - 1].code != []
    requires GroupsFit(rows[..|rows| - 1], mk, prev)
    requires forall k | 0 <= k < |prev| :: prev[k].code != rows[|rows| - 1].code
    ensures FirstRow(rows, rows[|rows| - 1].code) == |rows| - 1
    ensures Members(rows, rows[|rows| - 1].code, mk) == [mk(rows[|rows| - 1])]
  {
    var n := |rows| - 1;
    var init, row := rows[..n], rows[n];
    forall j | 0 <= j < n ensures init[j].code != row.code {
      if init[j].code != [] {
        var k :| 0 <= k < |prev| && prev[k].code == init[j].code;
      }
    }
    assert FirstRow(init, row.code) == n;
    MembersNone(init, row.code, mk);
    MembersLast(rows, row.code, mk);
  }

  /** The step of `GroupedFacts` on a row with a new code. */
  lemma {:induction false} FitNew(rows: seq<Row>, mk: Row -> Component, prev: seq<Group>)
    requires rows != [] && rows[|rows| - 1].code != []
    requires GroupsFit(rows[..|rows| - 1], mk, prev)
    requires forall k | 0 <= k < |prev| :: prev[k].code != rows[|rows| - 1].code
    ensures GroupsFit(rows, mk, prev + [Group(rows[|rows| - 1].code, rows[|rows| - 1].desc, [mk(rows[|rows| - 1])])])
  {
    var n := |rows| - 1;
    var init, row := rows[..n], rows[n];
    var gs := prev + [Group(row.code, row.desc, [mk(row)])];
    NewGroupsOf(rows, mk, prev, gs);
    CoveredLast(rows, init, prev, gs, |prev|);
  }

  /** With a new code in the last row, every entry is the group of its code, and
      the earlier entries' codes are first seen where they were before. */
  lemma {:induction false} NewGroupsOf(rows: seq<Row>, mk: Row -> Component, prev: seq<Group>, gs: seq<Group>)
    requires rows != [] && rows[|rows| - 1].code != []
    requires GroupsFit(rows[..|rows| - 1], mk, prev)
    requires forall k | 0 <= k < |prev| :: prev[k].code != rows[|rows| - 1].code
    requires gs == prev + [Group(rows[|rows| - 1].code, rows[|rows| - 1].desc, [mk(rows[|rows| - 1])])]
    ensures forall k | 0 <= k < |gs| :: GroupOf(rows, mk, gs[k])
    ensures forall k | 0 <= k < |prev| :: gs[k] == prev[k] && FirstRow(rows, prev[k].code) == FirstRow(rows[..|rows| - 1], prev[k].code) < |rows| - 1
    ensures forall k1, k2 | 0 <= k1 < k2 < |gs| :: FirstRow(rows, gs[k1].code) < FirstRow(rows, gs[k2].code)
  {
    forall k | 0 <= k < |prev|
      ensures gs[k] == prev[k]
      ensures GroupOf(rows, mk, prev[k]) && FirstRow(rows, prev[k].code) == FirstRow(rows[..|rows| - 1], prev[k].code) < |rows| - 1
    {
      GroupOfKept(rows, mk, prev[k]);
    }
    NewFirstRow(rows, mk, prev);
    assert GroupOf(rows, mk, gs[|prev|]);
    NewGroupsOrdered(prev, gs, c => FirstRow(rows[..|rows| - 1], c), c => FirstRow(rows, c));
  }

  /** The entries stay in the order their codes first appear when the new code comes
      last: `first0` and `first` are `FirstRow` over the rows before the last and over
      all of them. */
  lemma {:induction false} NewGroupsOrdered(prev: seq<Group>, gs: seq<Group>, first0: string -> int, first: string -> int)
    requires |gs| == |prev| + 1
    requires forall k1, k2 | 0 <= k1 < k2 < |prev| :: first0(prev[k1].code) < first0(prev[k2].code)
    requires forall k | 0 <= k < |prev| :: gs[k] == prev[k] && first(prev[k].code) == first0(prev[k].code) < first(gs[|prev|].code)
    ensures forall k1, k2 | 0 <= k1 < k2 < |gs| :: first(gs[k1].code) < first(gs[k2].code)
  {
    var a := seq(|prev|, k requires 0 <= k < |prev| => first0(prev[k].code));
    var b := seq(|gs|, k requires 0 <= k < |gs| => first(gs[k].code));
    IncreasingAppend(a, b);
  }

  /** A strictly increasing sequence followed by a larger value is strictly increasing. */
  lemma IncreasingAppend(a: seq<int>, b: seq<int>)
    requires |b| == |a| + 1
    requires forall k1, k2 | 0 <= k1 < k2 < |a| :: a[k1] < a[k2]
    requires forall k | 0 <= k < |a| :: b[k] == a[k] < b[|a|]
    ensures forall k1, k2 | 0 <= k1 < k2 < |b| :: b[k1] < b[k2]
  {
  }

  // ------------------------------------------------------------------
  // Blending

  /** This script's `hexToRgb`: the first `#` removed and the rest trimmed, then the
      three digit pairs read by `parseInt(_, 16)`. */
  function MatsuiRgb(hex: string): ColorMath.Channels {
    var h := Trim(RemoveFirst(hex, '#'));
    ColorMath.Channels(ColorMath.HexField(h, 0), ColorMath.HexField(h, 2), ColorMath.HexField(h, 4))
  }

  /** One channel of a component's colour, as `hexToRgb(c.hex)` reads it here. */
  function ChannelOf(ch: ColorMath.Channel): ColorMath.Part -> Option<int> {
    (c: ColorMath.Part) => if c.hex.Some? then ColorMath.Pick(MatsuiRgb(c.hex.value), ch) else None
  }

  /** The two fields of a component the blend reads. */
  function PartOf(c: Component): ColorMath.Part {
    ColorMath.Part(c.hex, c.percentage)
  }

  function Parts(cs: seq<Component>): (ps: seq<ColorMath.Part>)
    ensures |ps| == |cs| && forall i | 0 <= i < |cs| :: ps[i] == PartOf(cs[i])
  {
    seq(|cs|, i requires 0 <= i < |cs| => PartOf(cs[i]))
  }

  /** What `blendComponents` returns: `888888` (no `#`) when the kept percentages sum
      to 0, otherwise the three rounded weighted averages in base 16, two digits each. */
  function BlendOf(ps: seq<ColorMath.Part>): string {
    if ColorMath.TotalPct(ps) == 0.0 then "888888"
    else ColorMath.ChannelHex(ColorMath.BlendValue(ps, ChannelOf(ColorMath.Red)))
         + ColorMath.ChannelHex(ColorMath.BlendValue(ps, ChannelOf(ColorMath.Green)))
         + ColorMath.ChannelHex(ColorMath.BlendValue(ps, ChannelOf(ColorMath.Blue)))
  }

  /** `blendComponents(components)`: one pass accumulating the weighted channels and
      the total percentage of the components with a hex of six characters or more. */
  method BlendComponents(components: seq<Component>) returns (hex: string)
    ensures hex == BlendOf(Parts(components))
  {
    ghost var ps := Parts(components);
    var r: Option<real> := Some(0.0);
    var g: Option<real> := Some(0.0);
    var b: Option<real> := Some(0.0);
    var total: real := 0.0;
    for i := 0 to |components|
      invariant r == ColorMath.WeightedSum(ps[..i], ChannelOf(ColorMath.Red))
      invariant g == ColorMath.WeightedSum(ps[..i], ChannelOf(ColorMath.Green))
      invariant b == ColorMath.WeightedSum(ps[..i], ChannelOf(ColorMath.Blue))
      invariant total == ColorMath.TotalPct(ps[..i])
    {
      var c := components[i];
      BlendSteps(components, ps, i, r, g, b, total);
      if c.hex.None? || |c.hex.value| < 6 {
        continue;
      }
      var rgb := MatsuiRgb(c.hex.value);
      r := ColorMath.AddNaN(r, ColorMath.Scale(rgb.r, c.percentage));
      g := ColorMath.AddNaN(g, ColorMath.Scale(rgb.g, c.percentage));
      b := ColorMath.AddNaN(b, ColorMath.Scale(rgb.b, c.percentage));
      total := total + c.percentage;
    }
    assert ps[..|components|] == ps;
    BlendOfSums(ps, r, g, b, total);
    if total == 0.0 {
      return "888888";
    }
    var rr := ColorMath.RoundedAverage(r, total);
    var gg := ColorMath.RoundedAverage(g, total);
    var bb := ColorMath.RoundedAverage(b, total);
    hex := ColorMath.ChannelHex(rr) + ColorMath.ChannelHex(gg) + ColorMath.ChannelHex(bb);
  }

  /** The blend from the three channel sums and the total. */
  lemma BlendOfSums(ps: seq<ColorMath.Part>, r: Option<real>, g: Option<real>, b: Option<real>, total: real)
    requires r == ColorMath.WeightedSum(ps, ChannelOf(ColorMath.Red))
    requires g == ColorMath.WeightedSum(ps, ChannelOf(ColorMath.Green))
    requires b == ColorMath.WeightedSum(ps, ChannelOf(ColorMath.Blue))
    requires total == ColorMath.TotalPct(ps)
    ensures BlendOf(ps) == if total == 0.0 then "888888" else
      ColorMath.ChannelHex(ColorMath.RoundedAverage(r, total)) + ColorMath.ChannelHex(ColorMath.RoundedAverage(g, total))
      + ColorMath.ChannelHex(ColorMath.RoundedAverage(b, total))
  {
  }

  /** One turn of the blend loop: the sums after the component, from the sums before. */
  lemma BlendSteps(components: seq<Component>, ps: seq<ColorMath.Part>, i: nat,
                   r: Option<real>, g: Option<real>, b: Option<real>, total: real)
    requires ps == Parts(components) && i < |components|
    requires r == ColorMath.WeightedSum(ps[..i], ChannelOf(ColorMath.Red))
    requires g == ColorMath.WeightedSum(ps[..i], ChannelOf(ColorMath.Green))
    requires b == ColorMath.WeightedSum(ps[..i], ChannelOf(ColorMath.Blue))
    requires total == ColorMath.TotalPct(ps[..i])
    ensures var c := components[i];
      if c.hex.None? || |c.hex.value| < 6 then
        r == ColorMath.WeightedSum(ps[..i + 1], ChannelOf(ColorMath.Red))
        && g == ColorMath.WeightedSum(ps[..i + 1], ChannelOf(ColorMath.Green))
        && b == ColorMath.WeightedSum(ps[..i + 1], ChannelOf(ColorMath.Blue))
        && total == ColorMath.TotalPct(ps[..i + 1])
      else
        var rgb := MatsuiRgb(c.hex.value);
        ColorMath.AddNaN(r, ColorMath.Scale(rgb.r, c.percentage)) == ColorMath.WeightedSum(ps[..i + 1], ChannelOf(ColorMath.Red))
        && ColorMath.AddNaN(g, ColorMath.Scale(rgb.g, c.percentage)) == ColorMath.WeightedSum(ps[..i + 1], ChannelOf(ColorMath.Green))
        && ColorMath.AddNaN(b, ColorMath.Scale(rgb.b, c.percentage)) == ColorMath.WeightedSum(ps[..i + 1], ChannelOf(ColorMath.Blue))
        && total + c.percentage == ColorMath.TotalPct(ps[..i + 1])
  {
    BlendStep(components, ps, i, ColorMath.Red);
    BlendStep(components, ps, i, ColorMath.Green);
    BlendStep(components, ps, i, ColorMath.Blue);
    var c := components[i];
    if c.hex.Some? && |c.hex.value| >= 6 {
      PickFields(MatsuiRgb(c.hex.value));
    }
  }

  lemma PickFields(rgb: ColorMath.Channels)
    ensures ColorMath.Pick(rgb, ColorMath.Red) == rgb.r && ColorMath.Pick(rgb, ColorMath.Green) == rgb.g
    ensures ColorMath.Pick(rgb, ColorMath.Blue) == rgb.b
  {
  }

  /** One component taken into one channel's sum and into the total. */
  lemma BlendStep(components: seq<Component>, ps: seq<ColorMath.Part>, i: nat, ch: ColorMath.Channel)
    requires ps == Parts(components) && i < |components|
    ensures var c := components[i]; var prev := ColorMath.WeightedSum(ps[..i], ChannelOf(ch));
      var kept := c.hex.Some? && |c.hex.value| >= 6;
      ColorMath.WeightedSum(ps[..i + 1], ChannelOf(ch)) ==
        (if kept then ColorMath.AddNaN(prev, ColorMath.Scale(ColorMath.Pick(MatsuiRgb(c.hex.value), ch), c.percentage)) else prev)
      && ColorMath.TotalPct(ps[..i + 1]) == ColorMath.TotalPct(ps[..i]) + (if kept then c.percentage else 0.0)
  {
    assert ps[i] == PartOf(components[i]);
    ColorMath.AccumulateStep(ps, i, ChannelOf(ch));
  }

  lemma {:induction false} NoneKeptTotal(ps: seq<ColorMath.Part>)
    requires forall i | 0 <= i < |ps| :: !ColorMath.Kept(ps[i])
    ensures ColorMath.TotalPct(ps) == 0.0
  {
    if ps != [] {
      NoneKeptTotal(ps[..|ps| - 1]);
    }
  }

  /** Components all without a usable hex blend to the grey `888888`. */
  lemma BlendNoneKept(ps: seq<ColorMath.Part>)
    requires forall i | 0 <= i < |ps| :: !ColorMath.Kept(ps[i])
    ensures BlendOf(ps) == "888888"
  {
    NoneKeptTotal(ps);
  }

  /** Components with a missing or short hex make no difference to the blend. */
  lemma BlendIgnoresSkipped(ps: seq<ColorMath.Part>)
    ensures BlendOf(ColorMath.KeptParts(ps)) == BlendOf(ps)
  {
    ColorMath.KeptPartsSums(ps, ChannelOf(ColorMath.Red));
    ColorMath.KeptPartsSums(ps, ChannelOf(ColorMath.Green));
    ColorMath.KeptPartsSums(ps, ChannelOf(ColorMath.Blue));
  }

  /** On six hex digits, `#` optional, the trim changes nothing: the channels are
      the ones the UI's `hexToRgb` reads. */
  lemma MatsuiRgbSixHex(hex: string)
    requires ColorMath.IsSixHex(hex)
    ensures MatsuiRgb(hex) == ColorMath.HexToRgb(hex)
  {
    var g := ColorMath.SixDigits(hex);
    assert IsHexDigit(g[0]) && IsHexDigit(g[5]);
    TrimOfTrimmed(g);
  }

  lemma {:induction false} SixHexInByteRange(ps: seq<ColorMath.Part>, ch: ColorMath.Channel)
    requires ColorMath.SixHexParts(ps)
    ensures ColorMath.ValuesWithin(ps, ChannelOf(ch), 0, 255)
  {
    if ps != [] {
      var init := ps[..|ps| - 1];
      var c := ps[|ps| - 1];
      assert ColorMath.SixHexParts(init) by {
        forall i | 0 <= i < |init| ensures init[i] == ps[i] { }
      }
      SixHexInByteRange(init, ch);
      if ColorMath.Kept(c) {
        MatsuiRgbSixHex(c.hex.value);
        ColorMath.HexToRgbSixDigits(c.hex.value);
      }
    }
  }

  /** Six hex digits with no upper-case letter. */
  predicate IsLowerBareHex(h: string) {
    Schemas.IsBareHex(h) && forall i | 0 <= i < 6 :: !('A' <= h[i] <= 'F')
  }

  lemma ChannelPair(ps: seq<ColorMath.Part>, ch: ColorMath.Channel)
    requires ColorMath.SixHexParts(ps) && ColorMath.NonNegative(ps) && ColorMath.TotalPct(ps) != 0.0
    ensures ColorMath.LowerHexPair(ColorMath.ChannelHex(ColorMath.BlendValue(ps, ChannelOf(ch))))
  {
    SixHexInByteRange(ps, ch);
    ColorMath.BlendValueWithin(ps, ChannelOf(ch), 0, 255);
  }

  lemma JoinPairs(a: string, b: string, c: string)
    requires ColorMath.LowerHexPair(a) && ColorMath.LowerHexPair(b) && ColorMath.LowerHexPair(c)
    ensures IsLowerBareHex(a + b + c)
  {
    var h := a + b + c;
    forall i | 0 <= i < 6 ensures IsHexDigit(h[i]) && !('A' <= h[i] <= 'F') {
      if i < 2 { assert h[i] == a[i]; }
      else if i < 4 { assert h[i] == b[i - 2]; }
      else { assert h[i] == c[i - 4]; }
    }
  }

  /** For components whose usable hexes are six digits and whose percentages are not
      negative, the blend is six lower-case hex digits without `#`. */
  lemma BlendIsLowerBareHex(ps: seq<ColorMath.Part>)
    requires ColorMath.SixHexParts(ps) && ColorMath.NonNegative(ps)
    ensures IsLowerBareHex(BlendOf(ps))
  {
    if ColorMath.TotalPct(ps) != 0.0 {
      ChannelPair(ps, ColorMath.Red);
      ChannelPair(ps, ColorMath.Green);
      ChannelPair(ps, ColorMath.Blue);
      JoinPairs(ColorMath.ChannelHex(ColorMath.BlendValue(ps, ChannelOf(ColorMath.Red))),
                ColorMath.ChannelHex(ColorMath.BlendValue(ps, ChannelOf(ColorMath.Green))),
                ColorMath.ChannelHex(ColorMath.BlendValue(ps, ChannelOf(ColorMath.Blue))));
    } else {
      var h := "888888";
      assert forall i | 0 <= i < 6 :: h[i] == '8';
    }
  }

  lemma SingleChannel(h: string, p: real, ch: ColorMath.Channel)
    requires ColorMath.IsSixHex(h) && p > 0.0
    ensures ColorMath.TotalPct([ColorMath.Part(Some(h), p)]) == p
    ensures ColorMath.BlendValue([ColorMath.Part(Some(h), p)], ChannelOf(ch)) == ColorMath.Pick(ColorMath.HexToRgb(h), ch)
  {
    var c := ColorMath.Part(Some(h), p);
    MatsuiRgbSixHex(h);
    ColorMath.HexToRgbSixDigits(h);
    var v := ChannelOf(ch)(c);
    assert v == ColorMath.Pick(ColorMath.HexToRgb(h), ch) && v.Some?;
    ColorMath.SingleAverage(h, p, ChannelOf(ch), v.value);
  }

  /** A formula of one component at a positive percentage blends to that component's
      own colour, in lower case. */
  lemma BlendSingle(h: string, p: real)
    requires ColorMath.IsSixHex(h) && p > 0.0
    ensures var rgb := ColorMath.HexToRgb(h);
      BlendOf([ColorMath.Part(Some(h), p)])
      == ColorMath.ChannelHex(rgb.r) + ColorMath.ChannelHex(rgb.g) + ColorMath.ChannelHex(rgb.b)
  {
    SingleChannel(h, p, ColorMath.Red);
    SingleChannel(h, p, ColorMath.Green);
    SingleChannel(h, p, ColorMath.Blue);
  }

  // ------------------------------------------------------------------
  // PMS key and the swatch map

  /** `code.replace(/\s+[CUcu](\s*\(\d+\))?$/, "").trim().toLowerCase()` */
  function PmsKey(code: string): string {
    Lower(Trim(StripSuffix(CoatingMarkCount, code)))
  }

  lemma LowerCharSpace(c: char)
    ensures IsSpace(LowerChar(c)) <==> IsSpace(c)
    ensures !('A' <= LowerChar(c) <= 'Z')
  {
  }

  /** Lower-casing keeps a trimmed string trimmed and leaves no upper-case letter. */
  lemma LowerTrimmed(t: string)
    requires Trimmed(t)
    ensures Trimmed(Lower(t))
    ensures forall i | 0 <= i < |t| :: !('A' <= Lower(t)[i] <= 'Z')
  {
    var k := Lower(t);
    forall i | 0 <= i < |t| ensures !('A' <= k[i] <= 'Z') {
      LowerCharSpace(t[i]);
    }
    if t != [] {
      LowerCharSpace(t[0]);
      LowerCharSpace(t[|t| - 1]);
    }
  }

  /** The key has no upper-case letter and no surrounding white space. */
  lemma PmsKeyShape(code: string)
    ensures Trimmed(PmsKey(code))
    ensures forall i | 0 <= i < |PmsKey(code)| :: !('A' <= PmsKey(code)[i] <= 'Z')
  {
    var u := StripSuffix(CoatingMarkCount, code);
    TrimIsTrimmed(u);
    LowerTrimmed(Trim(u));
  }

  /** A code without a trailing coating mark keys as itself, trimmed and lower-cased. */
  lemma PmsKeyPlain(code: string)
    requires forall j | 0 <= j <= |code| :: !Matches(CoatingMarkCount, code[j..])
    ensures PmsKey(code) == Lower(Trim(code))
  {
  }

  /** A swatch `s.pms.toLowerCase()` and `s.hex.replace("#", "")` can be evaluated on. */
  predicate PmsSwatch(s: Json) {
    Schemas.StrField(s, "pms") && Schemas.StrField(s, "hex")
  }

  predicate AllPmsSwatches(ss: seq<Json>) {
    forall i | 0 <= i < |ss| :: PmsSwatch(ss[i])
  }

  /** `s.pms.toLowerCase()` */
  function PmsName(s: Json): string
    requires PmsSwatch(s)
  {
    Lower(Get(s, "pms").value.s)
  }

  /** `s.hex.replace("#", "")` */
  function SwatchHex(s: Json): string
    requires PmsSwatch(s)
  {
    RemoveFirst(Get(s, "hex").value.s, '#')
  }

  /** `pmsHexMap` after registering the swatches in order. */
  function PmsHexMap(ss: seq<Json>): map<string, string>
    requires AllPmsSwatches(ss)
  {
    if ss == [] then map[]
    else
      var s := ss[|ss| - 1];
      PmsHexMap(ss[..|ss| - 1])[PmsName(s) := SwatchHex(s)]
  }

  /** The loop that fills `pmsHexMap` from the swatch file. */
  method LoadPmsHexMap(swatches: seq<Json>) returns (m: map<string, string>)
    requires AllPmsSwatches(swatches)
    ensures m == PmsHexMap(swatches)
  {
    m := map[];
    for i := 0 to |swatches|
      invariant m == PmsHexMap(swatches[..i])
    {
      assert swatches[..i + 1][..i] == swatches[..i];
      m := m[PmsName(swatches[i]) := SwatchHex(swatches[i])];
    }
    assert swatches[..|swatches|] == swatches;
  }

  /** A name is a key exactly when some swatch has it, and it maps to the hex of the
      last such swatch. */
  lemma {:induction false} PmsHexMapLastWins(ss: seq<Json>, k: string, i: nat)
    requires AllPmsSwatches(ss)
    requires i < |ss| && PmsName(ss[i]) == k
    requires forall j | i < j < |ss| :: PmsName(ss[j]) != k
    ensures k in PmsHexMap(ss) && PmsHexMap(ss)[k] == SwatchHex(ss[i])
  {
    var init := ss[..|ss| - 1];
    if i < |ss| - 1 {
      assert init[i] == ss[i];
      forall j | i < j < |init| ensures PmsName(init[j]) != k {
        assert init[j] == ss[j];
      }
      PmsHexMapLastWins(init, k, i);
    }
  }

  lemma {:induction false} PmsHexMapKeys(ss: seq<Json>, k: string)
    requires AllPmsSwatches(ss)
    ensures k in PmsHexMap(ss) <==> exists i | 0 <= i < |ss| :: PmsName(ss[i]) == k
  {
    if ss != [] {
      var init := ss[..|ss| - 1];
      PmsHexMapKeys(init, k);
      if i :| 0 <= i < |init| && PmsName(init[i]) == k {
        assert ss[i] == init[i];
      }
      if i :| 0 <= i < |ss| - 1 && PmsName(ss[i]) == k {
        assert ss[i] == init[i];
      }
    }
  }

  // ------------------------------------------------------------------
  // Formulas

  /** A record of the output array, before serialisation; its `formulaColor` is
      always the empty string and its `_id`s are the code. */
  datatype Formula = Formula(code: string, desc: string, series: string, swatchColor: string,
                             components: seq<Component>)

  /** `pmsHex || blended`, `pmsHex` being `pmsHexMap[pmsKey]`. */
  function SwatchColor(code: string, pmsMap: map<string, string>, blended: string): string {
    var k := PmsKey(code);
    if k in pmsMap && pmsMap[k] != [] then pmsMap[k] else blended
  }

  /** The record one entry of `grouped` gives. */
  function FormulaOf(series: string, pmsMap: map<string, string>, g: Group): Formula {
    Formula(g.code, g.desc, series, SwatchColor(g.code, pmsMap, BlendOf(Parts(g.components))), g.components)
  }

  function Formulas(series: string, pmsMap: map<string, string>, gs: seq<Group>): (fs: seq<Formula>)
    ensures |fs| == |gs| && forall k | 0 <= k < |gs| :: fs[k] == FormulaOf(series, pmsMap, gs[k])
  {
    Map(gs, (g: Group) => FormulaOf(series, pmsMap, g))
  }

  /** The loop over `grouped` that pushes one record per entry. */
  method BuildFormulas(series: string, pmsMap: map<string, string>, grouped: seq<Group>)
    returns (formulas: seq<Formula>)
    ensures formulas == Formulas(series, pmsMap, grouped)
  {
    formulas := [];
    for k := 0 to |grouped|
      invariant formulas == Formulas(series, pmsMap, grouped[..k])
    {
      var g := grouped[k];
      var blended := BlendComponents(g.components);
      var pmsKey := PmsKey(g.code);
      var color := if pmsKey in pmsMap && pmsMap[pmsKey] != [] then pmsMap[pmsKey] else blended;
      assert Formula(g.code, g.desc, series, color, g.components) == FormulaOf(series, pmsMap, g);
      MapStep(grouped, (g: Group) => FormulaOf(series, pmsMap, g), k);
      formulas := formulas + [Formula(g.code, g.desc, series, color, g.components)];
    }
    assert grouped[..|grouped|] == grouped;
  }

  /** A code some row has yields at least one component. */
  lemma MembersNonEmpty(rows: seq<Row>, code: string, mk: Row -> Component)
    requires FirstRow(rows, code) < |rows|
    ensures Members(rows, code, mk) != []
  {
    var i := FirstRow(rows, code);
    KeptComplete(rows, OfCode(code, mk));
    assert OfCode(code, mk)(rows[i]) == Some(mk(rows[i]));
  }

  /** What a record says about the rows: its code is one some row has, its
      description is the first such row's, its components are those of all its rows
      in row order (at least one), and its swatch colour is the PMS hex for its key
      when the map has a non-empty one, the blend of its components otherwise. */
  predicate RecordOf(rows: seq<Row>, mk: Row -> Component, series: string, pmsMap: map<string, string>, f: Formula) {
    f.code != [] && FirstRow(rows, f.code) < |rows| && f.desc == rows[FirstRow(rows, f.code)].desc
    && f.series == series && f.components == Members(rows, f.code, mk) && f.components != []
    && f.swatchColor == SwatchColor(f.code, pmsMap, BlendOf(Parts(f.components)))
  }

  lemma RecordOfGroup(rows: seq<Row>, mk: Row -> Component, series: string, pmsMap: map<string, string>, g: Group)
    requires GroupOf(rows, mk, g)
    ensures RecordOf(rows, mk, series, pmsMap, FormulaOf(series, pmsMap, g))
  {
    MembersNonEmpty(rows, g.code, mk);
  }

  /** The records against the rows: one per code that some row has, each as
      `RecordOf` says, in the order the codes first appear. */
  lemma FormulasFit(series: string, pmsMap: map<string, string>, rows: seq<Row>, mk: Row -> Component)
    ensures var fs := Formulas(series, pmsMap, Grouped(rows, mk));
      (forall k | 0 <= k < |fs| :: RecordOf(rows, mk, series, pmsMap, fs[k]))
      && (forall k1, k2 | 0 <= k1 < k2 < |fs| :: FirstRow(rows, fs[k1].code) < FirstRow(rows, fs[k2].code))
      && (forall i | 0 <= i < |rows| && rows[i].code != [] :: exists k | 0 <= k < |fs| :: fs[k].code == rows[i].code)
  {
    var gs := Grouped(rows, mk);
    var fs := Formulas(series, pmsMap, gs);
    GroupedFacts(rows, mk);
    forall k | 0 <= k < |fs| ensures RecordOf(rows, mk, series, pmsMap, fs[k]) && fs[k].code == gs[k].code {
      RecordOfGroup(rows, mk, series, pmsMap, gs[k]);
    }
    forall i | 0 <= i < |rows| && rows[i].code != []
      ensures exists k | 0 <= k < |fs| :: fs[k].code == rows[i].code
    {
      var k :| 0 <= k < |gs| && gs[k].code == rows[i].code;
      assert fs[k].code == rows[i].code;
    }
  }

  /** Different records have different codes. */
  lemma FormulaCodesDistinct(series: string, pmsMap: map<string, string>, rows: seq<Row>, mk: Row -> Component)
    ensures var fs := Formulas(series, pmsMap, Grouped(rows, mk));
      forall k1, k2 | 0 <= k1 < k2 < |fs| :: fs[k1].code != fs[k2].code
  {
    FormulasFit(series, pmsMap, rows, mk);
  }

  // ------------------------------------------------------------------
  // Output records

  /** A component as `JSON.stringify` writes it; a missing hex is `null`. */
  function ComponentJson(c: Component): Json {
    JObj(map["componentCode" := JStr(c.componentCode), "componentDescription" := JStr(c.componentDescription),
             "percentage" := JNum(c.percentage), "hex" := if c.hex.Some? then JStr(c.hex.value) else JNull,
             "isBase" := JBool(c.isBase)])
  }

  function ComponentsJson(cs: seq<Component>): (js: seq<Json>)
    ensures |js| == |cs| && forall i | 0 <= i < |cs| :: js[i] == ComponentJson(cs[i])
  {
    Map(cs, ComponentJson)
  }

  /** A record as written: `formulaColor` empty, `_id` and `formulaCode` the code,
      inside `formulaSwatchColor` too. */
  function FormulaJson(f: Formula): Json {
    JObj(map["_id" := JStr(f.code), "formulaCode" := JStr(f.code), "formulaDescription" := JStr(f.desc),
             "formulaSeries" := JStr(f.series), "formulaColor" := JStr(""),
             "formulaSwatchColor" := JObj(map["_id" := JStr(f.code), "formulaCode" := JStr(f.code),
                                              "formulaColor" := JStr(f.swatchColor)]),
             "components" := JArr(ComponentsJson(f.components))])
  }

  /** The fields of a written record. */
  lemma FormulaJsonFields(f: Formula)
    ensures var j := FormulaJson(f);
      Get(j, "_id") == Str(f.code) && Get(j, "formulaCode") == Str(f.code)
      && Get(j, "formulaColor") == Str("")
      && Get(j, "formulaDescription") == Str(f.desc) && Get(j, "formulaSeries") == Str(f.series)
      && Get(j, "formulaSwatchColor").Some?
      && var sw := Get(j, "formulaSwatchColor").value;
      Get(sw, "_id") == Str(f.code) && Get(sw, "formulaCode") == Str(f.code)
      && Get(sw, "formulaColor") == Str(f.swatchColor)
  {
  }

  /** What `MatsuiComponentSchema` asks of a component's hex: present as a string,
      and six digits or empty. */
  predicate HexConforms(c: Component) {
    c.hex.Some? && (Schemas.IsBareHex(c.hex.value) || c.hex.value == [])
  }

  lemma ComponentConforms(c: Component)
    ensures Schemas.MatsuiComponent(ComponentJson(c)) <==> HexConforms(c)
  {
  }

  /** A written record passes `MatsuiFormulaSchema` exactly when it has a component
      and every component's hex conforms; a component without a `COMP_HEX` entry,
      written as `null`, fails it. */
  lemma FormulaConforms(f: Formula)
    ensures Schemas.MatsuiFormula(FormulaJson(f)) <==>
      f.components != [] && forall i | 0 <= i < |f.components| :: HexConforms(f.components[i])
  {
    var j := FormulaJson(f);
    var items := ComponentsJson(f.components);
    assert Get(j, "components") == Some(JArr(items));
    forall i | 0 <= i < |f.components|
      ensures Schemas.MatsuiComponent(items[i]) <==> HexConforms(f.components[i])
    {
      ComponentConforms(f.components[i]);
    }
  }

  /** A component with a `COMP_HEX` entry, those entries being six hex digits,
      conforms. */
  lemma ComponentOfConforms(row: Row)
    requires forall code | CompHexOf(code).Some? :: Schemas.IsBareHex(CompHexOf(code).value)
    ensures HexConforms(ComponentOf(row)) <==> CompHexOf(row.componentCode).Some?
  {
  }

  // ------------------------------------------------------------------
  // Sorting

  /** The comparator of `formulas.sort`, as `cmp(a, b) <= 0`: two codes with a
      `parseInt` value by that value, a code with one before a code without, and two
      codes without by string order. */
  predicate CodeLe(a: Formula, b: Formula) {
    var x, y := ParseInt(a.code, Unspecified), ParseInt(b.code, Unspecified);
    if x.Some? && y.Some? then x.value <= y.value
    else if x.Some? then true
    else if y.Some? then false
    else LexLe(a.code, b.code)
  }

  /** The comparator is consistent, so the sort is the stable sort under it. */
  lemma CodeLePreorder()
    ensures TotalPreorder(CodeLe)
  {
    forall a: Formula, b: Formula ensures CodeLe(a, b) || CodeLe(b, a) {
      LexLeTotal(a.code, b.code);
    }
    forall a: Formula, b: Formula, c: Formula | CodeLe(a, b) && CodeLe(b, c) ensures CodeLe(a, c) {
      if ParseInt(a.code, Unspecified).None? && ParseInt(b.code, Unspecified).None?
         && ParseInt(c.code, Unspecified).None? {
        LexLeTransitive(a.code, b.code, c.code);
      }
    }
  }

  /** A code with a numeric prefix. */
  predicate Numeric(f: Formula) { ParseInt(f.code, Unspecified).Some? }

  /** The sorted records are the records, reordered: codes with a numeric prefix
      first, by that number, then the rest in string order. */
  lemma SortedFormulas(fs: seq<Formula>)
    ensures var r := Sort(fs, CodeLe);
      multiset(r) == multiset(fs)
      && (forall i, j | 0 <= i < j < |r| && Numeric(r[j]) :: Numeric(r[i]))
      && (forall i, j | 0 <= i < j < |r| && Numeric(r[i]) && Numeric(r[j]) ::
            ParseInt(r[i].code, Unspecified).value <= ParseInt(r[j].code, Unspecified).value)
      && (forall i, j | 0 <= i < j < |r| && !Numeric(r[i]) && !Numeric(r[j]) :: LexLe(r[i].code, r[j].code))
  {
    CodeLePreorder();
    SortSorted(fs, CodeLe);
  }

  // ------------------------------------------------------------------
  // Converting a series

  /** What `convertFile` writes for a readable workbook whose first sheet has rows
      `sheet`. */
  function Output(series: string, pmsMap: map<string, string>, sheet: seq<Json>): seq<Json>
    requires AllReadable(sheet)
  {
    Map(Sort(Formulas(series, pmsMap, Grouped(ReadRows(sheet), ComponentOf)), CodeLe), FormulaJson)
  }

  /** The array written for a series, none when its workbook could not be read. */
  function Converted(series: string, pmsMap: map<string, string>, workbook: Option<seq<Json>>): Option<seq<Json>>
    requires workbook.Some? ==> AllReadable(workbook.value)
  {
    if workbook.None? then None else Some(Output(series, pmsMap, workbook.value))
  }

  /** `convertFile(seriesName, …)`: `workbook` is the rows of the workbook's first
      sheet, `None` when `XLSX.readFile` throws.  Returns the count, the array
      written (`None` when nothing is written) and the validation report, which
      is only printed: the file is written whatever it says. */
  method ConvertFile(series: string, pmsMap: map<string, string>, workbook: Option<seq<Json>>)
    returns (count: nat, written: Option<seq<Json>>, report: Option<Schemas.Report>)
    requires workbook.Some? ==> AllReadable(workbook.value)
    ensures written == Converted(series, pmsMap, workbook)
    ensures workbook.None? ==> count == 0 && report.None?
    ensures written.Some? ==>
      (count == |written.value| && report.Some? && report.value.total == count
       && report.value.valid == Schemas.CountValid(written.value, Schemas.MatsuiFormula, count))
  {
    if workbook.None? {
      return 0, None, None;
    }
    var rows := ReadRows(workbook.value);
    var grouped := GroupRows(rows, ComponentOf);
    var formulas := BuildFormulas(series, pmsMap, grouped);
    var sorted := Sort(formulas, CodeLe);
    var out := Map(sorted, FormulaJson);
    var rep := Schemas.ValidateRecords(out, Schemas.MatsuiFormula, series);
    return |out|, Some(out), Some(rep);
  }

  /** Formulas written over all series, a series that was not read counting 0. */
  function TotalWritten(ws: seq<Option<seq<Json>>>): nat {
    if ws == [] then 0
    else TotalWritten(ws[..|ws| - 1]) + (if ws[|ws| - 1].Some? then |ws[|ws| - 1].value| else 0)
  }

  predicate ReadableBooks(books: seq<Option<seq<Json>>>) {
    forall i | 0 <= i < |books| :: books[i].Some? ==> AllReadable(books[i].value)
  }

  lemma TotalWrittenStep(ws: seq<Option<seq<Json>>>, w: Option<seq<Json>>)
    ensures TotalWritten(ws + [w]) == TotalWritten(ws) + (if w.Some? then |w.value| else 0)
  {
    assert (ws + [w])[..|ws|] == ws;
  }

  /** The loop over `SERIES`. */
  method ConvertSeries(configs: seq<SeriesConfig>, pmsMap: map<string, string>, books: seq<Option<seq<Json>>>)
    returns (total: nat, written: seq<Option<seq<Json>>>)
    requires |books| == |configs| && ReadableBooks(books)
    ensures |written| == |configs|
    ensures forall i | 0 <= i < |configs| :: written[i] == Converted(configs[i].name, pmsMap, books[i])
    ensures total == TotalWritten(written)
  {
    total := 0;
    written := [];
    for i := 0 to |configs|
      invariant |written| == i
      invariant forall k | 0 <= k < i :: written[k] == Converted(configs[k].name, pmsMap, books[k])
      invariant total == TotalWritten(written)
    {
      var count, w, _ := ConvertFile(configs[i].name, pmsMap, books[i]);
      TotalWrittenStep(written, w);
      written := written + [w];
      total := total + count;
    }
  }

  /** The script: `pmsHexMap` from the swatch file, then `convertFile` for each entry
      of `SERIES` in order, `books[i]` being that series' workbook.  A series whose
      workbook could not be read writes nothing and counts 0; the others are
      converted all the same. */
  method ConvertAll(swatches: seq<Json>, books: seq<Option<seq<Json>>>)
    returns (total: nat, written: seq<Option<seq<Json>>>)
    requires AllPmsSwatches(swatches)
    requires |books| == |SeriesList| && ReadableBooks(books)
    ensures |written| == |SeriesList|
    ensures forall i | 0 <= i < |SeriesList| :: written[i] == Converted(SeriesList[i].name, PmsHexMap(swatches), books[i])
    ensures total == TotalWritten(written)
  {
    var pmsMap := LoadPmsHexMap(swatches);
    total, written := ConvertSeries(SeriesList, pmsMap, books);
  }
}
