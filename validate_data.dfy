/** `scripts/validate-data.js`: loads the seven data files, validates every record
    against its schema, and warns about short files, percentage sums away from 100,
    duplicate swatches and junk Matsui records.  Only schema failures change the
    exit code.  The parsed files are parameters, `None` for a file that is missing
    (or parses to a falsy value, which the script skips the same way). */
module ValidateData {
  import opened Wrappers
  import opened JsText
  import opened JsonValue
  import Schemas

  // ------------------------------------------------------------------
  // The manifest

  /** An entry of `FILES`. */
  datatype FileSpec = FileSpec(name: string, path: string, minRecords: nat)

  const IccFiles: seq<FileSpec> := [FileSpec("ICC 7500 Coated", "icc_7500_coated.json", 2000)]

  const MatsuiFiles: seq<FileSpec> := [
      FileSpec("Matsui 301 RC Neo", "matsui_301_rc_neo.json", 100),
      FileSpec("Matsui Alpha Discharge", "matsui_alpha_discharge.json", 100),
      FileSpec("Matsui Brite Discharge", "matsui_brite_discharge.json", 100),
      FileSpec("Matsui HM Discharge", "matsui_hm_discharge.json", 100),
      FileSpec("Matsui OW Stretch", "matsui_ow_stretch.json", 100)
    ]

  const PantoneFiles: seq<FileSpec> := [FileSpec("Pantone Swatches", "pantone_swatches.json", 800)]

  // ------------------------------------------------------------------
  // checkMinRecords

  /** Whether `checkMinRecords` warns. */
  predicate TooShort(data: seq<Json>, minRecords: nat) {
    |data| < minRecords
  }

  // ------------------------------------------------------------------
  // checkPercentageSums

  /** The keys and the tolerance of one call of `checkPercentageSums`. */
  datatype SumCheck = SumCheck(idKey: string, linesKey: string, pctKey: string, tolerance: real)

  /** ICC formulas: `percent` of each line, 1 percentage point either way. */
  const IccSums := SumCheck("code", "lines", "percent", 1.0)

  /** Matsui formulas: `percentage` of each component, 5 points either way. */
  const MatsuiSums := SumCheck("formulaCode", "components", "percentage", 5.0)

  /** An item `s + (item[pctKey] || 0)` adds a number to: not `null`, and the value
      a number or falsy. */
  predicate PctItem(item: Json, pctKey: string) {
    item != JNull && (IsNum(Get(item, pctKey)) || !Truthy(Get(item, pctKey)))
  }

  /** `item[pctKey] || 0` */
  function PctValue(item: Json, pctKey: string): real
    requires PctItem(item, pctKey)
  {
    if IsNum(Get(item, pctKey)) then Get(item, pctKey).value.n else 0.0
  }

  predicate PctItems(items: seq<Json>, pctKey: string) {
    forall i | 0 <= i < |items| :: PctItem(items[i], pctKey)
  }

  /** `items.reduce((s, item) => s + (item[pctKey] || 0), 0)` */
  function SumPct(items: seq<Json>, pctKey: string): real
    requires PctItems(items, pctKey)
  {
    if items == [] then 0.0
    else SumPct(items[..|items| - 1], pctKey) + PctValue(items[|items| - 1], pctKey)
  }

  /** A record the loop of `checkPercentageSums` can read: not `null`, its lines
      falsy or an array of summable items. */
  predicate SumRecord(record: Json, chk: SumCheck) {
    record != JNull
    && var items := Get(record, chk.linesKey);
    !Truthy(items) || (IsArr(items) && PctItems(items.value.items, chk.pctKey))
  }

  /** The lines that are summed: none when they are falsy. */
  function Lines(record: Json, chk: SumCheck): (items: seq<Json>)
    requires SumRecord(record, chk)
    ensures PctItems(items, chk.pctKey)
  {
    if IsArr(Get(record, chk.linesKey)) then Get(record, chk.linesKey).value.items else []
  }

  function Abs(x: real): real { if x < 0.0 then -x else x }

  /** A record `checkPercentageSums` counts: it has lines, and their sum is more than
      the tolerance away from 100. */
  predicate OutOfRange(record: Json, chk: SumCheck) {
    SumRecord(record, chk)
    && var items := Lines(record, chk);
    items != [] && Abs(SumPct(items, chk.pctKey) - 100.0) > chk.tolerance
  }

  /** `{ id: record[idKey], sum: Math.round(sum * 100) / 100 }` */
  datatype Example = Example(id: Option<Json>, sum: real)

  function ExampleOf(record: Json, chk: SumCheck): Example
    requires SumRecord(record, chk)
  {
    Example(Get(record, chk.idKey), Round(SumPct(Lines(record, chk), chk.pctKey) * 100.0) as real / 100.0)
  }

  /** The examples of every counted record among the first `n`, in order. */
  function AllExamples(data: seq<Json>, chk: SumCheck, n: nat): (es: seq<Example>)
    requires n <= |data| && forall i | 0 <= i < |data| :: SumRecord(data[i], chk)
  {
    if n == 0 then []
    else
      AllExamples(data, chk, n - 1)
      + (if OutOfRange(data[n - 1], chk) then [ExampleOf(data[n - 1], chk)] else [])
  }

  /** The most examples kept. */
  const MaxExamples := 5

  lemma ExamplesStep(data: seq<Json>, chk: SumCheck, i: nat)
    requires i < |data| && forall k | 0 <= k < |data| :: SumRecord(data[k], chk)
    ensures var prev := AllExamples(data, chk, i);
      Schemas.Take(AllExamples(data, chk, i + 1), MaxExamples) ==
        if !OutOfRange(data[i], chk) || |prev| >= MaxExamples then Schemas.Take(prev, MaxExamples)
        else Schemas.Take(prev, MaxExamples) + [ExampleOf(data[i], chk)]
  {
    var prev := AllExamples(data, chk, i);
    if OutOfRange(data[i], chk) && |prev| >= MaxExamples {
      assert (prev + [ExampleOf(data[i], chk)])[..MaxExamples] == prev[..MaxExamples];
    }
  }

  /** One example per counted record. */
  lemma {:induction false} ExamplesCount(data: seq<Json>, chk: SumCheck, n: nat)
    requires n <= |data| && forall i | 0 <= i < |data| :: SumRecord(data[i], chk)
    ensures |AllExamples(data, chk, n)| == Schemas.CountValid(data, (v: Json) => OutOfRange(v, chk), n)
  {
    if n > 0 {
      ExamplesCount(data, chk, n - 1);
    }
  }

  /** The loop of `checkPercentageSums`: how many records are out of range, and the
      examples of the first five of them. */
  method PercentageSums(data: seq<Json>, chk: SumCheck) returns (outOfRange: nat, examples: seq<Example>)
    requires forall i | 0 <= i < |data| :: SumRecord(data[i], chk)
    ensures outOfRange == Schemas.CountValid(data, (v: Json) => OutOfRange(v, chk), |data|)
    ensures outOfRange == |Schemas.Holding(data, (v: Json) => OutOfRange(v, chk), |data|)|
    ensures examples == Schemas.Take(AllExamples(data, chk, |data|), MaxExamples)
    ensures |examples| == if outOfRange < MaxExamples then outOfRange else MaxExamples
  {
    outOfRange := 0;
    examples := [];
    for i := 0 to |data|
      invariant outOfRange == Schemas.CountValid(data, (v: Json) => OutOfRange(v, chk), i)
      invariant examples == Schemas.Take(AllExamples(data, chk, i), MaxExamples)
    {
      ExamplesStep(data, chk, i);
      var record := data[i];
      var items := Lines(record, chk);
      if items == [] {
        continue;
      }
      var sum := SumPct(items, chk.pctKey);
      if Abs(sum - 100.0) > chk.tolerance {
        outOfRange := outOfRange + 1;
        if |examples| < MaxExamples {
          examples := examples + [Example(Get(record, chk.idKey), Round(sum * 100.0) as real / 100.0)];
        }
      }
    }
    Schemas.CountValidCard(data, (v: Json) => OutOfRange(v, chk), |data|);
    ExamplesCount(data, chk, |data|);
  }

  // ------------------------------------------------------------------
  // checkDuplicateSwatches

  /** A value `${v}` is modelled for: a string, `undefined`, `null` or a boolean. */
  predicate KeyPart(v: Option<Json>) {
    v.None? || v.value.JNull? || v.value.JStr? || v.value.JBool?
  }

  /** `${v}` */
  function KeyText(v: Option<Json>): string
    requires KeyPart(v)
  {
    if v.None? then "undefined"
    else match v.value
      case JNull => "null"
      case JStr(s) => s
      case JBool(b) => if b then "true" else "false"
  }

  predicate Keyed(s: Json) {
    s != JNull && KeyPart(Get(s, "pms")) && KeyPart(Get(s, "series"))
  }

  predicate AllKeyed(data: seq<Json>) {
    forall i | 0 <= i < |data| :: Keyed(data[i])
  }

  /** `${s.pms}-${s.series}` */
  function SwatchKey(s: Json): string
    requires Keyed(s)
  {
    KeyText(Get(s, "pms")) + "-" + KeyText(Get(s, "series"))
  }

  /** The key of every swatch, in order. */
  function KeysOf(data: seq<Json>): (keys: seq<string>)
    requires AllKeyed(data)
    ensures |keys| == |data| && forall i | 0 <= i < |data| :: keys[i] == SwatchKey(data[i])
  {
    seq(|data|, i requires 0 <= i < |data| => SwatchKey(data[i]))
  }

  /** The keys among the first `n`. */
  function SeenBefore(keys: seq<string>, n: nat): set<string>
    requires n <= |keys|
  {
    if n == 0 then {} else SeenBefore(keys, n - 1) + {keys[n - 1]}
  }

  /** A key is among the first `n` exactly when one of them is it. */
  lemma {:induction false} SeenBeforeMembers(keys: seq<string>, n: nat, key: string)
    requires n <= |keys|
    ensures key in SeenBefore(keys, n) <==> exists i | 0 <= i < n :: keys[i] == key
  {
    if n > 0 {
      SeenBeforeMembers(keys, n - 1, key);
      if keys[n - 1] == key {
        assert exists i | 0 <= i < n :: keys[i] == key;
      }
    }
  }

  /** How many of the first `n` keys an earlier key equals: every occurrence of a key
      but the first. */
  function Dupes(keys: seq<string>, n: nat): nat
    requires n <= |keys|
  {
    if n == 0 then 0
    else Dupes(keys, n - 1) + (if keys[n - 1] in SeenBefore(keys, n - 1) then 1 else 0)
  }

  lemma CardAdd(s: set<string>, k: string)
    ensures |s + {k}| == |s| + (if k in s then 0 else 1)
  {
    if k in s {
      assert s + {k} == s;
    }
  }

  /** Duplicates are the keys less the distinct keys. */
  lemma {:induction false} DupesDistinct(keys: seq<string>, n: nat)
    requires n <= |keys|
    ensures Dupes(keys, n) + |SeenBefore(keys, n)| == n
  {
    if n > 0 {
      DupesDistinct(keys, n - 1);
      CardAdd(SeenBefore(keys, n - 1), keys[n - 1]);
    }
  }

  /** One more key, with the seen keys held in a map: a key already there counts as a
      duplicate, any other key joins the map. */
  lemma DupesStep(seen: map<string, bool>, keys: seq<string>, i: nat, key: string)
    requires i < |keys| && key == keys[i] && seen.Keys == SeenBefore(keys, i)
    ensures key in seen ==>
      seen.Keys == SeenBefore(keys, i + 1) && Dupes(keys, i + 1) == Dupes(keys, i) + 1
    ensures key !in seen ==>
      seen[key := true].Keys == SeenBefore(keys, i + 1) && Dupes(keys, i + 1) == Dupes(keys, i)
  {
  }

  /** The loop of `checkDuplicateSwatches`, `seen` kept as a map. */
  method CountDuplicates(data: seq<Json>) returns (dupes: nat)
    requires AllKeyed(data)
    ensures dupes == Dupes(KeysOf(data), |data|)
    ensures dupes == |data| - |SeenBefore(KeysOf(data), |data|)|
  {
    ghost var keys := KeysOf(data);
    var seen: map<string, bool> := map[];
    dupes := 0;
    for i := 0 to |data|
      invariant seen.Keys == SeenBefore(keys, i)
      invariant dupes == Dupes(keys, i)
    {
      var key := SwatchKey(data[i]);
      DupesStep(seen, keys, i, key);
      if key in seen {
        dupes := dupes + 1;
      } else {
        seen := seen[key := true];
      }
    }
    DupesDistinct(keys, |data|);
  }

  // ------------------------------------------------------------------
  // Junk Matsui records

  /** A record the junk loop can read: `formulaCode` a string or falsy, and
      `components` falsy or an array of summable items. */
  predicate JunkReadable(record: Json) {
    record != JNull && StrOrFalsy(Get(record, "formulaCode"))
    && var cs := Get(record, "components");
    !Truthy(cs) || (IsArr(cs) && PctItems(cs.value.items, "percentage"))
  }

  /** A record the script reports as junk: its code starts with `COPY:` or is `TEST`,
      or else its component percentages sum to more than 110. */
  predicate Junk(record: Json) {
    JunkReadable(record)
    && var code := StrOrEmpty(Get(record, "formulaCode"));
    var cs := Get(record, "components");
    StartsWith(code, "COPY:") || code == "TEST"
    || (IsArr(cs) && SumPct(cs.value.items, "percentage") > 110.0)
  }

  /** The junk loop of the Matsui section. */
  method CountJunk(data: seq<Json>) returns (junkCount: nat)
    requires forall i | 0 <= i < |data| :: JunkReadable(data[i])
    ensures junkCount == Schemas.CountValid(data, Junk, |data|)
  {
    junkCount := 0;
    for i := 0 to |data|
      invariant junkCount == Schemas.CountValid(data, Junk, i)
    {
      var record := data[i];
      var code := StrOrEmpty(Get(record, "formulaCode"));
      if StartsWith(code, "COPY:") || code == "TEST" {
        junkCount := junkCount + 1;
        continue;
      }
      var cs := if IsArr(Get(record, "components")) then Get(record, "components").value.items else [];
      var pctSum := SumPct(cs, "percentage");
      if pctSum > 110.0 {
        junkCount := junkCount + 1;
      }
    }
  }

  /** A record whose code marks it as a copy or a test is junk whatever its
      components; any other record is junk exactly when its sum exceeds 110. */
  lemma JunkCases(record: Json)
    requires JunkReadable(record)
    ensures var code := StrOrEmpty(Get(record, "formulaCode"));
      (StartsWith(code, "COPY:") || code == "TEST" ==> Junk(record))
      && (!(StartsWith(code, "COPY:") || code == "TEST") ==>
            (Junk(record) <==> IsArr(Get(record, "components"))
                               && SumPct(Get(record, "components").value.items, "percentage") > 110.0))
  {
  }

  // ------------------------------------------------------------------
  // The run

  /** The three sections of the report, each with its schema and checks. */
  datatype Section = IccSection | MatsuiSection | PantoneSection

  function SchemaOf(sec: Section): Json -> bool {
    match sec
    case IccSection => Schemas.IccFormula
    case MatsuiSection => Schemas.MatsuiFormula
    case PantoneSection => Schemas.PantoneSwatch
  }

  /** What the checks of a section need of a file's records to evaluate. */
  predicate FileReadable(sec: Section, data: seq<Json>) {
    match sec
    case IccSection => forall i | 0 <= i < |data| :: SumRecord(data[i], IccSums)
    case MatsuiSection => forall i | 0 <= i < |data| :: SumRecord(data[i], MatsuiSums) && JunkReadable(data[i])
    case PantoneSection => AllKeyed(data)
  }

  predicate FilesReadable(sec: Section, files: seq<Option<seq<Json>>>) {
    forall i | 0 <= i < |files| :: files[i].Some? ==> FileReadable(sec, files[i].value)
  }

  /** The warnings one loaded file adds: one for being short, one for the section's
      check (percentage sums, or duplicate swatches) finding anything. */
  function FileWarnings(sec: Section, data: seq<Json>, minRecords: nat): nat
    requires FileReadable(sec, data)
  {
    (if TooShort(data, minRecords) then 1 else 0)
    + match sec
      case IccSection =>
        if Schemas.CountValid(data, (v: Json) => OutOfRange(v, IccSums), |data|) > 0 then 1 else 0
      case MatsuiSection =>
        if Schemas.CountValid(data, (v: Json) => OutOfRange(v, MatsuiSums), |data|) > 0 then 1 else 0
      case PantoneSection => if Dupes(KeysOf(data), |data|) > 0 then 1 else 0
  }

  /** The warnings of a section's loaded files. */
  function Warnings(sec: Section, files: seq<Option<seq<Json>>>, specs: seq<FileSpec>): nat
    requires |files| == |specs| && FilesReadable(sec, files)
  {
    if files == [] then 0
    else
      var n := |files| - 1;
      Warnings(sec, files[..n], specs[..n])
      + (if files[n].Some? then FileWarnings(sec, files[n].value, specs[n].minRecords) else 0)
  }

  /** Some loaded file of the section has a record its schema rejects. */
  predicate HasInvalid(sec: Section, files: seq<Option<seq<Json>>>) {
    exists i | 0 <= i < |files| :: files[i].Some?
      && Schemas.CountValid(files[i].value, SchemaOf(sec), |files[i].value|) < |files[i].value|
  }

  /** The script's globals, `hasSchemaErrors` and `warnings`. */
  class Validation {
    var hasSchemaErrors: bool
    var warnings: nat

    constructor ()
      ensures !hasSchemaErrors && warnings == 0
    {
      hasSchemaErrors := false;
      warnings := 0;
    }

    /** `printResult(result)`: a result with invalid records sets the flag. */
    method PrintResult(result: Schemas.Report)
      modifies this
      ensures hasSchemaErrors == (old(hasSchemaErrors) || result.invalid > 0)
      ensures warnings == old(warnings)
    {
      if result.invalid > 0 {
        hasSchemaErrors := true;
      }
    }

    /** `checkMinRecords(data, label, minRecords)` */
    method CheckMinRecords(data: seq<Json>, minRecords: nat)
      modifies this
      ensures warnings == old(warnings) + (if TooShort(data, minRecords) then 1 else 0)
      ensures hasSchemaErrors == old(hasSchemaErrors)
    {
      if |data| < minRecords {
        warnings := warnings + 1;
      }
    }

    /** `checkPercentageSums(data, label, …)`: one warning when any record is out of
        range; the examples are printed. */
    method CheckPercentageSums(data: seq<Json>, chk: SumCheck)
      modifies this
      requires forall i | 0 <= i < |data| :: SumRecord(data[i], chk)
      ensures warnings == old(warnings)
        + (if Schemas.CountValid(data, (v: Json) => OutOfRange(v, chk), |data|) > 0 then 1 else 0)
      ensures hasSchemaErrors == old(hasSchemaErrors)
    {
      var outOfRange, _ := PercentageSums(data, chk);
      if outOfRange > 0 {
        warnings := warnings + 1;
      }
    }

    /** `checkDuplicateSwatches(data)`: one warning when any key repeats. */
    method CheckDuplicateSwatches(data: seq<Json>)
      modifies this
      requires AllKeyed(data)
      ensures warnings == old(warnings) + (if Dupes(KeysOf(data), |data|) > 0 then 1 else 0)
      ensures hasSchemaErrors == old(hasSchemaErrors)
    {
      var dupes := CountDuplicates(data);
      if dupes > 0 {
        warnings := warnings + 1;
      }
    }

    /** The body of a section's loop for a loaded file. */
    method CheckFile(sec: Section, data: seq<Json>, spec: FileSpec)
      modifies this
      requires FileReadable(sec, data)
      ensures hasSchemaErrors == (old(hasSchemaErrors)
        || Schemas.CountValid(data, SchemaOf(sec), |data|) < |data|)
      ensures warnings == old(warnings) + FileWarnings(sec, data, spec.minRecords)
    {
      var result := Schemas.ValidateRecords(data, SchemaOf(sec), spec.name);
      PrintResult(result);
      CheckMinRecords(data, spec.minRecords);
      match sec {
        case IccSection =>
          CheckPercentageSums(data, IccSums);
        case MatsuiSection =>
          CheckPercentageSums(data, MatsuiSums);
          var _ := CountJunk(data);
        case PantoneSection =>
          CheckDuplicateSwatches(data);
      }
    }

    /** A section's `for` loop: a file that was not loaded is skipped. */
    method CheckSection(sec: Section, files: seq<Option<seq<Json>>>, specs: seq<FileSpec>)
      modifies this
      requires |files| == |specs| && FilesReadable(sec, files)
      ensures hasSchemaErrors == (old(hasSchemaErrors) || HasInvalid(sec, files))
      ensures warnings == old(warnings) + Warnings(sec, files, specs)
    {
      for i := 0 to |files|
        invariant hasSchemaErrors == (old(hasSchemaErrors) || HasInvalid(sec, files[..i]))
        invariant warnings == old(warnings) + Warnings(sec, files[..i], specs[..i])
      {
        assert files[..i + 1][..i] == files[..i] && specs[..i + 1][..i] == specs[..i];
        HasInvalidStep(sec, files, i);
        if files[i].None? {
          continue;
        }
        CheckFile(sec, files[i].value, specs[i]);
      }
      assert files[..|files|] == files && specs[..|specs|] == specs;
    }
  }

  lemma HasInvalidStep(sec: Section, files: seq<Option<seq<Json>>>, i: nat)
    requires i < |files|
    ensures HasInvalid(sec, files[..i + 1]) <==>
      (HasInvalid(sec, files[..i])
       || (files[i].Some? && Schemas.CountValid(files[i].value, SchemaOf(sec), |files[i].value|) < |files[i].value|))
  {
    var a, b := files[..i + 1], files[..i];
    if HasInvalid(sec, b) {
      var k :| 0 <= k < |b| && b[k].Some?
        && Schemas.CountValid(b[k].value, SchemaOf(sec), |b[k].value|) < |b[k].value|;
      assert a[k] == b[k];
    }
    if HasInvalid(sec, a) {
      var k :| 0 <= k < |a| && a[k].Some?
        && Schemas.CountValid(a[k].value, SchemaOf(sec), |a[k].value|) < |a[k].value|;
      if k < i {
        assert b[k] == a[k];
      }
    }
    assert a[i] == files[i];
  }

  /** The script: the ICC, Matsui and Pantone sections in order, then the exit code.
      `icc`, `matsui` and `pantone` are the parsed files of each section's manifest. */
  method Run(icc: seq<Option<seq<Json>>>, matsui: seq<Option<seq<Json>>>, pantone: seq<Option<seq<Json>>>)
    returns (exitCode: int, warnings: nat)
    requires |icc| == |IccFiles| && |matsui| == |MatsuiFiles| && |pantone| == |PantoneFiles|
    requires FilesReadable(IccSection, icc) && FilesReadable(MatsuiSection, matsui)
    requires FilesReadable(PantoneSection, pantone)
    ensures exitCode == if HasInvalid(IccSection, icc) || HasInvalid(MatsuiSection, matsui)
                           || HasInvalid(PantoneSection, pantone) then 1 else 0
    ensures warnings == Warnings(IccSection, icc, IccFiles) + Warnings(MatsuiSection, matsui, MatsuiFiles)
                        + Warnings(PantoneSection, pantone, PantoneFiles)
  {
    var v := new Validation();
    v.CheckSection(IccSection, icc, IccFiles);
    v.CheckSection(MatsuiSection, matsui, MatsuiFiles);
    v.CheckSection(PantoneSection, pantone, PantoneFiles);
    exitCode := if v.hasSchemaErrors then 1 else 0;
    warnings := v.warnings;
  }

  /** The exit code is 1 exactly when some loaded file has a record its schema
      rejects: short files, sums and duplicates never change it. */
  lemma ExitCodeSchemaOnly(sec: Section, files: seq<Option<seq<Json>>>)
    ensures HasInvalid(sec, files) <==>
      exists i, k | 0 <= i < |files| && files[i].Some? && 0 <= k < |files[i].value| ::
        !SchemaOf(sec)(files[i].value[k])
  {
    forall i | 0 <= i < |files| && files[i].Some? {
      Schemas.CountValidBelow(files[i].value, SchemaOf(sec), |files[i].value|);
    }
  }
}
