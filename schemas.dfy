/** The record schemas shared by the server and the scripts, as predicates over
    parsed JSON, and `validateRecords`, which counts the records that fail a schema
    and keeps the first 20 failures. */
module Schemas {
  import opened Wrappers
  import opened JsText
  import opened JsonValue

  predicate IsBool(v: Option<Json>) { v.Some? && v.value.JBool? }

  /** `z.string().regex(/^[0-9A-Fa-f]{6}$/)` */
  predicate IsBareHex(h: string) { |h| == 6 && AllHex(h) }

  predicate StrField(v: Json, k: string) { IsStr(Get(v, k)) }
  predicate NumField(v: Json, k: string) { IsNum(Get(v, k)) }

  /** `IccLineSchema` */
  predicate IccLine(v: Json) {
    v.JObj? && StrField(v, "part_number") && StrField(v, "name") && NumField(v, "percent")
    && NumField(v, "weight") && StrField(v, "category") && NumField(v, "density")
  }

  /** `IccFormulaSchema`: the hex is `null` or `#RRGGBB`, and there is at least one line. */
  predicate IccFormula(v: Json) {
    v.JObj? && StrField(v, "id") && StrField(v, "code") && StrField(v, "name")
    && (Get(v, "hex") == Some(JNull) || (StrField(v, "hex") && IsHashHex(Get(v, "hex").value.s)))
    && StrField(v, "family")
    && IsArr(Get(v, "lines")) && |Get(v, "lines").value.items| >= 1
    && forall i | 0 <= i < |Get(v, "lines").value.items| :: IccLine(Get(v, "lines").value.items[i])
  }

  /** `MatsuiComponentSchema`: the hex is six digits without `#`, or empty. */
  predicate MatsuiComponent(v: Json) {
    v.JObj? && StrField(v, "componentCode") && StrField(v, "componentDescription")
    && NumField(v, "percentage")
    && StrField(v, "hex") && (IsBareHex(Get(v, "hex").value.s) || Get(v, "hex").value.s == [])
    && IsBool(Get(v, "isBase"))
  }

  /** `MatsuiSwatchColorSchema` */
  predicate MatsuiSwatchColor(v: Json) {
    v.JObj? && StrField(v, "_id") && StrField(v, "formulaCode") && StrField(v, "formulaColor")
  }

  /** `MatsuiFormulaSchema`: at least one component. */
  predicate MatsuiFormula(v: Json) {
    v.JObj? && StrField(v, "_id") && StrField(v, "formulaCode")
    && StrField(v, "formulaDescription") && StrField(v, "formulaSeries")
    && StrField(v, "formulaColor")
    && Get(v, "formulaSwatchColor").Some? && MatsuiSwatchColor(Get(v, "formulaSwatchColor").value)
    && IsArr(Get(v, "components")) && |Get(v, "components").value.items| >= 1
    && forall i | 0 <= i < |Get(v, "components").value.items| ::
         MatsuiComponent(Get(v, "components").value.items[i])
  }

  /** `PantoneSwatchSchema`: series `C` or `U`, hex `#RRGGBB`. */
  predicate PantoneSwatch(v: Json) {
    v.JObj? && StrField(v, "pms")
    && (Get(v, "series") == Str("C") || Get(v, "series") == Str("U"))
    && StrField(v, "hex") && IsHashHex(Get(v, "hex").value.s)
    && StrField(v, "name") && StrField(v, "notes")
  }

  datatype Schema = IccFormulaSchema | MatsuiFormulaSchema | PantoneSwatchSchema

  /** `schema.safeParse(v).success` */
  predicate Conforms(schema: Schema, v: Json) {
    match schema
    case IccFormulaSchema => IccFormula(v)
    case MatsuiFormulaSchema => MatsuiFormula(v)
    case PantoneSwatchSchema => PantoneSwatch(v)
  }

  // ------------------------------------------------------------------
  // validateRecords

  const MaxErrors := 20

  /** An entry of `errors`; zod's issue messages are not modelled. */
  datatype RecordError = RecordError(index: nat, id: Json)

  /** `{ label, total, valid, invalid, errors }`, the label named `name` here */
  datatype Report = Report(name: string, total: nat, valid: nat, invalid: nat, errors: seq<RecordError>)

  /** `data[i]?.id || data[i]?._id || data[i]?.pms || "index <i>"` */
  function ErrorId(v: Json, i: nat): (id: Json)
    ensures Truthy(Get(v, "id")) ==> id == Get(v, "id").value
    ensures !Truthy(Get(v, "id")) && Truthy(Get(v, "_id")) ==> id == Get(v, "_id").value
    ensures !Truthy(Get(v, "id")) && !Truthy(Get(v, "_id")) && Truthy(Get(v, "pms")) ==>
      id == Get(v, "pms").value
    ensures !Truthy(Get(v, "id")) && !Truthy(Get(v, "_id")) && !Truthy(Get(v, "pms")) ==>
      id == JStr("index " + DecimalString(i))
  {
    Or(Get(v, "id"), Or(Get(v, "_id"), Or(Get(v, "pms"), Str("index " + DecimalString(i))))).value
  }

  /** Every failure among the first `n` records, in index order. */
  function Failures(data: seq<Json>, ok: Json -> bool, n: nat): (fs: seq<RecordError>)
    requires n <= |data|
    ensures |fs| <= n
  {
    if n == 0 then []
    else
      Failures(data, ok, n - 1)
      + (if ok(data[n - 1]) then [] else [RecordError(n - 1, ErrorId(data[n - 1], n - 1))])
  }

  /** How many of the first `n` records conform. */
  function CountValid(data: seq<Json>, ok: Json -> bool, n: nat): (c: nat)
    requires n <= |data|
    ensures c <= n
  {
    if n == 0 then 0
    else CountValid(data, ok, n - 1) + (if ok(data[n - 1]) then 1 else 0)
  }

  /** The first `k` entries, or all of them when there are fewer. */
  function Take<T>(s: seq<T>, k: nat): (r: seq<T>)
    ensures |r| == if |s| < k then |s| else k
    ensures forall i | 0 <= i < |r| :: r[i] == s[i]
  {
    if |s| <= k then s else s[..k]
  }

  /** `validateRecords(data, schema, label)`, with `ok` standing for
      `v => schema.safeParse(v).success` (as `Conforms(schema, _)` gives it). */
  method ValidateRecords(data: seq<Json>, ok: Json -> bool, labelText: string) returns (report: Report)
    ensures report.name == labelText && report.total == |data|
    ensures report.valid == CountValid(data, ok, |data|)
    ensures report.valid + report.invalid == report.total
    ensures report.errors == Take(Failures(data, ok, |data|), MaxErrors)
  {
    var errors: seq<RecordError> := [];
    var valid := 0;
    var invalid := 0;
    for i := 0 to |data|
      invariant valid == CountValid(data, ok, i)
      invariant valid + invalid == i
      invariant errors == Take(Failures(data, ok, i), MaxErrors)
    {
      FailuresStep(data, ok, i, errors);
      if ok(data[i]) {
        valid := valid + 1;
      } else {
        invalid := invalid + 1;
        if |errors| < MaxErrors {
          errors := errors + [RecordError(i, ErrorId(data[i], i))];
        }
      }
    }
    return Report(labelText, |data|, valid, invalid, errors);
  }

  /** One more record: the capped error list grows by that record's error only when
      it fails and fewer than `MaxErrors` are kept. */
  lemma FailuresStep(data: seq<Json>, ok: Json -> bool, i: nat, errors: seq<RecordError>)
    requires i < |data| && errors == Take(Failures(data, ok, i), MaxErrors)
    ensures Take(Failures(data, ok, i + 1), MaxErrors) ==
      if ok(data[i]) || |errors| >= MaxErrors then errors
      else errors + [RecordError(i, ErrorId(data[i], i))]
  {
    var prev := Failures(data, ok, i);
    if !ok(data[i]) && |prev| >= MaxErrors {
      assert (prev + [RecordError(i, ErrorId(data[i], i))])[..MaxErrors] == prev[..MaxErrors];
    }
  }

  /** One failure is recorded per failing record. */
  lemma {:induction false} FailuresCount(data: seq<Json>, ok: Json -> bool, n: nat)
    requires n <= |data|
    ensures |Failures(data, ok, n)| == n - CountValid(data, ok, n)
  {
    if n > 0 {
      FailuresCount(data, ok, n - 1);
    }
  }

  /** `errors.length == min(invalid, 20)`: 30 failing records give 20 errors. */
  lemma ErrorsCapped(data: seq<Json>, ok: Json -> bool, report: Report)
    requires report.total == |data| && report.valid == CountValid(data, ok, |data|)
    requires report.valid + report.invalid == report.total
    requires report.errors == Take(Failures(data, ok, |data|), MaxErrors)
    ensures |report.errors| == if report.invalid < MaxErrors then report.invalid else MaxErrors
  {
    FailuresCount(data, ok, |data|);
  }

  /** The failures name failing records, in increasing index order, each with the
      id it is reported under. */
  lemma {:induction false} FailuresOrdered(data: seq<Json>, ok: Json -> bool, n: nat)
    requires n <= |data|
    ensures forall k | 0 <= k < |Failures(data, ok, n)| ::
      var e := Failures(data, ok, n)[k];
      e.index < n && !ok(data[e.index]) && e.id == ErrorId(data[e.index], e.index)
    ensures forall k, l | 0 <= k < l < |Failures(data, ok, n)| ::
      Failures(data, ok, n)[k].index < Failures(data, ok, n)[l].index
  {
    if n > 0 {
      FailuresOrdered(data, ok, n - 1);
    }
  }

  /** Every failing record is among the failures. */
  lemma {:induction false} FailuresComplete(data: seq<Json>, ok: Json -> bool, n: nat, i: nat)
    requires i < n <= |data| && !ok(data[i])
    ensures exists k | 0 <= k < |Failures(data, ok, n)| :: Failures(data, ok, n)[k].index == i
  {
    var prev := Failures(data, ok, n - 1);
    if i == n - 1 {
      assert Failures(data, ok, n)[|prev|].index == i;
    } else {
      FailuresComplete(data, ok, n - 1, i);
      var k :| 0 <= k < |prev| && prev[k].index == i;
      assert Failures(data, ok, n)[k] == prev[k];
    }
  }

  /** The records among the first `n` for which `ok` holds. */
  function Holding(data: seq<Json>, ok: Json -> bool, n: nat): set<nat>
    requires n <= |data|
  {
    set i: nat | i < n && ok(data[i])
  }

  lemma HoldingStep(data: seq<Json>, ok: Json -> bool, n: nat)
    requires 0 < n <= |data|
    ensures Holding(data, ok, n) == Holding(data, ok, n - 1) + (if ok(data[n - 1]) then {n - 1} else {})
    ensures n - 1 !in Holding(data, ok, n - 1)
  {
  }

  /** The count is the number of records for which `ok` holds. */
  lemma {:induction false} CountValidCard(data: seq<Json>, ok: Json -> bool, n: nat)
    requires n <= |data|
    ensures CountValid(data, ok, n) == |Holding(data, ok, n)|
  {
    if n > 0 {
      CountValidCard(data, ok, n - 1);
      HoldingStep(data, ok, n);
    } else {
      assert Holding(data, ok, 0) == {};
    }
  }

  /** Fewer than `n` conform exactly when one of the first `n` records fails. */
  lemma {:induction false} CountValidBelow(data: seq<Json>, ok: Json -> bool, n: nat)
    requires n <= |data|
    ensures CountValid(data, ok, n) < n <==> exists k | 0 <= k < n :: !ok(data[k])
  {
    if n > 0 {
      CountValidBelow(data, ok, n - 1);
    }
  }
}
