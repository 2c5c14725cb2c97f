/** Parsed JSON values, as `JSON.parse` produces them, with the JavaScript
    property access and truthiness rules the source applies to them. */
module JsonValue {
  import opened Wrappers

  datatype Json =
    | JNull
    | JBool(b: bool)
    | JNum(n: real)
    | JStr(s: string)
    | JArr(items: seq<Json>)
    | JObj(fields: map<string, Json>)

  /** `v?.k`; `None` is `undefined`.  Only objects carry properties here. */
  function Get(v: Json, k: string): (r: Option<Json>)
    ensures r.Some? <==> v.JObj? && k in v.fields
    ensures r.Some? ==> r.value == v.fields[k]
  {
    if v.JObj? && k in v.fields then Some(v.fields[k]) else None
  }

  /** `Boolean(v)`: `undefined`, `null`, `false`, `0` and `""` are falsy. */
  predicate Truthy(v: Option<Json>) {
    match v
    case None => false
    case Some(JNull) => false
    case Some(JBool(b)) => b
    case Some(JNum(n)) => n != 0.0
    case Some(JStr(s)) => s != []
    case Some(_) => true
  }

  /** `a || b` */
  function Or(a: Option<Json>, b: Option<Json>): (r: Option<Json>)
    ensures Truthy(r) <==> Truthy(a) || Truthy(b)
    ensures Truthy(a) ==> r == a
    ensures !Truthy(a) ==> r == b
  {
    if Truthy(a) then a else b
  }

  predicate IsStr(v: Option<Json>) { v.Some? && v.value.JStr? }
  predicate IsNum(v: Option<Json>) { v.Some? && v.value.JNum? }
  predicate IsArr(v: Option<Json>) { v.Some? && v.value.JArr? }

  /** A string property, or a falsy one (so that `v || ""` is a string). */
  predicate StrOrFalsy(v: Option<Json>) { IsStr(v) || !Truthy(v) }

  /** `v || ""` for a value that is a string or falsy. */
  function StrOrEmpty(v: Option<Json>): (r: string)
    requires StrOrFalsy(v)
    ensures IsStr(v) ==> r == v.value.s
    ensures r == [] <==> !Truthy(v)
  {
    if IsStr(v) then v.value.s else []
  }

  function Str(s: string): Option<Json> { Some(JStr(s)) }
}
