/** `scripts/patch-icc-hex.js`: fills in the missing hex of ICC formulas, first from
    a table of specialty Pantone colours, then from the swatch-name map after a date
    suffix is cut from the name and `126C` is spaced to `126 C`. */
module PatchIccHex {
  import opened Wrappers
  import opened JsText
  import opened JsonValue
  import opened Patterns
  import opened Lists
  import opened SwatchNames

  /** `SPECIALTY_HEX`, as its list of entries: reference hex values for names the
      swatch file lacks.  No key repeats. */
  const SpecialtyTable: seq<(string, string)> := [
      ("BLACK C", "#2D2926"),
      ("BLACK 2 C", "#332F21"),
      ("BLACK 3 C", "#212721"),
      ("BLACK 4 C", "#31261D"),
      ("BLACK 5 C", "#3E3D2D"),
      ("BLACK 6 C", "#101820"),
      ("BLACK 7 C", "#3D3935"),
      ("BLUE 072 C", "#0018A8"),
      ("BRIGHT RED C", "#F93822"),
      ("COOL GRAY 1 C", "#D9D9D6"),
      ("COOL GRAY 2 C", "#D0D0CE"),
      ("COOL GRAY 3 C", "#C8C9C7"),
      ("COOL GRAY 4 C", "#BBBCBC"),
      ("COOL GRAY 5 C", "#B1B3B3"),
      ("COOL GRAY 6 C", "#A7A8AA"),
      ("COOL GRAY 7 C", "#97999B"),
      ("COOL GRAY 8 C", "#888B8D"),
      ("COOL GRAY 9 C", "#75787B"),
      ("COOL GRAY 10 C", "#63666A"),
      ("COOL GRAY 11 C", "#53565A"),
      ("DARK BLUE C", "#00239C"),
      ("GREEN C", "#00AB84"),
      ("MEDIUM PURPLE C", "#4E008E"),
      ("ORANGE 021 C", "#FE5000"),
      ("PINK C", "#D62598"),
      ("PROCESS BLACK C", "#2D2926"),
      ("PROCESS BLUE C", "#0085CA"),
      ("PROCESS CYAN C", "#009FE3"),
      ("PROCESS MAGENTA C", "#D6006E"),
      ("PROCESS YELLOW C", "#FFD500"),
      ("PURPLE C", "#BB29BB"),
      ("RED 032 C", "#EF3340"),
      ("REFLEX BLUE C", "#001489"),
      ("RHODAMINE RED C", "#E10098"),
      ("RUBINE RED C", "#CE0058"),
      ("VIOLET C", "#440099"),
      ("VIOLET V2 C", "#440099"),
      ("WARM GRAY 1 C", "#D7D2CB"),
      ("WARM GRAY 2 C", "#CBC4BC"),
      ("WARM GRAY 3 C", "#BFB8AF"),
      ("WARM GRAY 4 C", "#B6ADA5"),
      ("WARM GRAY 5 C", "#ACA39A"),
      ("WARM GRAY 6 C", "#A59C94"),
      ("WARM GRAY 7 C", "#968C83"),
      ("WARM GRAY 8 C", "#8C8279"),
      ("WARM GRAY 9 C", "#83786F"),
      ("WARM GRAY 10 C", "#796E65"),
      ("WARM GRAY 10C", "#796E65"),
      ("WARM GRAY 11 C", "#6D6662"),
      ("WARM RED C", "#F9423A"),
      ("YELLOW C", "#FEDD00"),
      ("YELLOW 012 C", "#FFD700"),
      ("YELLOW PY12 C", "#FFD700")
    ]

  /** `SPECIALTY_HEX[upper]`.  No key of `Object.prototype` is upper case, so a name
      outside the table finds nothing. */
  function Specialty(upper: string): Option<string> {
    Find(SpecialtyTable, upper)
  }

  // `upper.replace(/(\d)([CU])$/, "$1 $2")`: the pattern has a fixed length of two
  // and is anchored at the end, so only the last two characters can match.
  function SpaceCoating(u: string): string {
    if |u| >= 2 && IsDigit(u[|u| - 2]) && (u[|u| - 1] == 'C' || u[|u| - 1] == 'U') then
      u[..|u| - 1] + " " + u[|u| - 1..]
    else u
  }

  /** The name looked up in the map: the date suffix cut, the coating letter spaced. */
  function Cleaned(upper: string): string {
    SpaceCoating(StripSuffix(DateSuffix, upper))
  }

  /** `resolveHex(formulaName, swatchMap)`.  The result is a JavaScript value: `null`
      is `Some(JNull)`, and `None` is the `undefined` the map holds for a swatch
      that had no hex. */
  function ResolveHex(name: Option<Json>, m: NameMap): Option<Json>
    requires StrOrFalsy(name)
  {
    if !Truthy(name) then Some(JNull)
    else
      var upper := UpperKey(name.value.s);
      match Specialty(upper)
      case Some(hex) => Some(JStr(hex))
      case None => Lookup(m, Cleaned(upper))
  }

  // ------------------------------------------------------------------
  // The two name shapes the script's comments give

  /** `" - 6-2023"` is a date suffix. */
  lemma DateSuffixExample()
    ensures Matches(DateSuffix, " - 6-2023")
  {
    var t := " - 6-2023";
    assert SpaceDashRun(t, 3) == 0;
    assert SpaceDashRun(t, 2) == 1;
    assert SpaceDashRun(t, 1) == 2;
    assert SpaceDashRun(t, 0) == 3;
    var h := t[..3];
    assert SpaceRun(h, 3) == 0;
    assert SpaceRun(h, 2) == 1;
    assert SpaceRun(h, 1) == 0;
    assert SpaceRun(h, 0) == 1;
    assert DateShape(t[3..], 1, 1, 0, 3);
  }
  /** `"113C - 6-2023"` loses its date from the space after `C`. */
  lemma StripDateExample()
    ensures StripSuffix(DateSuffix, "113C - 6-2023") == "113C"
  {
    var s := "113C - 6-2023";
    NoDateSuffix(s[0..]);
    NoDateSuffix(s[1..]);
    NoDateSuffix(s[2..]);
    NoDateSuffix(s[3..]);
    DateSuffixExample();
    assert s[4..] == " - 6-2023";
    StripAt(DateSuffix, s, 4);
  }
  /** `"126C"` has no date to lose. */
  lemma StripNoDateExample()
    ensures StripSuffix(DateSuffix, "126C") == "126C"
  {
    var u := "126C";
    NoDateSuffix(u[0..]);
    NoDateSuffix(u[1..]);
    NoDateSuffix(u[2..]);
    NoDateSuffix(u[3..]);
    NoDateSuffix(u[4..]);
  }
  lemma SpaceCoatingExample()
    ensures SpaceCoating("113C") == "113 C" && SpaceCoating("126C") == "126 C"
  {
    assert "113C"[..3] + " " + "113C"[3..] == "113 C";
    assert "126C"[..3] + " " + "126C"[3..] == "126 C";
  }
  /** The name looked up for `"113C - 6-2023"` is `"113 C"`, and for `"126C"` it is `"126 C"`. */
  lemma CleanedExamples()
    ensures Cleaned("126C") == "126 C"
    ensures Cleaned("113C - 6-2023") == "113 C"
  {
    StripDateExample();
    StripNoDateExample();
    SpaceCoatingExample();
  }
  /** What `resolveHex` returns: `null` for a falsy name; the table's value for a
      specialty name, whatever the map holds; otherwise the value stored under the
      first variant of the cleaned name that the map has, or `null` when it has none. */
  lemma ResolveHexCases(name: Option<Json>, m: NameMap)
    requires StrOrFalsy(name)
    ensures !Truthy(name) ==> ResolveHex(name, m) == Some(JNull)
    ensures Truthy(name) && Specialty(UpperKey(name.value.s)).Some? ==>
      exists h :: ResolveHex(name, m) == Some(JStr(h)) && (UpperKey(name.value.s), h) in SpecialtyTable
    ensures Truthy(name) && Specialty(UpperKey(name.value.s)).None? ==>
      var vs := Variants(Cleaned(UpperKey(name.value.s)));
      ((forall i | 0 <= i < |vs| :: vs[i] !in m) ==> ResolveHex(name, m) == Some(JNull))
      && forall i | 0 <= i < |vs| && vs[i] in m && (forall j | 0 <= j < i :: vs[j] !in m) ::
           ResolveHex(name, m) == m[vs[i]]
  {
    if Truthy(name) {
      var upper := UpperKey(name.value.s);
      if Specialty(upper).Some? {
        var h := Specialty(upper).value;
        assert ResolveHex(name, m) == Some(JStr(h));
      } else {
        assert ResolveHex(name, m) == Lookup(m, Cleaned(upper));
        LookupCases(m, Cleaned(upper));
      }
    }
  }

  /** `f.hex === null` */
  predicate HexIsNull(f: Json) { Get(f, "hex") == Some(JNull) }

  /** `formulas.filter((f) => f.hex === null).length` */
  function NullHexCount(fs: seq<Json>): nat {
    if fs == [] then 0 else NullHexCount(fs[..|fs| - 1]) + (if HexIsNull(fs[|fs| - 1]) then 1 else 0)
  }

  /** A formula the loop can process without a `TypeError`: not `null`, and when its
      hex is `null`, a name that is a string or falsy. */
  predicate Patchable(f: Json) {
    f != JNull && (HexIsNull(f) ==> StrOrFalsy(Get(f, "name")))
  }

  predicate AllPatchable(fs: seq<Json>) {
    forall i | 0 <= i < |fs| :: Patchable(fs[i])
  }

  /** What the loop does with one formula, and which counter it raises. */
  datatype Fix = Untouched | Unresolved | BySpecialty | ByDateStrip

  function FixOf(f: Json, m: NameMap): (x: Fix)
    requires Patchable(f)
    ensures x == Untouched <==> !HexIsNull(f)
    ensures (x == BySpecialty || x == ByDateStrip) <==> HexIsNull(f) && Truthy(ResolveHex(Get(f, "name"), m))
    ensures x == BySpecialty <==>
      HexIsNull(f) && Truthy(ResolveHex(Get(f, "name"), m)) && Specialty(UpperKey(Get(f, "name").value.s)).Some?
  {
    if !HexIsNull(f) then Untouched
    else if !Truthy(ResolveHex(Get(f, "name"), m)) then Unresolved
    else if Specialty(UpperKey(Get(f, "name").value.s)).Some? then BySpecialty
    else ByDateStrip
  }

  /** `f.hex = hex` */
  function SetField(f: Json, k: string, v: Json): (r: Json)
    requires f.JObj?
    ensures Get(r, k) == Some(v)
    ensures forall k' | k' != k :: Get(r, k') == Get(f, k')
  {
    JObj(f.fields[k := v])
  }

  /** The formula after the loop: a resolved one gets the resolved hex, every
      other formula is left as it was. */
  function Patched(f: Json, m: NameMap): (r: Json)
    requires Patchable(f)
    ensures FixOf(f, m) == Untouched || FixOf(f, m) == Unresolved ==> r == f
    ensures FixOf(f, m) == BySpecialty || FixOf(f, m) == ByDateStrip ==>
      Get(r, "hex") == ResolveHex(Get(f, "name"), m) && !HexIsNull(r)
      && forall k | k != "hex" :: Get(r, k) == Get(f, k)
  {
    match FixOf(f, m)
    case BySpecialty => SetField(f, "hex", ResolveHex(Get(f, "name"), m).value)
    case ByDateStrip => SetField(f, "hex", ResolveHex(Get(f, "name"), m).value)
    case _ => f
  }

  /** One turn of the main loop: the patched formula and the counter it raises. */
  method PatchOne(f: Json, m: NameMap) returns (g: Json, x: Fix)
    requires Patchable(f)
    ensures g == Patched(f, m) && x == FixOf(f, m)
  {
    g, x := f, if HexIsNull(f) then Unresolved else Untouched;
    if HexIsNull(f) {
      var hex := ResolveHex(Get(f, "name"), m);
      if Truthy(hex) {
        g := SetField(f, "hex", hex.value);
        var upper := UpperKey(Get(f, "name").value.s);
        if Specialty(upper).Some? {
          x := BySpecialty;
        } else {
          x := ByDateStrip;
        }
      }
    }
  }

  /** A patched formula still has a `null` hex exactly when it was not resolved. */
  lemma PatchedNull(f: Json, m: NameMap)
    requires Patchable(f)
    ensures HexIsNull(Patched(f, m)) <==> HexIsNull(f) && FixOf(f, m) == Unresolved
  {
  }

  /** The outcome for each formula of `fs`. */
  function Fixes(fs: seq<Json>, m: NameMap): (xs: seq<Fix>)
    requires AllPatchable(fs)
    ensures |xs| == |fs|
  {
    if fs == [] then [] else Fixes(fs[..|fs| - 1], m) + [FixOf(fs[|fs| - 1], m)]
  }

  lemma {:induction false} FixesAt(fs: seq<Json>, m: NameMap, j: nat)
    requires AllPatchable(fs) && j < |fs|
    ensures Fixes(fs, m)[j] == FixOf(fs[j], m)
  {
    var n := |fs| - 1;
    if j < n {
      FixesAt(fs[..n], m, j);
    }
  }

  /** What the loop does to one formula; a formula the loop could not be given is
      left as it is. */
  function PatchWith(m: NameMap): Json -> Json {
    f => if Patchable(f) then Patched(f, m) else f
  }

  /** Every formula of `fs` as the loop leaves it. */
  function PatchAll(fs: seq<Json>, m: NameMap): (r: seq<Json>)
    requires AllPatchable(fs)
    ensures |r| == |fs|
  {
    Map(fs, PatchWith(m))
  }

  /** The loop treats each formula on its own. */
  lemma PatchAllAt(fs: seq<Json>, m: NameMap, j: nat)
    requires AllPatchable(fs) && j < |fs|
    ensures PatchAll(fs, m)[j] == Patched(fs[j], m)
  {
    assert Patchable(fs[j]);
  }

  /** The loop's three counters. */
  datatype Tally = Tally(resolved: nat, bySpecialty: nat, byDateStrip: nat)

  /** `resolved++` and then `bySpecialty++` or `byDateStrip++` for a resolved formula. */
  function Tallied(t: Tally, x: Fix): Tally {
    match x
    case BySpecialty => Tally(t.resolved + 1, t.bySpecialty + 1, t.byDateStrip)
    case ByDateStrip => Tally(t.resolved + 1, t.bySpecialty, t.byDateStrip + 1)
    case _ => t
  }

  /** The counters after the outcomes `xs`, from zero. */
  function TallyOf(xs: seq<Fix>): Tally {
    if xs == [] then Tally(0, 0, 0) else Tallied(TallyOf(xs[..|xs| - 1]), xs[|xs| - 1])
  }

  /** The counters count the two kinds of fix, and `resolved` is their sum. */
  lemma {:induction false} TallyCounts(xs: seq<Fix>)
    ensures TallyOf(xs).bySpecialty == Count(xs, BySpecialty)
    ensures TallyOf(xs).byDateStrip == Count(xs, ByDateStrip)
    ensures TallyOf(xs).resolved == Count(xs, BySpecialty) + Count(xs, ByDateStrip)
  {
    if xs != [] {
      TallyCounts(xs[..|xs| - 1]);
    }
  }

  /** A formula keeps a `null` hex unless it is resolved, and only a formula with a
      `null` hex is resolved. */
  predicate NullsAccounted(before: seq<Json>, after: seq<Json>, xs: seq<Fix>) {
    |after| == |before| == |xs|
    && forall j | 0 <= j < |xs| ::
         (HexIsNull(before[j]) <==> HexIsNull(after[j]) || xs[j] == BySpecialty || xs[j] == ByDateStrip)
         && !(HexIsNull(after[j]) && (xs[j] == BySpecialty || xs[j] == ByDateStrip))
  }

  lemma {:induction false} NullCounts(before: seq<Json>, after: seq<Json>, xs: seq<Fix>)
    requires NullsAccounted(before, after, xs)
    ensures NullHexCount(after) + Count(xs, BySpecialty) + Count(xs, ByDateStrip) == NullHexCount(before)
  {
    if xs != [] {
      var n := |xs| - 1;
      NullCounts(before[..n], after[..n], xs[..n]);
    }
  }

  /** Each resolved formula takes one `null` hex away: after the loop there are as
      many `null` hexes as before, less the two counters. */
  lemma PatchCounts(fs: seq<Json>, m: NameMap)
    requires AllPatchable(fs)
    ensures NullHexCount(PatchAll(fs, m)) + Count(Fixes(fs, m), BySpecialty) + Count(Fixes(fs, m), ByDateStrip)
            == NullHexCount(fs)
  {
    forall j | 0 <= j < |fs| ensures
      (HexIsNull(fs[j]) <==> HexIsNull(PatchAll(fs, m)[j]) || Fixes(fs, m)[j] == BySpecialty || Fixes(fs, m)[j] == ByDateStrip)
      && !(HexIsNull(PatchAll(fs, m)[j]) && (Fixes(fs, m)[j] == BySpecialty || Fixes(fs, m)[j] == ByDateStrip))
    {
      PatchAllAt(fs, m, j);
      FixesAt(fs, m, j);
      PatchedNull(fs[j], m);
    }
    NullCounts(fs, PatchAll(fs, m), Fixes(fs, m));
  }

  /** One more turn of the loop patches one more formula. */
  lemma PatchAllStep(before: seq<Json>, m: NameMap, i: nat)
    requires AllPatchable(before) && i < |before|
    ensures PatchAll(before[..i + 1], m) == PatchAll(before[..i], m) + [Patched(before[i], m)]
  {
    MapStep(before, PatchWith(m), i);
    assert Patchable(before[i]);
  }

  /** What the array holds after one more turn of the loop. */
  lemma PatchStep(before: seq<Json>, m: NameMap, i: nat)
    requires AllPatchable(before) && i < |before|
    ensures (PatchAll(before[..i], m) + before[i..])[i := Patched(before[i], m)]
         == PatchAll(before[..i + 1], m) + before[i + 1..]
  {
    PatchAllStep(before, m, i);
    assert before[i..] == [before[i]] + before[i + 1..];
    UpdateAt(PatchAll(before[..i], m), before[i], Patched(before[i], m), before[i + 1..]);
  }

  /** One more turn of the loop notes one more outcome. */
  lemma FixesStep(before: seq<Json>, m: NameMap, i: nat)
    requires AllPatchable(before) && i < |before|
    ensures Fixes(before[..i + 1], m) == Fixes(before[..i], m) + [FixOf(before[i], m)]
  {
    assert before[..i + 1][..i] == before[..i];
  }

  /** Replacing the element after `p` replaces it and nothing else. */
  lemma UpdateAt<T>(p: seq<T>, x: T, y: T, rest: seq<T>)
    ensures (p + ([x] + rest))[|p| := y] == p + [y] + rest
  {
    var a, b := (p + ([x] + rest))[|p| := y], p + [y] + rest;
    assert forall j | 0 <= j < |a| :: a[j] == b[j];
  }

  /** The `for` loop: each formula patched in place, the counters raised. */
  method PatchLoop(formulas: array<Json>, m: NameMap) returns (t: Tally)
    requires AllPatchable(formulas[..])
    modifies formulas
    ensures formulas[..] == PatchAll(old(formulas[..]), m)
    ensures t == TallyOf(Fixes(old(formulas[..]), m))
  {
    t := Tally(0, 0, 0);
    ghost var before := formulas[..];
    for i := 0 to formulas.Length
      invariant formulas[..] == PatchAll(before[..i], m) + before[i..]
      invariant t == TallyOf(Fixes(before[..i], m))
    {
      ghost var cur := formulas[..];
      assert formulas[i] == before[i];
      var g, x := PatchOne(formulas[i], m);
      formulas[i] := g;
      assert formulas[..] == cur[i := g];
      t := Tallied(t, x);
      PatchStep(before, m, i);
      FixesStep(before, m, i);
    }
    assert before[..formulas.Length] == before;
  }

  /** The script after loading: counts the `null` hexes, patches the formulas in
      place, and counts again. */
  method Patch(formulas: array<Json>, m: NameMap)
    returns (nullBefore: nat, resolved: nat, bySpecialty: nat, byDateStrip: nat, nullAfter: nat)
    requires AllPatchable(formulas[..])
    modifies formulas
    ensures formulas[..] == PatchAll(old(formulas[..]), m)
    ensures nullBefore == NullHexCount(old(formulas[..]))
    ensures nullAfter == NullHexCount(formulas[..])
    ensures bySpecialty == Count(Fixes(old(formulas[..]), m), BySpecialty)
    ensures byDateStrip == Count(Fixes(old(formulas[..]), m), ByDateStrip)
    ensures resolved == bySpecialty + byDateStrip
    ensures nullAfter == nullBefore - resolved
  {
    ghost var before := formulas[..];
    nullBefore := NullHexCount(formulas[..]);
    var t := PatchLoop(formulas, m);
    resolved, bySpecialty, byDateStrip := t.resolved, t.bySpecialty, t.byDateStrip;
    TallyCounts(Fixes(before, m));
    PatchCounts(before, m);
    nullAfter := NullHexCount(formulas[..]);
  }
}
