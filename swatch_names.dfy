/** The name-to-hex map both ICC scripts build from the Pantone swatch file
    (`loadSwatchMap`, the same code in `scripts/patch-icc-hex.js` and
    `scripts/seed-icc.js`), and the chain of name variants both look up in it. */
module SwatchNames {
  import opened Wrappers
  import opened JsText
  import opened JsonValue
  import opened Patterns

  /** A JavaScript `Map` from a name to the swatch's `hex` as read (`None` is
      `undefined`, which `map.set(short, s.hex)` stores like any other value). */
  type NameMap = map<string, Option<Json>>

  /** A swatch `(s.name || s.pms || "").toUpperCase()` can be evaluated on. */
  predicate Named(s: Json) {
    s != JNull && IsStr(Or(Or(Get(s, "name"), Get(s, "pms")), Str("")))
  }

  /** `(s.name || s.pms || "").toUpperCase().trim()` */
  function NameKey(s: Json): string
    requires Named(s)
  {
    Trim(Upper(Or(Or(Get(s, "name"), Get(s, "pms")), Str("")).value.s))
  }

  // `key.replace(/^W\s*/, "")`: the word and the white space after it are cut
  // from the front, when the key starts with the word.
  function StripWord(key: string, w: string): (r: string)
    ensures !StartsWith(key, w) ==> r == key
    ensures StartsWith(key, w) ==>
      |w| + |r| <= |key| && key[|key| - |r|..] == r && AllSpace(key[|w|..|key| - |r|])
      && (r != [] ==> !IsSpace(r[0]))
  {
    if StartsWith(key, w) then
      var n := SpaceRun(key, |w|);
      key[|w| + n..]
    else key
  }

  // `key.replace(/^PMS\s*/, "").replace(/^PANTONE\s*/, "")`
  function ShortKey(key: string): string {
    StripWord(StripWord(key, "PMS"), "PANTONE")
  }

  /** The names a swatch with this key and short key is registered under: the key
      when it is non-empty and the hex truthy, the short key whenever it is non-empty. */
  function KeySet(key: string, hexTruthy: bool, short: string): set<string> {
    (if key != [] && hexTruthy then {key} else {}) + (if short != [] then {short} else {})
  }

  /** Both `map.set` calls of one turn of the loop, on the computed names. */
  function SetBoth(m: NameMap, key: string, hexTruthy: bool, short: string, hex: Option<Json>): (r: NameMap)
    ensures forall k :: k in r <==> k in m || k in KeySet(key, hexTruthy, short)
    ensures forall k | k in KeySet(key, hexTruthy, short) :: r[k] == hex
    ensures forall k | k in m && k !in KeySet(key, hexTruthy, short) :: r[k] == m[k]
  {
    var m1 := if key != [] && hexTruthy then m[key := hex] else m;
    if short != [] then m1[short := hex] else m1
  }

  /** What one swatch registers: the names, and the value stored under each. */
  datatype Entry = Entry(names: set<string>, hex: Option<Json>)

  function EntryOf(s: Json): Entry
    requires Named(s)
  {
    Entry(KeySet(NameKey(s), Truthy(Get(s, "hex")), ShortKey(NameKey(s))), Get(s, "hex"))
  }

  /** `m` with every name of `e` set to its value. */
  function Apply(m: NameMap, e: Entry): (r: NameMap)
    ensures forall k :: k in r <==> k in m || k in e.names
    ensures forall k | k in e.names :: r[k] == e.hex
    ensures forall k | k in m && k !in e.names :: r[k] == m[k]
  {
    map k | k in m.Keys + e.names :: if k in e.names then e.hex else m[k]
  }

  /** One turn of the `for` loop. */
  function Register(m: NameMap, s: Json): (r: NameMap)
    requires Named(s)
    ensures r == Apply(m, EntryOf(s))
  {
    var key, t, hex := NameKey(s), Truthy(Get(s, "hex")), Get(s, "hex");
    SetBothApplies(m, key, t, ShortKey(key), hex);
    SetBoth(m, key, t, ShortKey(key), hex)
  }

  lemma SetBothApplies(m: NameMap, key: string, hexTruthy: bool, short: string, hex: Option<Json>)
    ensures SetBoth(m, key, hexTruthy, short, hex) == Apply(m, Entry(KeySet(key, hexTruthy, short), hex))
  {
    var r, a := SetBoth(m, key, hexTruthy, short, hex), Apply(m, Entry(KeySet(key, hexTruthy, short), hex));
    assert r.Keys == a.Keys;
    assert forall k | k in r :: r[k] == a[k];
  }

  predicate AllNamed(ss: seq<Json>) {
    forall i | 0 <= i < |ss| :: Named(ss[i])
  }

  function Entries(ss: seq<Json>): (es: seq<Entry>)
    requires AllNamed(ss)
    ensures |es| == |ss| && forall i | 0 <= i < |ss| :: es[i] == EntryOf(ss[i])
  {
    seq(|ss|, i requires 0 <= i < |ss| => EntryOf(ss[i]))
  }

  /** The map after applying the entries in order. */
  function Fold(es: seq<Entry>): NameMap {
    if es == [] then map[] else Apply(Fold(es[..|es| - 1]), es[|es| - 1])
  }

  /** The map after registering the swatches `ss` in order. */
  function BuildMap(ss: seq<Json>): NameMap
    requires AllNamed(ss)
  {
    Fold(Entries(ss))
  }

  /** Applying one more entry. */
  lemma FoldStep(es: seq<Entry>, i: nat)
    requires i < |es|
    ensures Fold(es[..i + 1]) == Apply(Fold(es[..i]), es[i])
  {
    assert es[..i + 1][..i] == es[..i];
  }

  /** `loadSwatchMap()`: `file` is the parsed swatch file, `None` when it does not
      exist. */
  method LoadSwatchMap(file: Option<seq<Json>>) returns (m: NameMap)
    requires file.Some? ==> AllNamed(file.value)
    ensures file.None? ==> m == map[]
    ensures file.Some? ==> m == BuildMap(file.value)
  {
    m := map[];
    if file.None? {
      return;
    }
    var swatches := file.value;
    for i := 0 to |swatches|
      invariant m == Fold(Entries(swatches)[..i])
    {
      FoldStep(Entries(swatches), i);
      m := Register(m, swatches[i]);
    }
    assert Entries(swatches)[..|swatches|] == Entries(swatches);
  }

  lemma {:induction false} FoldKeys(es: seq<Entry>, k: string)
    ensures k in Fold(es) <==> exists i | 0 <= i < |es| :: k in es[i].names
  {
    if es != [] {
      var init := es[..|es| - 1];
      FoldKeys(init, k);
      if k in Fold(init) {
        var i :| 0 <= i < |init| && k in init[i].names;
        assert es[i] == init[i];
      }
      if i :| 0 <= i < |es| && k in es[i].names {
        if i < |init| {
          assert es[i] == init[i];
        }
      }
    }
  }

  lemma {:induction false} FoldLastWins(es: seq<Entry>, k: string, i: nat)
    requires i < |es| && k in es[i].names
    requires forall j | i < j < |es| :: k !in es[j].names
    ensures k in Fold(es) && Fold(es)[k] == es[i].hex
  {
    var init := es[..|es| - 1];
    if i < |es| - 1 {
      assert init[i] == es[i];
      forall j | i < j < |init| ensures k !in init[j].names {
        assert init[j] == es[j];
      }
      FoldLastWins(init, k, i);
    }
  }

  /** A name is in the map exactly when some swatch registers it. */
  lemma BuildMapKeys(ss: seq<Json>, k: string)
    requires AllNamed(ss)
    ensures k in BuildMap(ss) <==> exists i | 0 <= i < |ss| :: k in EntryOf(ss[i]).names
  {
    FoldKeys(Entries(ss), k);
  }

  /** Later swatches overwrite earlier ones: a name maps to the hex of the last
      swatch that registers it. */
  lemma BuildMapLastWins(ss: seq<Json>, k: string, i: nat)
    requires AllNamed(ss)
    requires i < |ss| && k in EntryOf(ss[i]).names
    requires forall j | i < j < |ss| :: k !in EntryOf(ss[j]).names
    ensures k in BuildMap(ss) && BuildMap(ss)[k] == Get(ss[i], "hex")
  {
    FoldLastWins(Entries(ss), k, i);
  }

  /** `formulaName.toUpperCase().trim()`: the name both `resolveHex` functions start from. */
  function UpperKey(name: string): string { Trim(Upper(name)) }

  /** The names tried for a cleaned-up name, in order. */
  function Variants(upper: string): seq<string> {
    [upper, "PMS " + upper, "PANTONE " + upper]
    + (if EndsWith(upper, " C") then [] else [upper + " C", "PMS " + upper + " C"])
  }

  /** The lookup chain at the end of `resolveHex`. */
  function Lookup(m: NameMap, upper: string): Option<Json> {
    if upper in m then m[upper]
    else if "PMS " + upper in m then m["PMS " + upper]
    else if "PANTONE " + upper in m then m["PANTONE " + upper]
    else if !EndsWith(upper, " C") then
      if upper + " C" in m then m[upper + " C"]
      else if "PMS " + upper + " C" in m then m["PMS " + upper + " C"]
      else Some(JNull)
    else Some(JNull)
  }

  /** The lookup returns the value stored under the first variant the map has, or
      `null` when it has none. */
  lemma LookupCases(m: NameMap, upper: string)
    ensures (forall i | 0 <= i < |Variants(upper)| :: Variants(upper)[i] !in m) ==> Lookup(m, upper) == Some(JNull)
    ensures forall i | 0 <= i < |Variants(upper)| && Variants(upper)[i] in m
                       && (forall j | 0 <= j < i :: Variants(upper)[j] !in m) ::
              Lookup(m, upper) == m[Variants(upper)[i]]
  {
    var vs := Variants(upper);
    assert vs[0] == upper && vs[1] == "PMS " + upper && vs[2] == "PANTONE " + upper;
    assert !EndsWith(upper, " C") ==> |vs| == 5 && vs[3] == upper + " C" && vs[4] == "PMS " + upper + " C";
  }

  /** A name the map has is found as it is. */
  lemma LookupDirect(m: NameMap, upper: string)
    requires upper in m
    ensures Lookup(m, upper) == m[upper]
  {
  }
}
