/** `server/iccData.js`: the local ICC catalog, one JSON file per ink family,
    validated once on load (failures are only reported) and cached. */
module IccData {
  import opened Wrappers
  import opened JsonValue
  import Schemas

  /** The keys of `LOCAL_FILES`. */
  const Families: seq<string> := ["7500 Coated"]

  /** `getIccFamilyNames()`: the families `loadFamily` can find a file for. */
  function FamilyNames(): (names: seq<string>)
    ensures names == ["7500 Coated"]
    ensures forall n :: n in names <==> n in Families
  {
    Families
  }

  /** The module's `cache`: family name to the parsed file. */
  class Catalog {
    var cache: map<string, Json>

    constructor ()
      ensures cache == map[]
    {
      cache := map[];
    }

    /** `loadFamily(familyName)` / `getIccFormulas(familyName)`: `fileExists` is
        `existsSync(filePath)` and `parsed` what reading and parsing the file gives
        (`None` when either throws).  A parsed `null` makes `validateRecords` throw
        on `data.length`, which the same `catch` turns into `null`.  `report` is the
        validation report, written to the console and otherwise unused; it is
        `None` for a cache hit, a missing file, and a parsed non-array (whose
        `length` is not a number the loop could count to). */
    method LoadFamily(familyName: string, fileExists: bool, parsed: Option<Json>)
      returns (r: Option<Json>, report: Option<Schemas.Report>)
      modifies this
      ensures familyName in old(cache) ==> r == Some(old(cache)[familyName]) && cache == old(cache)
      ensures familyName !in old(cache) && !(familyName in Families && fileExists) ==>
        r.None? && cache == old(cache)
      ensures familyName !in old(cache) && familyName in Families && fileExists ==>
        if parsed.None? || parsed.value == JNull then r.None? && cache == old(cache)
        else r == parsed && cache == old(cache)[familyName := parsed.value]
      ensures report.Some? <==>
        familyName !in old(cache) && familyName in Families && fileExists && parsed.Some? && parsed.value.JArr?
      ensures report.Some? ==>
        parsed.Some? && parsed.value.JArr?
        && report.value.total == |parsed.value.items|
        && report.value.valid == Schemas.CountValid(parsed.value.items, Schemas.IccFormula, |parsed.value.items|)
        && report.value.valid + report.value.invalid == report.value.total
    {
      report := None;
      if familyName in cache {
        return Some(cache[familyName]), None;
      }
      if !(familyName in Families && fileExists) {
        return None, None;
      }
      if parsed.None? || parsed.value == JNull {
        return None, None;
      }
      if parsed.value.JArr? {
        var rep := Schemas.ValidateRecords(parsed.value.items, Schemas.IccFormula, familyName);
        report := Some(rep);
      }
      cache := cache[familyName := parsed.value];
      r := parsed;
    }
  }
}
