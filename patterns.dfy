/** The end-anchored regular expressions the scripts and the UI strip from names,
    each written as the exact set of strings it matches, and the leftmost-match rule
    by which `s.replace(re, "")` picks what to remove.  Because every pattern ends in
    `$`, a match can start at position `i` exactly when `s[i..]` is in the pattern's
    language, and the first such `i` is the one replaced. */
module Patterns {
  import opened Wrappers
  import opened JsText

  datatype SuffixPattern =
    | CoatingMark       // \s+[CU]$ with the i flag
    | CoatingMarkCount  // \s+[CUcu](\s*\(\d+\))?$
    | DateSuffix        // \s*-?\s*\d{1,2}-\d{1,2}-?\d{2,4}$

  /** Length of the run of white space that starts at `i`. */
  function SpaceRun(s: string, i: nat): (n: nat)
    requires i <= |s|
    ensures i + n <= |s| && AllSpace(s[i..i + n])
    ensures i + n < |s| ==> !IsSpace(s[i + n])
    decreases |s| - i
  {
    if i < |s| && IsSpace(s[i]) then
      var n := 1 + SpaceRun(s, i + 1);
      assert s[i..i + n] == [s[i]] + s[i + 1..i + n];
      n
    else 0
  }

  /** The run stops at the first non-space. */
  lemma {:induction false} SpaceRunUpTo(s: string, i: nat, e: nat)
    requires i <= e < |s| && !IsSpace(s[e])
    ensures i + SpaceRun(s, i) <= e
    ensures (forall k | i <= k < e :: IsSpace(s[k])) ==> i + SpaceRun(s, i) == e
    decreases e - i
  {
    if i < e && IsSpace(s[i]) {
      SpaceRunUpTo(s, i + 1, e);
    }
  }

  predicate IsCoatingLetter(c: char) { c == 'C' || c == 'U' || c == 'c' || c == 'u' }

  /** `(\s*\(\d+\))?` */
  predicate CountTail(u: string) {
    u == [] ||
    var j := SpaceRun(u, 0);
    j + 3 <= |u| && u[j] == '(' && u[|u| - 1] == ')' && AllDigits(u[j + 1..|u| - 1])
  }

  /** `\s+[CUcu]` followed by the optional tail when `withCount` holds. */
  predicate CoatingShape(t: string, withCount: bool) {
    var k := SpaceRun(t, 0);
    1 <= k < |t| && IsCoatingLetter(t[k])
    && (if withCount then CountTail(t[k + 1..]) else k + 1 == |t|)
  }

  /** `\d{1,2}-\d{1,2}-?\d{2,4}` split as `a` digits, `-`, `b` digits, `d` dashes, `c` digits. */
  predicate DateShape(u: string, a: nat, b: nat, d: nat, c: nat) {
    |u| == a + 1 + b + d + c
    && AllDigits(u[..a]) && u[a] == '-' && AllDigits(u[a + 1..a + 1 + b])
    && (d == 1 ==> u[a + 1 + b] == '-') && AllDigits(u[a + 1 + b + d..])
  }

  predicate DateTail(u: string) {
    exists a: nat, b: nat, d: nat, c: nat | 1 <= a <= 2 && 1 <= b <= 2 && d <= 1 && 2 <= c <= 4 ::
      DateShape(u, a, b, d, c)
  }

  predicate IsSpaceOrDash(c: char) { IsSpace(c) || c == '-' }

  /** Length of the run of white space and dashes that starts at `i`. */
  function SpaceDashRun(s: string, i: nat): (n: nat)
    requires i <= |s|
    ensures i + n <= |s|
    ensures forall k | i <= k < i + n :: IsSpaceOrDash(s[k])
    ensures i + n < |s| ==> !IsSpaceOrDash(s[i + n])
    decreases |s| - i
  {
    if i < |s| && IsSpaceOrDash(s[i]) then 1 + SpaceDashRun(s, i + 1) else 0
  }

  /** `\s*-?\s*`: white space with at most one dash in it. */
  predicate DashHead(h: string) {
    var k := SpaceRun(h, 0);
    k == |h| || (h[k] == '-' && k + 1 + SpaceRun(h, k + 1) == |h|)
  }

  /** `\s*-?\s*\d{1,2}-\d{1,2}-?\d{2,4}`: the date digits start at the first character
      that is neither white space nor a dash, since the head has no digits. */
  predicate DateSuffixShape(t: string) {
    var h := SpaceDashRun(t, 0);
    DashHead(t[..h]) && DateTail(t[h..])
  }

  /** The language of each pattern, without its `$`. */
  predicate Matches(p: SuffixPattern, t: string) {
    match p
    case CoatingMark => CoatingShape(t, false)
    case CoatingMarkCount => CoatingShape(t, true)
    case DateSuffix => DateSuffixShape(t)
  }

  /** The leftmost position from `i` on where the pattern matches to the end. */
  function FirstSuffixMatch(p: SuffixPattern, s: string, i: nat): (r: Option<nat>)
    requires i <= |s|
    ensures r.Some? ==> i <= r.value <= |s| && Matches(p, s[r.value..])
    ensures forall j | i <= j <= |s| && (r.None? || j < r.value) :: !Matches(p, s[j..])
    decreases |s| - i
  {
    if Matches(p, s[i..]) then Some(i)
    else if i == |s| then None
    else FirstSuffixMatch(p, s, i + 1)
  }

  /** `s.replace(re, "")` for an end-anchored pattern: the leftmost match is cut. */
  function StripSuffix(p: SuffixPattern, s: string): (r: string)
    ensures |r| <= |s| && forall k | 0 <= k < |r| :: r[k] == s[k]
    ensures r == s <==> forall j | 0 <= j <= |s| :: !Matches(p, s[j..])
    ensures r != s ==> Matches(p, s[|r|..]) && forall j | 0 <= j < |r| :: !Matches(p, s[j..])
  {
    match FirstSuffixMatch(p, s, 0)
    case None => s
    case Some(i) =>
      assert |s[..i]| == i;
      if i == |s| then
        assert false;
        s
      else s[..i]
  }

  /** The cut is at `k` when the pattern matches from `k` and from no earlier position. */
  lemma StripAt(p: SuffixPattern, s: string, k: nat)
    requires k <= |s| && Matches(p, s[k..])
    requires forall j | 0 <= j < k :: !Matches(p, s[j..])
    ensures StripSuffix(p, s) == s[..k]
  {
    var r := StripSuffix(p, s);
    assert r != s;
  }
  /** The date pattern cannot match from a character that is neither white space nor
      a dash unless a digit is followed by a dash within two characters (a match is
      at least five characters long). */
  lemma NoDateSuffix(t: string)
    requires t == [] || !IsSpaceOrDash(t[0])
    requires |t| < 5 || !IsDigit(t[0]) || (t[1] != '-' && t[2] != '-')
    ensures !Matches(DateSuffix, t)
  {
    assert SpaceDashRun(t, 0) == 0;
    assert t[0..] == t;
    forall a: nat, b: nat, d: nat, c: nat | 1 <= a <= 2 && 1 <= b <= 2 && d <= 1 && 2 <= c <= 4
      ensures !DateShape(t, a, b, d, c)
    {
      if |t| == a + 1 + b + d + c && AllDigits(t[..a]) {
        assert t[..a][0] == t[0];
      }
    }
  }

  // ------------------------------------------------------------------
  // The series prefix of a Matsui formula description

  /** Length of the run of digits that starts at `i`. */
  function DigitRun(s: string, i: nat): (n: nat)
    requires i <= |s|
    ensures i + n <= |s| && AllDigits(s[i..i + n])
    ensures i + n < |s| ==> !IsDigit(s[i + n])
    decreases |s| - i
  {
    if i < |s| && IsDigit(s[i]) then
      var n := 1 + DigitRun(s, i + 1);
      assert s[i..i + n] == [s[i]] + s[i + 1..i + n];
      n
    else 0
  }

  /** The digit run stops at the first non-digit. */
  lemma {:induction false} DigitRunUpTo(s: string, i: nat, e: nat)
    requires i <= e < |s| && !IsDigit(s[e]) && forall k | i <= k < e :: IsDigit(s[k])
    ensures i + DigitRun(s, i) == e
    decreases e - i
  {
    if i < e {
      DigitRunUpTo(s, i + 1, e);
    }
  }

  /** The word `w` (upper case) occurs at `i`, compared case-insensitively. */
  predicate WordAt(s: string, i: nat, w: string) {
    i + |w| <= |s| && Upper(s[i..i + |w|]) == w
  }

  /** An upper-case word written at `i` is found there. */
  lemma WordLiteral(s: string, i: nat, w: string)
    requires i + |w| <= |s| && forall k | 0 <= k < |w| :: s[i + k] == w[k] && 'A' <= w[k] <= 'Z'
    ensures WordAt(s, i, w)
  {
    var u := Upper(s[i..i + |w|]);
    forall k | 0 <= k < |w| ensures u[k] == w[k] {
      assert s[i..i + |w|][k] == s[i + k];
    }
  }

  /** `HEAD\s*(TAIL)?` at `i`: where it ends, the optional tail taken when present. */
  function OptionalTail(s: string, i: nat, head: string, tail: string): (e: Option<nat>)
    requires i <= |s|
    ensures e.Some? <==> WordAt(s, i, head)
    ensures e.Some? ==> i + |head| <= e.value <= |s|
  {
    if WordAt(s, i, head) then
      var m := i + |head| + SpaceRun(s, i + |head|);
      Some(if WordAt(s, m, tail) then m + |tail| else m)
    else None
  }

  /** `HEAD\s*TAIL` at `i`. */
  function RequiredTail(s: string, i: nat, head: string, tail: string): (e: Option<nat>)
    requires i <= |s|
    ensures e.Some? <==> WordAt(s, i, head) && WordAt(s, i + |head| + SpaceRun(s, i + |head|), tail)
    ensures e.Some? ==> i + |head| + |tail| <= e.value <= |s|
  {
    if WordAt(s, i, head) then
      var m := i + |head| + SpaceRun(s, i + |head|);
      if WordAt(s, m, tail) then Some(m + |tail|) else None
    else None
  }

  /** `a || b` on match results: the first alternative that matches. */
  function FirstOf(a: Option<nat>, b: Option<nat>): Option<nat> {
    if a.Some? then a else b
  }

  /** `(RC\s*NEO|ALPHA\s*(DISCHARGE)?|BRITE\s*(DISCHARGE)?|HM\s*(DISCHARGE)?|OW\s*(STRETCH)?)`
      at `i`, its alternatives tried in order. */
  function SeriesName(s: string, i: nat): (e: Option<nat>)
    requires i <= |s|
    ensures e.Some? ==> i + 2 <= e.value <= |s|
    ensures e.Some? <==>
      (WordAt(s, i, "RC") && WordAt(s, i + 2 + SpaceRun(s, i + 2), "NEO")) || WordAt(s, i, "ALPHA")
      || WordAt(s, i, "BRITE") || WordAt(s, i, "HM") || WordAt(s, i, "OW")
  {
    FirstOf(RequiredTail(s, i, "RC", "NEO"),
    FirstOf(OptionalTail(s, i, "ALPHA", "DISCHARGE"),
    FirstOf(OptionalTail(s, i, "BRITE", "DISCHARGE"),
    FirstOf(OptionalTail(s, i, "HM", "DISCHARGE"), OptionalTail(s, i, "OW", "STRETCH")))))
  }

  /** Where it begins: after `(\d+\s*)?`.  The digits and the spaces after them are
      taken greedily; giving any back cannot help, since every series name starts
      with a letter. */
  function SeriesStart(s: string): (j: nat)
    ensures j <= |s| && AllDigits(s[..DigitRun(s, 0)])
  {
    var d := DigitRun(s, 0);
    if d == 0 then 0 else d + SpaceRun(s, d)
  }

  /** The end of the match of
      `^(\d+\s*)?(RC\s*NEO|ALPHA\s*(DISCHARGE)?|…|OW\s*(STRETCH)?)\s*` with the `i`
      flag, trailing white space included. */
  function SeriesPrefix(s: string): (e: Option<nat>)
    ensures e.Some? ==> SeriesStart(s) + 2 <= e.value <= |s|
    ensures e.Some? ==> e.value == |s| || !IsSpace(s[e.value])
    ensures e.Some? <==> SeriesName(s, SeriesStart(s)).Some?
  {
    var n := SeriesName(s, SeriesStart(s));
    if n.Some? then Some(n.value + SpaceRun(s, n.value)) else None
  }

  /** `s.replace(seriesPrefix, "")` */
  function StripSeriesPrefix(s: string): (r: string)
    ensures |r| <= |s| && r == s[|s| - |r|..]
    ensures r == s <==> SeriesPrefix(s).None?
  {
    match SeriesPrefix(s)
    case None => s
    case Some(e) => s[e..]
  }
}
