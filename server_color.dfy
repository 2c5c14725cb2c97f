/** The server's colour helpers: a strict `#RRGGBB` normaliser, the parser of a
    normalised hex into channels, and the Euclidean RGB distance (kept squared,
    so that it stays an integer). */
module ServerColor {
  import opened Wrappers
  import opened JsText

  datatype Rgb = Rgb(r: int, g: int, b: int)

  predicate InByteRange(c: Rgb) { 0 <= c.r < 256 && 0 <= c.g < 256 && 0 <= c.b < 256 }

  /** `#` and six upper-case hex digits: the form `NormalizeHex` produces. */
  predicate IsNormalHex(h: string) {
    |h| == 7 && h[0] == '#' && forall i | 1 <= i < 7 :: IsHexDigit(h[i]) && !('a' <= h[i] <= 'f')
  }

  /** The capture group of `^#?([0-9A-Fa-f]{6})$`. */
  function HexGroup(t: string): (g: Option<string>)
    ensures g.Some? <==> (|t| == 6 && AllHex(t)) || (|t| == 7 && t[0] == '#' && AllHex(t[1..]))
    ensures g.Some? ==> |g.value| == 6 && AllHex(g.value) && g.value == t[|t| - 6..]
  {
    if |t| == 6 && AllHex(t) then Some(t)
    else if |t| == 7 && t[0] == '#' && AllHex(t[1..]) then Some(t[1..])
    else None
  }

  /** `normalizeHex(input)` on the string `String(input)`: `#` and the last six
      characters of the trimmed input, upper-cased, when the pattern matches. */
  function NormalizeHex(input: string): (r: Option<string>)
    ensures r.Some? <==> HexGroup(Trim(input)).Some?
    ensures r.Some? ==> IsNormalHex(r.value) && IsHashHex(r.value)
    ensures r.Some? ==> r.value[1..] == Upper(Trim(input)[|Trim(input)| - 6..])
  {
    var t := Trim(input);
    var g := HexGroup(t);
    if g.None? then None
    else
      HashUpperNormal(g.value);
      assert ("#" + Upper(g.value))[1..] == Upper(g.value);
      Some("#" + Upper(g.value))
  }

  lemma HashUpperNormal(g: string)
    requires |g| == 6 && AllHex(g)
    ensures IsNormalHex("#" + Upper(g)) && IsHashHex("#" + Upper(g))
  {
    var r := "#" + Upper(g);
    UpperHex(g);
    assert r[1..] == Upper(g);
    forall i | 1 <= i < 7 ensures IsHexDigit(r[i]) && !('a' <= r[i] <= 'f') {
      assert r[i] == Upper(g)[i - 1];
    }
  }

  /** Accepted exactly when the trimmed input is six hex digits, `#` optional. */
  lemma NormalizeHexAccepts(input: string)
    ensures NormalizeHex(input).Some? <==>
      var t := Trim(input);
      (|t| == 6 && AllHex(t)) || (|t| == 7 && t[0] == '#' && AllHex(t[1..]))
  {
  }

  lemma NormalTrimmed(h: string)
    requires IsNormalHex(h)
    ensures Trim(h) == h
  {
    assert Trimmed(h);
    TrimOfTrimmed(h);
  }

  lemma NormalGroup(h: string)
    requires IsNormalHex(h)
    ensures HexGroup(h) == Some(h[1..])
  {
    assert AllHex(h[1..]) by {
      forall i | 0 <= i < 6 ensures IsHexDigit(h[1..][i]) { assert h[1..][i] == h[i + 1]; }
    }
  }

  lemma NormalUpper(h: string)
    requires IsNormalHex(h)
    ensures "#" + Upper(h[1..]) == h
  {
    var u := "#" + Upper(h[1..]);
    forall i | 0 <= i < 7 ensures u[i] == h[i] {
      if i > 0 { assert u[i] == UpperChar(h[1..][i - 1]); }
    }
  }

  /** Normalising a normalised hex changes nothing. */
  lemma NormalizeHexOfNormal(h: string)
    requires IsNormalHex(h)
    ensures NormalizeHex(h) == Some(h)
  {
    NormalTrimmed(h);
    NormalGroup(h);
    NormalUpper(h);
  }

  lemma NormalizeHexIdempotent(input: string)
    ensures NormalizeHex(input).Some? ==> NormalizeHex(NormalizeHex(input).value) == NormalizeHex(input)
  {
    if NormalizeHex(input).Some? {
      NormalizeHexOfNormal(NormalizeHex(input).value);
    }
  }

  /** `normalizeHex` computed from a known trimmed form of its input. */
  lemma NormalizeHexVia(s: string, t: string)
    requires Trim(s) == t
    ensures NormalizeHex(s) == if HexGroup(t).Some? then Some("#" + Upper(HexGroup(t).value)) else None
  {
  }

  /** Input whose trimmed form is neither 6 nor 7 characters long is rejected: 3-digit
      and 7-digit hex, the empty string, and `String(null)` and `String(undefined)`. */
  lemma NormalizeHexRejectsLength(input: string)
    requires |Trim(input)| != 6 && |Trim(input)| != 7
    ensures NormalizeHex(input) == None
  {
  }

  lemma RejectTrimmedLength(s: string)
    requires Trimmed(s) && |s| != 6 && |s| != 7
    ensures NormalizeHex(s) == None
  {
    TrimOfTrimmed(s);
  }

  lemma NormalizeHexRejectsShort()
    ensures NormalizeHex("#FFF") == None
  {
    RejectTrimmedLength("#FFF");
  }

  lemma NormalizeHexRejectsNullText()
    ensures NormalizeHex("null") == None
  {
    RejectTrimmedLength("null");
  }

  /** Non-hex digits are rejected. */
  lemma NormalizeHexRejectsNonHex()
    ensures NormalizeHex("#GGHHII") == None
  {
    TrimOfTrimmed("#GGHHII");
    NormalizeHexVia("#GGHHII", "#GGHHII");
    assert !IsHexDigit("#GGHHII"[1..][0]);
  }

  /** Surrounding white space is ignored. */
  lemma NormalizeHexIgnoresSpace(input: string)
    ensures NormalizeHex(Trim(input)) == NormalizeHex(input)
  {
    TrimIsTrimmed(input);
    TrimOfTrimmed(Trim(input));
  }

  /** `"  #AABBCC  "` and any other padding of a normalised hex normalise to it. */
  lemma NormalizeHexPadded(p: string, h: string, q: string)
    requires AllSpace(p) && AllSpace(q) && IsNormalHex(h)
    ensures NormalizeHex(p + h + q) == Some(h)
  {
    assert Trimmed(h);
    TrimPadded(p, h, q);
    NormalizeHexIgnoresSpace(p + h + q);
    NormalizeHexOfNormal(h);
  }

  /** Six hex digits without `#` are upper-cased and `#` is added. */
  lemma NormalizeHexBare(g: string)
    requires |g| == 6 && AllHex(g)
    ensures NormalizeHex(g) == Some("#" + Upper(g))
  {
    assert IsHexDigit(g[0]) && IsHexDigit(g[5]);
    TrimOfTrimmed(g);
    NormalizeHexVia(g, g);
  }

  /** Lower-case digits are upper-cased and `#` is added: `ff0000` gives `#FF0000`. */
  lemma NormalizeHexLowerExample(s: string)
    requires s == "ff0000"
    ensures NormalizeHex(s) == Some("#FF0000")
  {
    assert s[0] == 'f' && s[1] == 'f' && s[2] == '0' && s[3] == '0' && s[4] == '0' && s[5] == '0';
    NormalizeHexBare(s);
    var u := Upper(s);
    assert u[0] == 'F' && u[1] == 'F' && u[2] == '0' && u[3] == '0' && u[4] == '0' && u[5] == '0';
    assert "#" + u == "#FF0000";
  }

  /** `hexToRgb(hex)` on `#` and six hex digits (a normalised hex is one): each
      channel is the base-16 value of its digit pair. */
  function HexToRgb(hex: string): (c: Rgb)
    requires IsHashHex(hex)
    ensures InByteRange(c)
    ensures c.r == DigitsValue(hex[1..3], true)
    ensures c.g == DigitsValue(hex[3..5], true)
    ensures c.b == DigitsValue(hex[5..7], true)
  {
    var h := RemoveFirst(hex, '#');
    ChannelPair(hex, 1);
    ChannelPair(hex, 3);
    ChannelPair(hex, 5);
    Rgb(ParseInt(Substring(h, 0, 2), Hexadecimal).value,
        ParseInt(Substring(h, 2, 4), Hexadecimal).value,
        ParseInt(Substring(h, 4, 6), Hexadecimal).value)
  }

  /** The `k`-th digit pair of a normalised hex, as `hexToRgb` reads it. */
  lemma ChannelPair(hex: string, k: nat)
    requires IsHashHex(hex) && k in {1, 3, 5}
    ensures ParseInt(Substring(RemoveFirst(hex, '#'), k - 1, k + 1), Hexadecimal)
         == Some(DigitsValue(hex[k..k + 2], true))
    ensures AllHex(hex[k..k + 2]) && DigitsValue(hex[k..k + 2], true) < 256
  {
    var p := hex[k..k + 2];
    assert RemoveFirst(hex, '#') == hex[1..];
    assert Substring(hex[1..], k - 1, k + 1) == p;
    assert p[0] == hex[1..][k - 1] && p[1] == hex[1..][k];
    ParseIntHexDigits(p);
    HexPairValue(p);
  }

  /** `#FF0000` reads as pure red. */
  lemma HexToRgbExample(h: string)
    requires h == "#FF0000"
    ensures HexToRgb(h) == Rgb(255, 0, 0)
  {
    assert IsHashHex(h) by { assert h[1..] == "FF0000"; }
    assert h[1..3] == "FF" && h[3..5] == "00" && h[5..7] == "00";
    PairValues(h[1..3], h[3..5], h[5..7]);
  }

  lemma PairValues(ff: string, z1: string, z2: string)
    requires ff == "FF" && z1 == "00" && z2 == "00"
    ensures DigitsValue(ff, true) == 255 && DigitsValue(z1, true) == 0 && DigitsValue(z2, true) == 0
  {
    HexPairValue(ff);
    HexPairValue(z1);
    HexPairValue(z2);
  }

  lemma SquareFacts(x: int)
    ensures x * x >= 0
    ensures x * x == 0 <==> x == 0
  {
    if x > 0 { assert x * x >= x; }
    else if x < 0 { assert x * x == (-x) * (-x); assert (-x) * (-x) >= -x; }
  }

  function Sq(x: int): (s: nat)
    ensures s == 0 <==> x == 0
  {
    SquareFacts(x);
    x * x
  }

  /** `rgbDistance(a, b)` squared: the square root is monotone, so ordering by the
      squared distance is ordering by the distance. */
  function DistanceSq(a: Rgb, b: Rgb): (d: nat)
    ensures d == 0 <==> a == b
  {
    Sq(a.r - b.r) + Sq(a.g - b.g) + Sq(a.b - b.b)
  }

  lemma DistanceSqSymmetric(a: Rgb, b: Rgb)
    ensures DistanceSq(a, b) == DistanceSq(b, a)
  {
    assert Sq(a.r - b.r) == Sq(b.r - a.r);
    assert Sq(a.g - b.g) == Sq(b.g - a.g);
    assert Sq(a.b - b.b) == Sq(b.b - a.b);
  }

  lemma NonNegProduct(x: int, y: int)
    requires x >= 0 && y >= 0
    ensures x * y >= 0
  {
  }

  lemma SquareBound(x: int, y: int)
    requires 0 <= x < 256 && 0 <= y < 256
    ensures Sq(x - y) <= 65025
  {
    var d := if x >= y then x - y else y - x;
    assert (x - y) * (x - y) == d * d;
    NonNegProduct(255 - d, 255 + d);
    assert (255 - d) * (255 + d) == 65025 - d * d;
  }

  /** Black and white are furthest apart: 3 * 255 * 255 = 195075, about 441.67 squared. */
  lemma DistanceSqMax(a: Rgb, b: Rgb)
    requires InByteRange(a) && InByteRange(b)
    ensures DistanceSq(a, b) <= DistanceSq(Rgb(0, 0, 0), Rgb(255, 255, 255)) == 195075
  {
    SquareBound(a.r, b.r);
    SquareBound(a.g, b.g);
    SquareBound(a.b, b.b);
  }
}
