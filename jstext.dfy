/** The JavaScript string and number built-ins that the source relies on, written
    out as ECMAScript defines them for the inputs that occur: `trim`, `\s`,
    ASCII `toUpperCase`/`toLowerCase`, `startsWith`/`endsWith`/`includes`,
    `replace` with a one-character pattern, `parseInt`, `parseFloat`,
    `Number.prototype.toString(16)`, `padStart` and `Math.round`. */
module JsText {
  import opened Wrappers

  // ------------------------------------------------------------------
  // Characters

  /** WhiteSpace and LineTerminator code points: what `trim()` removes and `\s` matches. */
  predicate IsSpace(c: char) {
    c == '\t' || c == '\n' || c == '\U{000B}' || c == '\U{000C}' || c == '\r' || c == ' '
    || c == '\U{00A0}' || c == '\U{1680}' || ('\U{2000}' <= c <= '\U{200A}')
    || c == '\U{2028}' || c == '\U{2029}' || c == '\U{202F}' || c == '\U{205F}'
    || c == '\U{3000}' || c == '\U{FEFF}'
  }

  /** `\d` */
  predicate IsDigit(c: char) { '0' <= c <= '9' }

  /** `[0-9A-Fa-f]` */
  predicate IsHexDigit(c: char) { IsDigit(c) || 'a' <= c <= 'f' || 'A' <= c <= 'F' }

  function HexDigitValue(c: char): (v: nat)
    requires IsHexDigit(c)
    ensures v < 16
    ensures IsDigit(c) <==> v < 10
  {
    if IsDigit(c) then c as int - '0' as int
    else if 'a' <= c <= 'f' then c as int - 'a' as int + 10
    else c as int - 'A' as int + 10
  }

  predicate AllHex(s: string) { forall i | 0 <= i < |s| :: IsHexDigit(s[i]) }
  predicate AllDigits(s: string) { forall i | 0 <= i < |s| :: IsDigit(s[i]) }
  predicate AllSpace(s: string) { forall i | 0 <= i < |s| :: IsSpace(s[i]) }

  /** `/^#[0-9A-Fa-f]{6}$/`: `#` and six hex digits of either case. */
  predicate IsHashHex(h: string) { |h| == 7 && h[0] == '#' && AllHex(h[1..]) }

  function UpperChar(c: char): char { if 'a' <= c <= 'z' then (c as int - 32) as char else c }
  function LowerChar(c: char): char { if 'A' <= c <= 'Z' then (c as int + 32) as char else c }

  /** `toUpperCase()` on the ASCII letters */
  function Upper(s: string): (r: string)
    ensures |r| == |s| && forall i | 0 <= i < |s| :: r[i] == UpperChar(s[i])
  {
    seq(|s|, i requires 0 <= i < |s| => UpperChar(s[i]))
  }

  /** `toLowerCase()` on the ASCII letters */
  function Lower(s: string): (r: string)
    ensures |r| == |s| && forall i | 0 <= i < |s| :: r[i] == LowerChar(s[i])
  {
    seq(|s|, i requires 0 <= i < |s| => LowerChar(s[i]))
  }

  /** Upper-casing hex digits leaves hex digits, none of them lower-case. */
  lemma UpperHex(g: string)
    requires AllHex(g)
    ensures AllHex(Upper(g)) && forall i | 0 <= i < |g| :: !('a' <= Upper(g)[i] <= 'f')
  {
    forall i | 0 <= i < |g| ensures IsHexDigit(Upper(g)[i]) && !('a' <= Upper(g)[i] <= 'f') {
      assert Upper(g)[i] == UpperChar(g[i]);
    }
  }

  // ------------------------------------------------------------------
  // Trimming

  function TrimStart(s: string): (r: string)
    ensures |r| <= |s| && r == s[|s| - |r|..]
    ensures AllSpace(s[..|s| - |r|])
    ensures r == [] || !IsSpace(r[0])
  {
    if s != [] && IsSpace(s[0]) then
      var r := TrimStart(s[1..]);
      assert s[..|s| - |r|] == [s[0]] + s[1..][..|s| - 1 - |r|];
      r
    else s
  }

  function TrimEnd(s: string): (r: string)
    ensures |r| <= |s| && r == s[..|r|]
    ensures AllSpace(s[|r|..])
    ensures r == [] || !IsSpace(r[|r| - 1])
  {
    if s != [] && IsSpace(s[|s| - 1]) then
      var r := TrimEnd(s[..|s| - 1]);
      assert s[|r|..] == s[..|s| - 1][|r|..] + [s[|s| - 1]];
      r
    else s
  }

  /** `String.prototype.trim` */
  function Trim(s: string): string { TrimEnd(TrimStart(s)) }

  /** A string with no surrounding white space */
  predicate Trimmed(s: string) { s == [] || (!IsSpace(s[0]) && !IsSpace(s[|s| - 1])) }

  lemma TrimOfTrimmed(s: string)
    requires Trimmed(s)
    ensures Trim(s) == s
  {
  }

  lemma TrimIsTrimmed(s: string)
    ensures Trimmed(Trim(s))
    ensures Trim(s) == [] <==> AllSpace(s)
  {
    var t := TrimStart(s);
    var r := TrimEnd(t);
    assert t != [] ==> t[0] == s[|s| - |t|];
    if r != [] {
      assert r[0] == t[0];
    } else {
      assert t[|r|..] == t;
      assert s[..|s| - |t|] == s;
    }
  }

  lemma {:induction false} TrimStartPadded(p: string, x: string)
    requires AllSpace(p)
    ensures TrimStart(p + x) == TrimStart(x)
  {
    if p != [] {
      assert (p + x)[0] == p[0] && IsSpace(p[0]);
      assert (p + x)[1..] == p[1..] + x;
      TrimStartPadded(p[1..], x);
      assert TrimStart(p + x) == TrimStart((p + x)[1..]);
    } else {
      assert p + x == x;
    }
  }

  lemma {:induction false} TrimEndPadded(x: string, q: string)
    requires AllSpace(q)
    ensures TrimEnd(x + q) == TrimEnd(x)
  {
    if q != [] {
      assert (x + q)[|x + q| - 1] == q[|q| - 1] && IsSpace(q[|q| - 1]);
      assert (x + q)[..|x + q| - 1] == x + q[..|q| - 1];
      TrimEndPadded(x, q[..|q| - 1]);
      assert TrimEnd(x + q) == TrimEnd((x + q)[..|x + q| - 1]);
    } else {
      assert x + q == x;
    }
  }

  /** White space around a trimmed, non-empty string is what `trim()` removes. */
  lemma TrimPadded(p: string, x: string, q: string)
    requires AllSpace(p) && AllSpace(q) && x != [] && Trimmed(x)
    ensures Trim(p + x + q) == x
  {
    assert p + x + q == p + (x + q);
    TrimStartPadded(p, x + q);
    assert TrimStart(x + q) == x + q;
    TrimEndPadded(x, q);
    TrimOfTrimmed(x);
  }

  // ------------------------------------------------------------------
  // Searching

  predicate StartsWith(s: string, p: string) { |p| <= |s| && s[..|p|] == p }
  predicate EndsWith(s: string, p: string) { |p| <= |s| && s[|s| - |p|..] == p }

  /** `String.prototype.includes` */
  predicate Contains(s: string, q: string) {
    exists i | 0 <= i <= |s| - |q| :: StartsWith(s[i..], q)
  }

  /** `hex.startsWith("#") ? hex : "#" + hex` */
  function WithHash(hex: string): (r: string)
    ensures r != [] && r[0] == '#'
    ensures StartsWith(hex, "#") ==> r == hex
    ensures !StartsWith(hex, "#") ==> r == "#" + hex
  {
    if StartsWith(hex, "#") then hex else "#" + hex
  }

  /** `s.substring(start, end)`: both bounds clamped to the string, then ordered. */
  function Substring(s: string, start: int, end: int): (r: string)
    ensures 0 <= start <= end <= |s| ==> r == s[start..end]
    ensures |r| <= |s|
  {
    var a := if start < 0 then 0 else if start > |s| then |s| else start;
    var b := if end < 0 then 0 else if end > |s| then |s| else end;
    if a <= b then s[a..b] else s[b..a]
  }

  /** `s.replace(c, "")` with a one-character string pattern: the first occurrence goes. */
  function RemoveFirst(s: string, c: char): (r: string)
    ensures c !in s ==> r == s
    ensures c in s ==> |r| == |s| - 1
  {
    if s == [] then []
    else if s[0] == c then s[1..]
    else [s[0]] + RemoveFirst(s[1..], c)
  }

  // ------------------------------------------------------------------
  // Numbers

  /** Value of a digit string in base 10 or 16 (most significant digit first). */
  function DigitsValue(z: string, hex: bool): (v: nat)
    requires forall i | 0 <= i < |z| :: if hex then IsHexDigit(z[i]) else IsDigit(z[i])
  {
    if z == [] then 0
    else DigitsValue(z[..|z| - 1], hex) * (if hex then 16 else 10) + HexDigitValue(z[|z| - 1])
  }

  /** The longest prefix of radix digits. */
  function DigitPrefix(s: string, hex: bool): (z: string)
    ensures |z| <= |s| && z == s[..|z|]
    ensures forall i | 0 <= i < |z| :: if hex then IsHexDigit(z[i]) else IsDigit(z[i])
    ensures |z| < |s| ==> !(if hex then IsHexDigit(s[|z|]) else IsDigit(s[|z|]))
  {
    if s != [] && (if hex then IsHexDigit(s[0]) else IsDigit(s[0])) then [s[0]] + DigitPrefix(s[1..], hex)
    else []
  }

  lemma DigitPrefixOfDigits(s: string, hex: bool)
    requires forall i | 0 <= i < |s| :: if hex then IsHexDigit(s[i]) else IsDigit(s[i])
    ensures DigitPrefix(s, hex) == s
  {
    if s != [] {
      DigitPrefixOfDigits(s[1..], hex);
    }
  }

  /** The three ways the source calls parseInt: `parseInt(s, 10)`, `parseInt(s, 16)`
      and `parseInt(s)`. */
  datatype Radix = Decimal | Hexadecimal | Unspecified

  predicate HasHexPrefix(s: string) { |s| >= 2 && s[0] == '0' && (s[1] == 'x' || s[1] == 'X') }

  /** `parseInt` as ECMAScript defines it (section 19.2.5 of ECMA-262): leading white
      space, a sign, a `0x` prefix unless the radix is 10, then the longest run of
      digits; `None` stands for NaN. */
  function ParseInt(s: string, radix: Radix): (r: Option<int>)
    ensures r.Some? && radix == Decimal && s != [] && IsDigit(s[0]) ==> r.value >= 0
  {
    var t := TrimStart(s);
    var negative := t != [] && t[0] == '-';
    var u := if t != [] && (t[0] == '-' || t[0] == '+') then t[1..] else t;
    var strip := radix != Decimal && HasHexPrefix(u);
    var hex := radix == Hexadecimal || strip;
    var w := if strip then u[2..] else u;
    var z := DigitPrefix(w, hex);
    if z == [] then None
    else Some(if negative then -(DigitsValue(z, hex) as int) else DigitsValue(z, hex))
  }

  /** On a non-empty run of hex digits `parseInt(s, 16)` is the digits' value. */
  lemma ParseIntHexDigits(s: string)
    requires s != [] && AllHex(s)
    ensures ParseInt(s, Hexadecimal) == Some(DigitsValue(s, true))
  {
    assert IsHexDigit(s[0]) && !IsSpace(s[0]);
    assert |s| >= 2 ==> IsHexDigit(s[1]);
    assert !HasHexPrefix(s);
    assert TrimStart(s) == s;
    DigitPrefixOfDigits(s, true);
  }

  /** Two hex digits make a byte. */
  lemma HexPairValue(p: string)
    requires |p| == 2 && AllHex(p)
    ensures DigitsValue(p, true) == 16 * HexDigitValue(p[0]) + HexDigitValue(p[1]) < 256
  {
    assert p[..1][..0] == [];
    assert DigitsValue(p[..1], true) == HexDigitValue(p[0]);
    var hi := HexDigitValue(p[0]);
    assert hi * 16 <= 15 * 16;
  }

  /** On a non-empty run of decimal digits `parseInt(s, 10)` is the digits' value. */
  lemma ParseIntDecimalDigits(s: string)
    requires s != [] && AllDigits(s)
    ensures ParseInt(s, Decimal) == Some(DigitsValue(s, false))
  {
    assert IsDigit(s[0]) && !IsSpace(s[0]);
    assert TrimStart(s) == s;
    DigitPrefixOfDigits(s, false);
  }

  function HexDigitChar(d: nat): (c: char)
    requires d < 16
    ensures IsHexDigit(c) && HexDigitValue(c) == d && !('A' <= c <= 'F')
  {
    if d < 10 then ('0' as int + d) as char else ('a' as int + d - 10) as char
  }

  /** `n.toString(16)` for an integer: lower-case digits, a minus sign when negative. */
  function ToHexString(n: int): (r: string)
    ensures 0 <= n ==> AllHex(r) && r != [] && DigitsValue(r, true) == n
    ensures 0 <= n < 16 ==> |r| == 1
    ensures 16 <= n < 256 ==> |r| == 2
    ensures 0 <= n ==> forall i | 0 <= i < |r| :: !('A' <= r[i] <= 'F')
    decreases if n < 0 then 1 - n else n
  {
    if n < 0 then "-" + ToHexString(-n)
    else if n < 16 then [HexDigitChar(n)]
    else
      var r := ToHexString(n / 16) + [HexDigitChar(n % 16)];
      assert r[..|r| - 1] == ToHexString(n / 16);
      r
  }

  /** `s.padStart(2, "0")` */
  function PadStart2(s: string): (r: string)
    ensures |s| >= 2 ==> r == s
    ensures |s| < 2 ==> |r| == 2 && r[2 - |s|..] == s
  {
    if |s| == 0 then "00" else if |s| == 1 then "0" + s else s
  }

  /** `n.toString(16).padStart(2, "0")`: two lower-case hex digits for a channel value. */
  function Hex2(n: int): (r: string)
    ensures 0 <= n < 256 ==> |r| == 2 && AllHex(r) && DigitsValue(r, true) == n
    ensures 0 <= n < 256 ==> forall i | 0 <= i < |r| :: !('A' <= r[i] <= 'F')
  {
    var h := ToHexString(n);
    var r := PadStart2(h);
    assert 0 <= n < 16 ==> r == ['0'] + h && r[..1] == "0";
    r
  }

  /** `String(n)` for a natural number */
  function DecimalString(n: nat): (r: string)
    ensures r != [] && AllDigits(r)
  {
    if n < 10 then [('0' as int + n) as char]
    else DecimalString(n / 10) + [('0' as int + n % 10) as char]
  }

  /** `String(n)` reads back as `n`, so different numbers print differently. */
  lemma {:induction false} DecimalStringValue(n: nat)
    ensures DigitsValue(DecimalString(n), false) == n
  {
    var r := DecimalString(n);
    if n >= 10 {
      DecimalStringValue(n / 10);
      assert r[..|r| - 1] == DecimalString(n / 10);
    }
  }

  lemma DecimalStringInjective(a: nat, b: nat)
    requires DecimalString(a) == DecimalString(b)
    ensures a == b
  {
    DecimalStringValue(a);
    DecimalStringValue(b);
  }

  /** `parseFloat` on decimal literals: white space, a sign, digits with an optional
      fraction; `None` stands for NaN.  Exponents and `Infinity` are not modelled. */
  function ParseFloat(s: string): (r: Option<real>)
  {
    SignedDecimal(TrimStart(s))
  }

  /** An optional sign, then an unsigned literal. */
  function SignedDecimal(t: string): Option<real> {
    if t != [] && t[0] == '-' then Negated(DecimalPrefix(t[1..]))
    else if t != [] && t[0] == '+' then DecimalPrefix(t[1..])
    else DecimalPrefix(t)
  }

  function Negated(x: Option<real>): Option<real> {
    if x.Some? then Some(-x.value) else None
  }

  /** The fraction digits after a leading `.`, if any. */
  function Fraction(rest: string): (f: string)
    ensures forall i | 0 <= i < |f| :: IsDigit(f[i])
  {
    if rest != [] && rest[0] == '.' then DigitPrefix(rest[1..], false) else []
  }

  /** The value of the longest unsigned decimal literal at the start of `u`. */
  function DecimalPrefix(u: string): Option<real> {
    var whole := DigitPrefix(u, false);
    var frac := Fraction(u[|whole|..]);
    if whole == [] && frac == [] then None
    else Some(DigitsValue(whole, false) as real + DigitsValue(frac, false) as real / Pow10(|frac|) as real)
  }

  /** Trimming stops at the first character that is not white space. */
  lemma {:induction false} TrimStartBefore(t: string, c: string)
    requires c != [] && !IsSpace(c[0])
    ensures TrimStart(t + c) == TrimStart(t) + c
  {
    if t != [] && IsSpace(t[0]) {
      assert (t + c)[1..] == t[1..] + c;
      TrimStartBefore(t[1..], c);
    }
  }

  /** A digit run stops at the first non-digit. */
  lemma {:induction false} DigitPrefixBefore(u: string, c: string)
    requires c != [] && !IsDigit(c[0])
    ensures DigitPrefix(u + c, false) == DigitPrefix(u, false)
  {
    if u != [] && IsDigit(u[0]) {
      assert (u + c)[1..] == u[1..] + c;
      DigitPrefixBefore(u[1..], c);
    }
  }

  /** An unsigned literal ends before a comma. */
  lemma DecimalPrefixBefore(u: string, c: string)
    requires c != [] && c[0] == ','
    ensures DecimalPrefix(u + c) == DecimalPrefix(u)
  {
    DigitPrefixBefore(u, c);
    var whole := DigitPrefix(u, false);
    assert (u + c)[|whole|..] == u[|whole|..] + c;
    FractionBefore(u[|whole|..], c);
  }

  lemma FractionBefore(rest: string, c: string)
    requires c != [] && c[0] == ','
    ensures Fraction(rest + c) == Fraction(rest)
  {
    if rest != [] {
      assert (rest + c)[1..] == rest[1..] + c;
      DigitPrefixBefore(rest[1..], c);
    }
  }

  /** `parseFloat` reads nothing past a comma, so `parseFloat(String(a))` of an array
      `a` is decided by the text before the first comma the join puts in. */
  lemma ParseFloatStopsAtComma(t: string, r: string)
    ensures ParseFloat(t + "," + r) == ParseFloat(t)
  {
    var c := "," + r;
    assert t + "," + r == t + c;
    TrimStartBefore(t, c);
    SignedDecimalBefore(TrimStart(t), c);
  }

  lemma SignedDecimalBefore(t: string, c: string)
    requires c != [] && c[0] == ','
    ensures SignedDecimal(t + c) == SignedDecimal(t)
  {
    if t != [] && (t[0] == '-' || t[0] == '+') {
      assert (t + c)[0] == t[0] && (t + c)[1..] == t[1..] + c;
      DecimalPrefixBefore(t[1..], c);
    } else {
      assert t + c != [] && (t + c)[0] != '-' && (t + c)[0] != '+';
      DecimalPrefixBefore(t, c);
    }
  }

  function Pow10(k: nat): (p: nat)
    ensures p >= 1
  {
    if k == 0 then 1 else 10 * Pow10(k - 1)
  }

  /** `Math.round`: the nearest integer, halves rounded up. */
  function Round(x: real): (n: int)
    ensures n as real - 0.5 <= x < n as real + 0.5
  {
    (x + 0.5).Floor
  }

  // ------------------------------------------------------------------
  // Ordering

  /** `a <= b` on strings: code-unit lexicographic order. */
  predicate LexLe(a: string, b: string)
    decreases |a|
  {
    a == [] || (b != [] && (a[0] < b[0] || (a[0] == b[0] && LexLe(a[1..], b[1..]))))
  }

  lemma {:induction false} LexLeTotal(a: string, b: string)
    ensures LexLe(a, b) || LexLe(b, a)
    decreases |a|
  {
    if a != [] && b != [] && a[0] == b[0] {
      LexLeTotal(a[1..], b[1..]);
    }
  }

  lemma {:induction false} LexLeTransitive(a: string, b: string, c: string)
    requires LexLe(a, b) && LexLe(b, c)
    ensures LexLe(a, c)
    decreases |a|
  {
    if a != [] && a[0] == b[0] && b[0] == c[0] {
      LexLeTransitive(a[1..], b[1..], c[1..]);
    }
  }

  /** Strings that are ordered both ways are equal. */
  lemma {:induction false} LexLeAntisymmetric(a: string, b: string)
    requires LexLe(a, b) && LexLe(b, a)
    ensures a == b
    decreases |a|
  {
    if a != [] {
      LexLeAntisymmetric(a[1..], b[1..]);
      assert a == [a[0]] + a[1..] && b == [b[0]] + b[1..];
    }
  }
}
