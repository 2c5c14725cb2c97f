/** The UI's colour helpers: a loose hex parser whose channels can be NaN, the RGB
    distance over such channels, the percentage-weighted blend of a formula's
    components, and the extraction of a PMS name from a Matsui formula description. */
module ColorMath {
  import opened Wrappers
  import opened JsText
  import opened Patterns
  import ServerColor

  /** `{ r, g, b }` as numbers; `None` is NaN. */
  datatype Channels = Channels(r: Option<int>, g: Option<int>, b: Option<int>)

  predicate Defined(c: Channels) { c.r.Some? && c.g.Some? && c.b.Some? }

  /** Six hex digits with an optional `#` in front. */
  predicate IsSixHex(hex: string) {
    (|hex| == 6 && AllHex(hex)) || (|hex| == 7 && hex[0] == '#' && AllHex(hex[1..]))
  }

  /** `hexToRgb(hex)`: the first `#` is removed and characters [0,2), [2,4), [4,6)
      are read by `parseInt(_, 16)`. */
  function HexToRgb(hex: string): Channels {
    var h := RemoveFirst(hex, '#');
    Channels(HexField(h, 0), HexField(h, 2), HexField(h, 4))
  }

  /** `parseInt(h.substring(k, k + 2), 16)` */
  function HexField(h: string, k: nat): Option<int> {
    ParseInt(Substring(h, k, k + 2), Hexadecimal)
  }

  lemma DigitsOfSixHex(hex: string)
    requires IsSixHex(hex)
    ensures var g := hex[|hex| - 6..];
      RemoveFirst(hex, '#') == g && AllHex(g)
  {
    var g := hex[|hex| - 6..];
    if |hex| == 6 {
      assert g == hex;
      assert '#' !in hex by {
        forall i | 0 <= i < 6 ensures hex[i] != '#' { assert IsHexDigit(hex[i]); }
      }
    } else {
      assert g == hex[1..];
    }
  }

  /** The six digits of a six-digit hex, which is also what removing `#` leaves. */
  function SixDigits(hex: string): (g: string)
    requires IsSixHex(hex)
    ensures |g| == 6 && AllHex(g) && g == hex[|hex| - 6..]
    ensures RemoveFirst(hex, '#') == g
  {
    DigitsOfSixHex(hex);
    hex[|hex| - 6..]
  }

  /** The base-16 value of the digit pair at `k`. */
  function PairValue(g: string, k: nat): (v: nat)
    requires |g| == 6 && AllHex(g) && k <= 4
    ensures v < 256
  {
    var p := g[k..k + 2];
    assert p[0] == g[k] && p[1] == g[k + 1];
    HexPairValue(p);
    DigitsValue(p, true)
  }

  lemma PairOfSix(g: string, k: nat)
    requires |g| == 6 && AllHex(g) && k <= 4
    ensures HexField(g, k) == Some(PairValue(g, k))
  {
    var p := g[k..k + 2];
    assert p[0] == g[k] && p[1] == g[k + 1];
    ParseIntHexDigits(p);
  }

  /** On six hex digits, `#` optional, every channel is defined and is the base-16
      value of its digit pair (so lies in 0..255). */
  lemma HexToRgbSixDigits(hex: string)
    requires IsSixHex(hex)
    ensures var g := SixDigits(hex);
      HexToRgb(hex) == Channels(Some(PairValue(g, 0)), Some(PairValue(g, 2)), Some(PairValue(g, 4)))
  {
    var g := SixDigits(hex);
    PairOfSix(g, 0);
    PairOfSix(g, 2);
    PairOfSix(g, 4);
  }

  /** A field that starts at or past the end reads the empty string: NaN. */
  lemma HexFieldPastEnd(h: string, k: nat)
    requires |h| <= k
    ensures HexField(h, k) == None
  {
    assert Substring(h, k, k + 2) == [];
  }

  /** A field cut short by the end of the string reads its one digit. */
  lemma HexFieldLastDigit(h: string, k: nat)
    requires |h| == k + 1 && IsHexDigit(h[k])
    ensures HexField(h, k) == Some(HexDigitValue(h[k]))
  {
    var p := Substring(h, k, k + 2);
    assert p == [h[k]];
    ParseIntHexDigits(p);
    assert p[..0] == [];
  }

  /** `hexToRgb("#FFF")` and any other 3-digit hex: the first channel reads two digits,
      the second reads one and the third reads nothing. */
  lemma HexToRgbThreeDigits(hex: string)
    requires |hex| == 4 && hex[0] == '#' && AllHex(hex[1..])
    ensures HexToRgb(hex).r == Some(16 * HexDigitValue(hex[1]) + HexDigitValue(hex[2]))
    ensures HexToRgb(hex).g == Some(HexDigitValue(hex[3]))
    ensures HexToRgb(hex).b == None
  {
    var h := hex[1..];
    assert RemoveFirst(hex, '#') == h;
    assert HexField(h, 0) == Some(16 * HexDigitValue(hex[1]) + HexDigitValue(hex[2])) by {
      var p := h[0..2];
      assert Substring(h, 0, 2) == p;
      assert p[0] == hex[1] && p[1] == hex[2];
      ParseIntHexDigits(p);
      HexPairValue(p);
    }
    assert IsHexDigit(h[2]);
    HexFieldLastDigit(h, 2);
    HexFieldPastEnd(h, 4);
  }

  /** `rgbDistance(a, b)` squared; NaN in any channel makes it NaN. */
  function DistanceSq(a: Channels, b: Channels): (d: Option<nat>)
    ensures d.Some? <==> Defined(a) && Defined(b)
    ensures d.Some? ==> (d.value == 0 <==> a == b)
  {
    if Defined(a) && Defined(b) then
      Some(ServerColor.Sq(a.r.value - b.r.value) + ServerColor.Sq(a.g.value - b.g.value)
           + ServerColor.Sq(a.b.value - b.b.value))
    else None
  }

  lemma DistanceSqSymmetric(a: Channels, b: Channels)
    ensures DistanceSq(a, b) == DistanceSq(b, a)
  {
    if Defined(a) && Defined(b) {
      assert ServerColor.Sq(a.r.value - b.r.value) == ServerColor.Sq(b.r.value - a.r.value);
      assert ServerColor.Sq(a.g.value - b.g.value) == ServerColor.Sq(b.g.value - a.g.value);
      assert ServerColor.Sq(a.b.value - b.b.value) == ServerColor.Sq(b.b.value - a.b.value);
    }
  }

  // ------------------------------------------------------------------
  // Blending

  /** `{ hex?: string; percentage: number }` */
  datatype Part = Part(hex: Option<string>, percentage: real)

  /** `!c.hex || c.hex.length < 6` skips a component. */
  predicate Kept(c: Part) { c.hex.Some? && |c.hex.value| >= 6 }

  datatype Channel = Red | Green | Blue

  function Pick(c: Channels, ch: Channel): Option<int> {
    match ch
    case Red => c.r
    case Green => c.g
    case Blue => c.b
  }

  /** `x * p` on a number that may be NaN */
  function Scale(x: Option<int>, p: real): Option<real> {
    if x.Some? then Some(x.value as real * p) else None
  }

  /** `a + b` on numbers that may be NaN */
  function AddNaN(a: Option<real>, b: Option<real>): Option<real> {
    if a.Some? && b.Some? then Some(a.value + b.value) else None
  }

  /** One channel of a component's colour, as `hexToRgb(c.hex)` reads it. */
  function ChannelOf(ch: Channel): Part -> Option<int> {
    (c: Part) => if c.hex.Some? then Pick(HexToRgb(c.hex.value), ch) else None
  }

  /** Σ value · percentage over the kept parts, `val` giving each part's value. */
  function WeightedSum(cs: seq<Part>, val: Part -> Option<int>): Option<real> {
    if cs == [] then Some(0.0)
    else
      var c := cs[|cs| - 1];
      var prev := WeightedSum(cs[..|cs| - 1], val);
      if Kept(c) then AddNaN(prev, Scale(val(c), c.percentage)) else prev
  }

  /** Σ percentage over the kept parts. */
  function TotalPct(cs: seq<Part>): real {
    if cs == [] then 0.0
    else
      var c := cs[|cs| - 1];
      TotalPct(cs[..|cs| - 1]) + (if Kept(c) then c.percentage else 0.0)
  }

  /** `Math.round(x / total)`, NaN staying NaN. */
  function RoundedAverage(x: Option<real>, total: real): Option<int>
    requires total != 0.0
  {
    if x.Some? then Some(Round(x.value / total)) else None
  }

  /** `n.toString(16).padStart(2, "0")`, where NaN prints as `NaN`. */
  function ChannelHex(n: Option<int>): string {
    if n.Some? then Hex2(n.value) else "NaN"
  }

  /** The rounded weighted average, when the total is not 0. */
  function BlendValue(cs: seq<Part>, val: Part -> Option<int>): Option<int>
    requires TotalPct(cs) != 0.0
  {
    RoundedAverage(WeightedSum(cs, val), TotalPct(cs))
  }

  function BlendChannel(cs: seq<Part>, ch: Channel): Option<int>
    requires TotalPct(cs) != 0.0
  {
    BlendValue(cs, ChannelOf(ch))
  }

  /** What `blendComponentColors` returns: `#888888` when the kept percentages sum to
      0, otherwise `#` and the three rounded weighted averages in base 16. */
  function Blend(cs: seq<Part>): string {
    if TotalPct(cs) == 0.0 then "#888888"
    else "#" + ChannelHex(BlendChannel(cs, Red)) + ChannelHex(BlendChannel(cs, Green))
         + ChannelHex(BlendChannel(cs, Blue))
  }

  /** `blendComponentColors(components)`: one pass accumulating the weighted
      channels and the total percentage of the kept components. */
  method BlendComponentColors(cs: seq<Part>) returns (hex: string)
    ensures hex == Blend(cs)
  {
    var r: Option<real> := Some(0.0);
    var g: Option<real> := Some(0.0);
    var b: Option<real> := Some(0.0);
    var totalPct: real := 0.0;
    for i := 0 to |cs|
      invariant r == WeightedSum(cs[..i], ChannelOf(Red))
      invariant g == WeightedSum(cs[..i], ChannelOf(Green))
      invariant b == WeightedSum(cs[..i], ChannelOf(Blue))
      invariant totalPct == TotalPct(cs[..i])
    {
      var c := cs[i];
      AccumulateStep(cs, i, ChannelOf(Red));
      AccumulateStep(cs, i, ChannelOf(Green));
      AccumulateStep(cs, i, ChannelOf(Blue));
      if !Kept(c) {
        continue;
      }
      var rgb := HexToRgb(c.hex.value);
      assert ChannelOf(Red)(c) == rgb.r && ChannelOf(Green)(c) == rgb.g && ChannelOf(Blue)(c) == rgb.b;
      r := AddNaN(r, Scale(rgb.r, c.percentage));
      g := AddNaN(g, Scale(rgb.g, c.percentage));
      b := AddNaN(b, Scale(rgb.b, c.percentage));
      totalPct := totalPct + c.percentage;
    }
    assert cs[..|cs|] == cs;
    if totalPct == 0.0 {
      return "#888888";
    }
    var rr := RoundedAverage(r, totalPct);
    var gg := RoundedAverage(g, totalPct);
    var bb := RoundedAverage(b, totalPct);
    hex := "#" + ChannelHex(rr) + ChannelHex(gg) + ChannelHex(bb);
  }

  /** One more part taken into the sums. */
  lemma AccumulateStep(cs: seq<Part>, i: nat, val: Part -> Option<int>)
    requires i < |cs|
    ensures var c := cs[i]; var prev := WeightedSum(cs[..i], val);
      WeightedSum(cs[..i + 1], val) == (if Kept(c) then AddNaN(prev, Scale(val(c), c.percentage)) else prev)
      && TotalPct(cs[..i + 1]) == TotalPct(cs[..i]) + (if Kept(c) then c.percentage else 0.0)
  {
    assert cs[..i + 1][..i] == cs[..i];
  }

  /** The parts the blend keeps, in order. */
  function KeptParts(cs: seq<Part>): (r: seq<Part>)
    ensures forall c | c in r :: Kept(c) && c in cs
  {
    if cs == [] then []
    else KeptParts(cs[..|cs| - 1]) + (if Kept(cs[|cs| - 1]) then [cs[|cs| - 1]] else [])
  }

  lemma {:induction false} KeptPartsSums(cs: seq<Part>, val: Part -> Option<int>)
    ensures WeightedSum(KeptParts(cs), val) == WeightedSum(cs, val)
    ensures TotalPct(KeptParts(cs)) == TotalPct(cs)
  {
    if cs != [] {
      var k := KeptParts(cs);
      var p := KeptParts(cs[..|cs| - 1]);
      KeptPartsSums(cs[..|cs| - 1], val);
      if Kept(cs[|cs| - 1]) {
        assert k[..|k| - 1] == p;
      } else {
        assert k == p;
      }
    }
  }

  /** Components with a missing or short hex make no difference to the blend. */
  lemma BlendIgnoresSkipped(cs: seq<Part>)
    ensures Blend(KeptParts(cs)) == Blend(cs)
  {
    KeptPartsSums(cs, ChannelOf(Red));
    KeptPartsSums(cs, ChannelOf(Green));
    KeptPartsSums(cs, ChannelOf(Blue));
  }

  /** With no component kept, the blend is the neutral grey `#888888`. */
  lemma {:induction false} BlendNoneKept(cs: seq<Part>)
    requires forall i | 0 <= i < |cs| :: !Kept(cs[i])
    ensures TotalPct(cs) == 0.0
    ensures Blend(cs) == "#888888"
  {
    if cs != [] {
      BlendNoneKept(cs[..|cs| - 1]);
    }
  }

  /** Every kept part has a non-negative percentage.  (Stated one part at a time,
      from the end, like the sums.) */
  predicate NonNegative(cs: seq<Part>) {
    cs == [] || (NonNegative(cs[..|cs| - 1]) && (Kept(cs[|cs| - 1]) ==> cs[|cs| - 1].percentage >= 0.0))
  }

  /** On every kept part both values are numbers and the first is at most the second. */
  predicate LeOnKept(cs: seq<Part>, f: Part -> Option<int>, g: Part -> Option<int>) {
    cs == [] ||
    (LeOnKept(cs[..|cs| - 1], f, g) &&
     var c := cs[|cs| - 1];
     (Kept(c) ==> f(c).Some? && g(c).Some? && f(c).value <= g(c).value))
  }

  /** The value `k` for every part. */
  function Const(k: int): Part -> Option<int> { (c: Part) => Some(k) }

  /** Every kept part's value is a number in [lo, hi]. */
  predicate ValuesWithin(cs: seq<Part>, val: Part -> Option<int>, lo: int, hi: int) {
    LeOnKept(cs, Const(lo), val) && LeOnKept(cs, val, Const(hi))
  }

  /** The last part's contribution to the sums. */
  lemma WeightedSumLast(cs: seq<Part>, val: Part -> Option<int>)
    requires cs != []
    ensures var c := cs[|cs| - 1]; var prev := WeightedSum(cs[..|cs| - 1], val);
      WeightedSum(cs, val) == (if Kept(c) then AddNaN(prev, Scale(val(c), c.percentage)) else prev)
      && TotalPct(cs) == TotalPct(cs[..|cs| - 1]) + (if Kept(c) then c.percentage else 0.0)
  {
  }

  lemma AddScaled(w: real, x: Option<int>, p: real)
    requires x.Some?
    ensures AddNaN(Some(w), Scale(x, p)).Some? && AddNaN(Some(w), Scale(x, p)).value == w + x.value as real * p
  {
  }

  lemma AddScaledInt(w: real, n: int, p: real)
    ensures AddNaN(Some(w), Scale(Some(n), p)).Some? && AddNaN(Some(w), Scale(Some(n), p)).value == w + n as real * p
  {
  }

  lemma ScaleMono(x: real, y: real, p: real)
    requires x <= y && p >= 0.0
    ensures x * p <= y * p
  {
  }

  /** With non-negative percentages the weighted sum is monotone in the values. */
  lemma {:induction false} WeightedSumMono(cs: seq<Part>, f: Part -> Option<int>, g: Part -> Option<int>)
    requires NonNegative(cs) && LeOnKept(cs, f, g)
    ensures WeightedSum(cs, f).Some? && WeightedSum(cs, g).Some?
    ensures WeightedSum(cs, f).value <= WeightedSum(cs, g).value
  {
    if cs != [] {
      var c := cs[|cs| - 1];
      WeightedSumMono(cs[..|cs| - 1], f, g);
      var wf := WeightedSum(cs[..|cs| - 1], f).value;
      var wg := WeightedSum(cs[..|cs| - 1], g).value;
      WeightedSumLast(cs, f);
      WeightedSumLast(cs, g);
      if Kept(c) {
        var x := f(c);
        var y := g(c);
        AddScaled(wf, x, c.percentage);
        AddScaled(wg, y, c.percentage);
        ScaleMono(x.value as real, y.value as real, c.percentage);
      }
    }
  }

  lemma Distribute(k: real, t: real, p: real, total: real)
    requires total == t + p
    ensures k * total == k * t + k * p
  {
  }

  /** A constant value `k` sums to `k` times the total percentage. */
  lemma {:induction false} WeightedSumConst(cs: seq<Part>, k: int)
    ensures WeightedSum(cs, Const(k)).Some?
    ensures WeightedSum(cs, Const(k)).value == k as real * TotalPct(cs)
  {
    if cs != [] {
      var c := cs[|cs| - 1];
      WeightedSumConst(cs[..|cs| - 1], k);
      var w := WeightedSum(cs[..|cs| - 1], Const(k)).value;
      WeightedSumLast(cs, Const(k));
      if Kept(c) {
        assert Const(k)(c) == Some(k);
        AddScaledInt(w, k, c.percentage);
        Distribute(k as real, TotalPct(cs[..|cs| - 1]), c.percentage, TotalPct(cs));
      }
    } else {
      assert k as real * 0.0 == 0.0;
    }
  }

  /** With values in [lo, hi] the weighted sum lies between lo and hi times the total. */
  lemma WeightedSumWithin(cs: seq<Part>, val: Part -> Option<int>, lo: int, hi: int)
    requires NonNegative(cs) && ValuesWithin(cs, val, lo, hi)
    ensures WeightedSum(cs, val).Some?
    ensures lo as real * TotalPct(cs) <= WeightedSum(cs, val).value <= hi as real * TotalPct(cs)
  {
    WeightedSumMono(cs, Const(lo), val);
    WeightedSumMono(cs, val, Const(hi));
    WeightedSumConst(cs, lo);
    WeightedSumConst(cs, hi);
  }

  lemma {:induction false} TotalPctNonNegative(cs: seq<Part>)
    requires NonNegative(cs)
    ensures TotalPct(cs) >= 0.0
  {
    if cs != [] {
      TotalPctNonNegative(cs[..|cs| - 1]);
    }
  }

  lemma DivNonNeg(a: real, t: real)
    requires a >= 0.0 && t > 0.0
    ensures a / t >= 0.0
  {
  }

  lemma DivBounds(s: real, t: real, lo: real, hi: real)
    requires t > 0.0 && lo * t <= s <= hi * t
    ensures lo <= s / t <= hi
  {
    assert s / t - lo == (s - lo * t) / t;
    assert hi - s / t == (hi * t - s) / t;
    DivNonNeg(s - lo * t, t);
    DivNonNeg(hi * t - s, t);
  }

  /** Rounding an average of values in [lo, hi] stays in [lo, hi]. */
  lemma RoundWithin(s: real, t: real, lo: int, hi: int)
    requires t > 0.0 && lo as real * t <= s <= hi as real * t
    ensures lo <= Round(s / t) <= hi
  {
    DivBounds(s, t, lo as real, hi as real);
  }

  /** The blended value lies between the smallest and the largest value among the
      kept components. */
  lemma {:induction false} BlendValueWithin(cs: seq<Part>, val: Part -> Option<int>, lo: int, hi: int)
    requires NonNegative(cs) && ValuesWithin(cs, val, lo, hi) && TotalPct(cs) != 0.0
    ensures BlendValue(cs, val).Some?
    ensures lo <= BlendValue(cs, val).value <= hi
  {
    WeightedSumWithin(cs, val, lo, hi);
    TotalPctNonNegative(cs);
    AverageWithin(WeightedSum(cs, val), TotalPct(cs), lo, hi);
  }

  lemma AverageWithin(x: Option<real>, total: real, lo: int, hi: int)
    requires x.Some? && total > 0.0 && lo as real * total <= x.value <= hi as real * total
    ensures RoundedAverage(x, total).Some? && lo <= RoundedAverage(x, total).value <= hi
  {
    RoundWithin(x.value, total, lo, hi);
  }

  /** Every kept part has a six-digit hex. */
  predicate SixHexParts(cs: seq<Part>) {
    forall i | 0 <= i < |cs| :: Kept(cs[i]) ==> IsSixHex(cs[i].hex.value)
  }

  lemma {:induction false} SixHexInByteRange(cs: seq<Part>, ch: Channel)
    requires SixHexParts(cs)
    ensures ValuesWithin(cs, ChannelOf(ch), 0, 255)
  {
    if cs != [] {
      var init := cs[..|cs| - 1];
      var c := cs[|cs| - 1];
      assert SixHexParts(init) by {
        forall i | 0 <= i < |init| ensures init[i] == cs[i] { }
      }
      SixHexInByteRange(init, ch);
      if Kept(c) {
        ChannelInByteRange(c, ch);
      }
    }
  }

  /** A six-digit hex gives every channel a value in [0, 255]. */
  lemma ChannelInByteRange(c: Part, ch: Channel)
    requires Kept(c) && IsSixHex(c.hex.value)
    ensures ChannelOf(ch)(c).Some? && 0 <= ChannelOf(ch)(c).value <= 255
  {
    HexToRgbSixDigits(c.hex.value);
  }

  /** Two lower-case hex digits */
  predicate LowerHexPair(x: string) {
    |x| == 2 && AllHex(x) && forall i | 0 <= i < 2 :: !('A' <= x[i] <= 'F')
  }

  /** `#` and six lower-case hex digits */
  predicate IsLowerHexColor(h: string) {
    |h| == 7 && h[0] == '#' && AllHex(h[1..]) && forall i | 1 <= i < 7 :: !('A' <= h[i] <= 'F')
  }

  lemma JoinPairs(a: string, b: string, c: string)
    requires LowerHexPair(a) && LowerHexPair(b) && LowerHexPair(c)
    ensures IsLowerHexColor("#" + a + b + c)
  {
    var h := "#" + a + b + c;
    assert h[1..] == a + b + c;
    forall i | 1 <= i < 7 ensures IsHexDigit(h[i]) && !('A' <= h[i] <= 'F') {
      if i < 3 { assert h[i] == a[i - 1]; }
      else if i < 5 { assert h[i] == b[i - 3]; }
      else { assert h[i] == c[i - 5]; }
    }
  }

  lemma ChannelPairLower(cs: seq<Part>, ch: Channel)
    requires SixHexParts(cs) && NonNegative(cs) && TotalPct(cs) != 0.0
    ensures LowerHexPair(ChannelHex(BlendChannel(cs, ch)))
  {
    SixHexInByteRange(cs, ch);
    BlendValueWithin(cs, ChannelOf(ch), 0, 255);
  }

  /** For components with six-digit hexes, non-negative percentages and a non-zero
      total, the blend is `#` and six lower-case hex digits. */
  lemma BlendIsLowerHex(cs: seq<Part>)
    requires SixHexParts(cs) && NonNegative(cs) && TotalPct(cs) != 0.0
    ensures IsLowerHexColor(Blend(cs))
  {
    ChannelPairLower(cs, Red);
    ChannelPairLower(cs, Green);
    ChannelPairLower(cs, Blue);
    JoinPairs(ChannelHex(BlendChannel(cs, Red)), ChannelHex(BlendChannel(cs, Green)),
              ChannelHex(BlendChannel(cs, Blue)));
  }

  /** An exact multiple of the total averages to the multiplier. */
  lemma RoundedAverageExact(x: Option<real>, t: real, n: int)
    requires t != 0.0 && x.Some? && x.value == n as real * t
    ensures RoundedAverage(x, t) == Some(n)
  {
    assert x.value / t == n as real;
  }

  /** A single kept part at a non-zero percentage averages to its own value. */
  lemma SingleAverage(h: string, p: real, val: Part -> Option<int>, n: int)
    requires |h| >= 6 && p != 0.0 && val(Part(Some(h), p)) == Some(n)
    ensures TotalPct([Part(Some(h), p)]) == p
    ensures BlendValue([Part(Some(h), p)], val) == Some(n)
  {
    var c := Part(Some(h), p);
    assert [c][..0] == [];
    WeightedSumLast([c], val);
    AddScaledInt(0.0, n, p);
    RoundedAverageExact(WeightedSum([c], val), p, n);
  }

  /** A formula of one component at any positive percentage blends to that
      component's own channel values. */
  lemma BlendSingle(h: string, p: real, ch: Channel)
    requires IsSixHex(h) && p > 0.0
    ensures TotalPct([Part(Some(h), p)]) == p
    ensures BlendChannel([Part(Some(h), p)], ch) == Pick(HexToRgb(h), ch)
  {
    var c := Part(Some(h), p);
    HexToRgbSixDigits(h);
    var v := ChannelOf(ch)(c);
    assert v == Pick(HexToRgb(h), ch) && v.Some?;
    SingleAverage(h, p, ChannelOf(ch), v.value);
  }

  /** A field of six digits that reads `00` or `FF`: 0 or 255. */
  lemma ZeroOrFullField(g: string, k: nat)
    requires |g| == 6
    requires k <= 4
    requires g[k] == g[k + 1]
    requires g[k] == '0' || g[k] == 'F'
    ensures HexField(g, k).Some?
    ensures HexField(g, k).value == if g[k] == 'F' then 255 else 0
  {
    var p := g[k..k + 2];
    assert p[0] == g[k] && p[1] == g[k];
    assert AllHex(p);
    assert HexField(g, k) == ParseInt(p, Hexadecimal);
    ParseIntHexDigits(p);
    HexPairValue(p);
    var d := HexDigitValue(g[k]);
    assert DigitsValue(p, true) == 16 * d + d;
    assert d == if g[k] == 'F' then 15 else 0;
  }

  /** After a leading `#`, the three fields are read from the rest. */
  lemma FieldsAfterHash(h: string)
    requires h != [] && h[0] == '#'
    ensures HexToRgb(h) == Channels(HexField(h[1..], 0), HexField(h[1..], 2), HexField(h[1..], 4))
  {
    assert RemoveFirst(h, '#') == h[1..];
  }

  /** Six digits that pair up as `00` or `FF`: each field reads 0 or 255. */
  lemma ZeroOrFullFields(g: string)
    requires |g| == 6
    requires g[0] == g[1] && g[2] == g[3] && g[4] == g[5]
    requires g[0] == '0' || g[0] == 'F'
    requires g[2] == '0' || g[2] == 'F'
    requires g[4] == '0' || g[4] == 'F'
    ensures HexField(g, 0).Some? && HexField(g, 2).Some? && HexField(g, 4).Some?
    ensures HexField(g, 0).value == if g[0] == 'F' then 255 else 0
    ensures HexField(g, 2).value == if g[2] == 'F' then 255 else 0
    ensures HexField(g, 4).value == if g[4] == 'F' then 255 else 0
  {
    ZeroOrFullField(g, 0);
    ZeroOrFullField(g, 2);
    ZeroOrFullField(g, 4);
  }

  /** The same colour with its `#`: each channel is 0 or 255. */
  lemma ZeroOrFullChannels(h: string)
    requires |h| == 7 && h[0] == '#'
    requires h[1] == h[2] && h[3] == h[4] && h[5] == h[6]
    requires h[1] == '0' || h[1] == 'F'
    requires h[3] == '0' || h[3] == 'F'
    requires h[5] == '0' || h[5] == 'F'
    ensures var c := HexToRgb(h);
      Defined(c)
      && c.r.value == (if h[1] == 'F' then 255 else 0)
      && c.g.value == (if h[3] == 'F' then 255 else 0)
      && c.b.value == (if h[5] == 'F' then 255 else 0)
  {
    var g := h[1..];
    assert g[0] == h[1] && g[1] == h[2] && g[2] == h[3];
    assert g[3] == h[4] && g[4] == h[5] && g[5] == h[6];
    ZeroOrFullFields(g);
    FieldsAfterHash(h);
  }

  lemma RedChannels()
    ensures var c := HexToRgb("#FF0000");
      Defined(c) && c.r.value == 255 && c.g.value == 0 && c.b.value == 0
  {
    ZeroOrFullChannels("#FF0000");
  }

  lemma BlueChannels()
    ensures var c := HexToRgb("#0000FF");
      Defined(c) && c.r.value == 0 && c.g.value == 0 && c.b.value == 255
  {
    ZeroOrFullChannels("#0000FF");
  }

  /** Two kept components: the weighted sum adds their two scaled values, and the
      total their two percentages. */
  lemma TwoPartSum(a: Part, b: Part, val: Part -> Option<int>)
    requires Kept(a) && Kept(b)
    ensures var s := WeightedSum([a, b], val);
      s.Some? <==> val(a).Some? && val(b).Some?
    ensures var s := WeightedSum([a, b], val);
      s.Some? ==> s.value == val(a).value as real * a.percentage + val(b).value as real * b.percentage
    ensures TotalPct([a, b]) == a.percentage + b.percentage
  {
    var cs := [a, b];
    assert cs[..1] == [a] && [a][..0] == [];
    WeightedSumLast(cs, val);
    WeightedSumLast([a], val);
  }

  /** The channel `ch` of `#FF0000` and of `#0000FF`: one of them is 255 on red
      and on blue, both are 0 on green. */
  lemma RedBlueValues(ch: Channel)
    ensures var x, y := ChannelOf(ch)(Part(Some("#FF0000"), 50.0)), ChannelOf(ch)(Part(Some("#0000FF"), 50.0));
      x.Some? && y.Some? && x.value + y.value == if ch == Green then 0 else 255
  {
    var red, blue := Part(Some("#FF0000"), 50.0), Part(Some("#0000FF"), 50.0);
    var x, y := ChannelOf(ch)(red), ChannelOf(ch)(blue);
    var c1, c2 := HexToRgb("#FF0000"), HexToRgb("#0000FF");
    assert x == Pick(c1, ch) && y == Pick(c2, ch);
    RedChannels();
    BlueChannels();
    match ch
    case Red => assert x == c1.r && y == c2.r;
    case Green => assert x == c1.g && y == c2.g;
    case Blue => assert x == c1.b && y == c2.b;
  }

  /** The weighted sum of channel `ch` over red and blue at 50 each, and their total. */
  lemma RedBlueSum(ch: Channel)
    ensures var cs := [Part(Some("#FF0000"), 50.0), Part(Some("#0000FF"), 50.0)];
      var sum := WeightedSum(cs, ChannelOf(ch));
      TotalPct(cs) == 100.0 && sum.Some? && sum.value == if ch == Green then 0.0 else 12750.0
  {
    var red, blue := Part(Some("#FF0000"), 50.0), Part(Some("#0000FF"), 50.0);
    var val := ChannelOf(ch);
    RedBlueValues(ch);
    TwoPartSum(red, blue, val);
    var x, y := val(red).value, val(blue).value;
    assert x as real * 50.0 + y as real * 50.0 == (x + y) as real * 50.0;
  }

  /** Each channel of the 50/50 blend of `#FF0000` and `#0000FF`: 255 · 50 / 100 =
      127.5 rounds up to 128 where one of the two is full; 0 elsewhere. */
  lemma RedBlueChannel(ch: Channel)
    ensures var cs := [Part(Some("#FF0000"), 50.0), Part(Some("#0000FF"), 50.0)];
      TotalPct(cs) == 100.0
      && var v := BlendChannel(cs, ch);
      v.Some? && v.value == if ch == Green then 0 else 128
  {
    RedBlueSum(ch);
    assert Round(12750.0 / 100.0) == 128 && Round(0.0 / 100.0) == 0;
  }

  /** The three channels of that blend in base 16. */
  lemma RedBlueHexes()
    ensures var cs := [Part(Some("#FF0000"), 50.0), Part(Some("#0000FF"), 50.0)];
      TotalPct(cs) != 0.0
      && ChannelHex(BlendChannel(cs, Red)) == "80"
      && ChannelHex(BlendChannel(cs, Green)) == "00"
      && ChannelHex(BlendChannel(cs, Blue)) == "80"
  {
    RedBlueChannel(Red);
    RedBlueChannel(Green);
    RedBlueChannel(Blue);
    Hex2Examples();
  }

  /** The 50/50 blend of `#FF0000` and `#0000FF` is `#800080`. */
  lemma BlendRedBlue()
    ensures Blend([Part(Some("#FF0000"), 50.0), Part(Some("#0000FF"), 50.0)]) == "#800080"
  {
    RedBlueHexes();
    PurpleDigits();
  }

  lemma PurpleDigits()
    ensures "#" + "80" + "00" + "80" == "#800080"
  {
  }

  lemma Hex2Examples()
    ensures Hex2(128) == "80" && Hex2(0) == "00"
  {
    assert ToHexString(8) == "8";
    assert ToHexString(128) == ToHexString(8) + [HexDigitChar(0)];
  }

  // ------------------------------------------------------------------
  // PMS name of a Matsui formula description

  /** `desc.replace(seriesPrefix, "").trim()` */
  function WithoutSeries(s: string): (r: string)
    ensures Trimmed(r) && Contains(s, r)
    ensures SeriesPrefix(s).None? ==> r == Trim(s)
  {
    var a := StripSeriesPrefix(s);
    TrimInSuffix(s, a);
    Trim(a)
  }

  /** `stripped.replace(/\s+[CU]$/i, "").trim()` */
  function WithoutCoating(s: string): (r: string)
    ensures Trimmed(r) && Contains(s, r)
    ensures (forall j | 0 <= j <= |s| :: !Matches(CoatingMark, s[j..])) ==> r == Trim(s)
  {
    var b := StripSuffix(CoatingMark, s);
    TrimInPrefix(s, b);
    Trim(b)
  }

  /** `extractPmsFromDescription(desc)`, `None` standing for `null` (and for
      `undefined` as input): the series prefix is cut and the rest trimmed, then a
      trailing coating letter is cut and the rest trimmed; an empty result is `null`. */
  function ExtractPmsFromDescription(desc: Option<string>): (r: Option<string>)
    ensures desc.None? || desc == Some([]) ==> r.None?
    ensures desc.Some? && desc.value != [] ==>
      (r.None? <==> WithoutCoating(WithoutSeries(desc.value)) == [])
    ensures r.Some? ==> r.value == WithoutCoating(WithoutSeries(desc.value))
    ensures r.Some? ==> r.value != [] && Trimmed(r.value) && Contains(desc.value, r.value)
  {
    if desc.None? || desc.value == [] then None
    else
      var stripped := WithoutSeries(desc.value);
      if stripped == [] then None
      else
        var key := WithoutCoating(stripped);
        ContainsTransitive(desc.value, stripped, key);
        if key == [] then None else Some(key)
  }

  /** `t` occurs in `s` at `i`. */
  lemma ContainsAt(s: string, t: string, i: nat)
    requires i + |t| <= |s| && s[i..i + |t|] == t
    ensures Contains(s, t)
  {
    assert StartsWith(s[i..], t);
  }

  lemma ContainsSuffix(s: string, t: string)
    requires |t| <= |s| && t == s[|s| - |t|..]
    ensures Contains(s, t)
  {
    assert StartsWith(s[|s| - |t|..], t);
  }

  lemma ContainsPrefix(s: string, t: string)
    requires |t| <= |s| && t == s[..|t|]
    ensures Contains(s, t)
  {
    assert StartsWith(s[0..], t);
  }

  lemma ContainsTransitive(a: string, b: string, c: string)
    requires Contains(a, b) && Contains(b, c)
    ensures Contains(a, c)
  {
    var i :| 0 <= i <= |a| - |b| && StartsWith(a[i..], b);
    var j :| 0 <= j <= |b| - |c| && StartsWith(b[j..], c);
    forall k | 0 <= k < |c| ensures a[i + j + k] == c[k] {
      assert a[i..][..|b|][j + k] == b[j + k];
      assert b[j..][..|c|][k] == c[k];
    }
    assert a[i + j..i + j + |c|] == c;
    ContainsAt(a, c, i + j);
  }

  /** The trimmed form lies in the string. */
  lemma TrimContained(s: string)
    ensures Contains(s, Trim(s))
  {
    var t := TrimStart(s);
    var r := TrimEnd(t);
    var k := |s| - |t|;
    forall j | 0 <= j < |r| ensures s[k..k + |r|][j] == r[j] {
      assert s[k + j] == t[j] == r[j];
    }
    ContainsAt(s, r, k);
  }

  lemma TrimInSuffix(s: string, a: string)
    requires |a| <= |s| && a == s[|s| - |a|..]
    ensures Trimmed(Trim(a)) && Contains(s, Trim(a))
  {
    ContainsSuffix(s, a);
    TrimContained(a);
    ContainsTransitive(s, a, Trim(a));
    TrimIsTrimmed(a);
  }

  lemma TrimInPrefix(s: string, b: string)
    requires |b| <= |s| && b == s[..|b|]
    ensures Trimmed(Trim(b)) && Contains(s, Trim(b))
  {
    ContainsPrefix(s, b);
    TrimContained(b);
    ContainsTransitive(s, b, Trim(b));
    TrimIsTrimmed(b);
  }

  /** A PMS name followed by white space and `C`, `U`, `c` or `u` loses exactly that
      marker. */
  lemma WithoutCoatingMarker(x: string, sp: string, mark: char)
    requires x != [] && Trimmed(x) && sp != [] && AllSpace(sp)
    requires mark in "CUcu"
    ensures WithoutCoating(x + sp + [mark]) == x
  {
    var t := x + sp + [mark];
    var n := |x|;
    assert t[n..] == sp + [mark];
    MarkerMatches(sp, mark);
    NoMarkerWithin(x, t);
    StripAt(CoatingMark, t, n);
    assert t[..n] == x;
    TrimOfTrimmed(x);
  }

  /** White space and then a coating letter is a coating marker. */
  lemma MarkerMatches(sp: string, mark: char)
    requires sp != [] && AllSpace(sp) && mark in "CUcu"
    ensures Matches(CoatingMark, sp + [mark])
  {
    var u := sp + [mark];
    forall k | 0 <= k < |sp| ensures IsSpace(u[k]) { assert u[k] == sp[k]; }
    SpaceRunUpTo(u, 0, |sp|);
  }

  /** No coating marker starts inside a name that does not end in white space. */
  lemma NoMarkerWithin(x: string, t: string)
    requires x != [] && Trimmed(x) && |x| < |t| && t[..|x|] == x
    ensures forall j | 0 <= j < |x| :: !Matches(CoatingMark, t[j..])
  {
    var n := |x|;
    forall j | 0 <= j < n ensures !Matches(CoatingMark, t[j..]) {
      var u := t[j..];
      assert u[n - 1 - j] == x[n - 1];
      SpaceRunUpTo(u, 0, n - 1 - j);
    }
  }

  /** `"301 RC NEO 459 C"` and the like: a number, `RC NEO` and a name that does not
      start with white space; the prefix ends where the name starts. */
  lemma SeriesRcNeo(d: string, rest: string)
    requires d != [] && AllDigits(d) && rest != [] && !IsSpace(rest[0])
    ensures SeriesPrefix(d + " RC NEO " + rest) == Some(|d| + 8)
  {
    var t := d + " RC NEO " + rest;
    var n := |d|;
    assert t[n + 1] == 'R' && t[n + 2] == 'C' && t[n + 3] == ' ' && t[n + 4] == 'N';
    assert t[n + 5] == 'E' && t[n + 6] == 'O' && t[n + 7] == ' ' && t[n + 8] == rest[0];
    assert t[n] == ' ' && !IsSpace(t[n + 8]);
    assert DigitRun(t, 0) == n by {
      forall k | 0 <= k < n ensures IsDigit(t[k]) { assert t[k] == d[k]; }
      DigitRunUpTo(t, 0, n);
    }
    RcNeoPrefix(t, n);
  }

  /** Digits, one space, `"RC NEO "` and then no white space: the prefix ends after
      the second space. */
  lemma RcNeoPrefix(t: string, n: nat)
    requires n > 0 && n + 8 < |t| && DigitRun(t, 0) == n && t[n] == ' '
    requires t[n + 1] == 'R' && t[n + 2] == 'C' && t[n + 3] == ' ' && t[n + 4] == 'N'
    requires t[n + 5] == 'E' && t[n + 6] == 'O' && t[n + 7] == ' ' && !IsSpace(t[n + 8])
    ensures SeriesPrefix(t) == Some(n + 8)
  {
    assert SeriesStart(t) == n + 1 by { SpaceRunUpTo(t, n, n + 1); }
    RcNeoName(t, n + 1);
    assert SpaceRun(t, n + 7) == 1 by { SpaceRunUpTo(t, n + 7, n + 8); }
  }

  /** `"RC NEO "` at `j` is a series name that ends after `NEO`. */
  lemma RcNeoName(t: string, j: nat)
    requires j + 7 <= |t| && t[j] == 'R' && t[j + 1] == 'C' && t[j + 2] == ' '
    requires t[j + 3] == 'N' && t[j + 4] == 'E' && t[j + 5] == 'O' && t[j + 6] == ' '
    ensures SeriesName(t, j) == Some(j + 6)
  {
    WordLiteral(t, j, "RC");
    SpaceRunUpTo(t, j + 2, j + 3);
    WordLiteral(t, j + 3, "NEO");
  }

  /** After a number and `RC NEO` the rest, when trimmed, is what remains. */
  lemma WithoutRcNeo(d: string, rest: string)
    requires d != [] && AllDigits(d) && rest != [] && Trimmed(rest)
    ensures WithoutSeries(d + " RC NEO " + rest) == rest
  {
    var t := d + " RC NEO " + rest;
    SeriesRcNeo(d, rest);
    assert t[|d| + 8..] == rest;
    TrimOfTrimmed(rest);
  }

  lemma TrimmedMarked(x: string, mark: char)
    requires x != [] && Trimmed(x) && mark in "CUcu"
    ensures Trimmed(x + " " + [mark])
  {
    var rest := x + " " + [mark];
    assert rest[0] == x[0] && rest[|rest| - 1] == mark;
  }

  /** `extractPmsFromDescription("301 RC NEO 459 C")` is `"459"`, and likewise for any
      number, any PMS name and either coating letter. */
  lemma {:induction false} ExtractRcNeo(d: string, x: string, mark: char)
    requires d != [] && AllDigits(d) && x != [] && Trimmed(x) && mark in "CUcu"
    ensures ExtractPmsFromDescription(Some(d + " RC NEO " + x + " " + [mark])) == Some(x)
  {
    var rest := x + " " + [mark];
    var t := d + " RC NEO " + x + " " + [mark];
    assert t == d + " RC NEO " + rest;
    assert WithoutCoating(rest) == x by {
      assert AllSpace(" ");
      WithoutCoatingMarker(x, " ", mark);
    }
    TrimmedMarked(x, mark);
    WithoutRcNeo(d, rest);
    ExtractOfStages(t, rest, x);
  }

  lemma ExtractOfStages(s: string, rest: string, x: string)
    requires s != [] && WithoutSeries(s) == rest && rest != [] && WithoutCoating(rest) == x && x != []
    ensures ExtractPmsFromDescription(Some(s)) == Some(x)
  {
  }

  /** A description that is nothing but a series prefix (`"301 RC NEO"`, `"HM "`)
      has no PMS name. */
  lemma ExtractSeriesOnly(s: string)
    requires s != [] && SeriesPrefix(s) == Some(|s|)
    ensures ExtractPmsFromDescription(Some(s)) == None
  {
    assert StripSeriesPrefix(s) == [];
    assert WithoutSeries(s) == [];
  }

  /** A lone coating letter right after the series prefix is not cut, since the
      marker pattern wants white space before it: `"ALPHA DISCHARGE C"` gives `"C"`. */
  lemma ExtractLoneMark(s: string, mark: char)
    requires |s| >= 2 && SeriesPrefix(s) == Some(|s| - 1) && s[|s| - 1] == mark && !IsSpace(mark)
    ensures ExtractPmsFromDescription(Some(s)) == Some([mark])
  {
    SeriesThenLone(s, mark);
    LoneCharNoMarker(mark);
  }

  lemma SeriesThenLone(s: string, mark: char)
    requires |s| >= 2 && SeriesPrefix(s) == Some(|s| - 1) && s[|s| - 1] == mark && !IsSpace(mark)
    ensures WithoutSeries(s) == [mark]
  {
    assert StripSeriesPrefix(s) == [mark];
    TrimOfTrimmed([mark]);
  }

  /** One character that is not white space carries no coating marker. */
  lemma LoneCharNoMarker(c: char)
    requires !IsSpace(c)
    ensures WithoutCoating([c]) == [c]
  {
    assert [c][1..] == [];
    assert [c][0..] == [c];
    assert forall j | 0 <= j <= 1 :: !Matches(CoatingMark, [c][j..]);
    TrimOfTrimmed([c]);
  }

  /** `"ALPHA DISCHARGE C"`: the series prefix and a lone `C`. */
  lemma ExtractAlphaDischargeMark()
    ensures ExtractPmsFromDescription(Some("ALPHA DISCHARGE C")) == Some("C")
  {
    var t := "ALPHA DISCHARGE C";
    assert t == "ALPHA DISCHARGE " + "C";
    SeriesAlphaDischarge("C");
    ExtractLoneMark(t, 'C');
  }

  /** `"ALPHA DISCHARGE …"`: the optional `DISCHARGE` is part of the prefix. */
  lemma SeriesAlphaDischarge(rest: string)
    requires rest != [] && !IsSpace(rest[0])
    ensures SeriesPrefix("ALPHA DISCHARGE " + rest) == Some(16)
  {
    var t := "ALPHA DISCHARGE " + rest;
    assert t[0] == 'A' && t[1] == 'L' && t[2] == 'P' && t[3] == 'H' && t[4] == 'A' && t[5] == ' ';
    assert t[6] == 'D' && t[7] == 'I' && t[8] == 'S' && t[9] == 'C' && t[10] == 'H';
    assert t[11] == 'A' && t[12] == 'R' && t[13] == 'G' && t[14] == 'E' && t[15] == ' ' && !IsSpace(t[16]);
    AlphaDischargePrefix(t);
  }

  /** `"ALPHA DISCHARGE "` and then no white space: the prefix ends after the space. */
  lemma AlphaDischargePrefix(t: string)
    requires |t| > 16 && t[0] == 'A' && t[1] == 'L' && t[2] == 'P' && t[3] == 'H' && t[4] == 'A' && t[5] == ' '
    requires t[6] == 'D' && t[7] == 'I' && t[8] == 'S' && t[9] == 'C' && t[10] == 'H'
    requires t[11] == 'A' && t[12] == 'R' && t[13] == 'G' && t[14] == 'E' && t[15] == ' ' && !IsSpace(t[16])
    ensures SeriesPrefix(t) == Some(16)
  {
    assert SeriesStart(t) == 0 by {
      DigitRunUpTo(t, 0, 0);
    }
    AlphaDischargeName(t);
    assert SpaceRun(t, 15) == 1 by { SpaceRunUpTo(t, 15, 16); }
  }

  /** `"ALPHA DISCHARGE "` at the start is a series name that ends after `DISCHARGE`. */
  lemma AlphaDischargeName(t: string)
    requires |t| >= 16 && t[0] == 'A' && t[1] == 'L' && t[2] == 'P' && t[3] == 'H' && t[4] == 'A' && t[5] == ' '
    requires t[6] == 'D' && t[7] == 'I' && t[8] == 'S' && t[9] == 'C' && t[10] == 'H'
    requires t[11] == 'A' && t[12] == 'R' && t[13] == 'G' && t[14] == 'E' && t[15] == ' '
    ensures SeriesName(t, 0) == Some(15)
  {
    assert !WordAt(t, 0, "RC") by {
      assert Upper(t[0..2])[0] == UpperChar(t[0]);
    }
    WordLiteral(t, 0, "ALPHA");
    SpaceRunUpTo(t, 5, 6);
    WordLiteral(t, 6, "DISCHARGE");
  }

  /** `extractPmsFromDescription("ALPHA DISCHARGE RED C")` is `"RED"`, and likewise
      for any PMS name and either coating letter. */
  lemma ExtractAlphaDischarge(x: string, mark: char)
    requires x != [] && Trimmed(x) && mark in "CUcu"
    ensures ExtractPmsFromDescription(Some("ALPHA DISCHARGE " + x + " " + [mark])) == Some(x)
  {
    var rest := x + " " + [mark];
    var t := "ALPHA DISCHARGE " + x + " " + [mark];
    assert t == "ALPHA DISCHARGE " + rest;
    assert WithoutCoating(rest) == x by {
      assert AllSpace(" ");
      WithoutCoatingMarker(x, " ", mark);
    }
    TrimmedMarked(x, mark);
    assert WithoutSeries(t) == rest by {
      SeriesAlphaDischarge(rest);
      assert t[16..] == rest;
      TrimOfTrimmed(rest);
    }
    ExtractOfStages(t, rest, x);
  }
}
