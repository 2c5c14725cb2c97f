/** The client-side matcher over the bundled sample table
    (`src/app/data/pmsColors.ts`): a strict regex-gated hex parser, a distance that
    is infinite when either side does not parse, and filter, score, stable sort and
    slice over fresh arrays. */
module PmsColors {
  import opened Wrappers
  import opened JsText
  import opened Lists
  import opened StableSort
  import opened ServerColor

  /** `PMSColor` */
  datatype PmsColor = PmsColor(pms: string, series: string, hex: string, name: string, notes: string)

  /** `pmsColors`, the bundled sample table, in its order. */
  const Table: seq<PmsColor> := [
    PmsColor("100", "C", "#F6EB61", "Process Yellow C", "Pantone Formula Guide"),
    PmsColor("101", "C", "#F7ED4E", "Vibrant Yellow C", "Pantone Formula Guide"),
    PmsColor("102", "C", "#FFEC00", "Bright Yellow C", "Pantone Formula Guide"),
    PmsColor("107", "C", "#FFC627", "Golden Yellow C", "Pantone Formula Guide"),
    PmsColor("108", "C", "#FDDA24", "Marigold C", "Pantone Formula Guide"),
    PmsColor("109", "C", "#FFD700", "Golden Rod C", "Pantone Formula Guide"),
    PmsColor("116", "C", "#FFB81C", "Sports Gold C", "Pantone Formula Guide"),
    PmsColor("123", "C", "#FFC72C", "Bright Orange C", "Pantone Formula Guide"),
    PmsColor("137", "C", "#FF8200", "Bright Orange C", "Pantone Formula Guide"),
    PmsColor("144", "C", "#FF9E1B", "Tangerine C", "Pantone Formula Guide"),
    PmsColor("151", "C", "#FF6A13", "Pumpkin C", "Pantone Formula Guide"),
    PmsColor("158", "C", "#FF6A00", "Safety Orange C", "Pantone Formula Guide"),
    PmsColor("165", "C", "#FF5F00", "Tiger Orange C", "Pantone Formula Guide"),
    PmsColor("172", "C", "#FA4616", "Bright Red-Orange C", "Pantone Formula Guide"),
    PmsColor("179", "C", "#E03C31", "Flame C", "Pantone Formula Guide"),
    PmsColor("185", "C", "#E4002B", "Scarlet C", "Pantone Formula Guide"),
    PmsColor("186", "C", "#C8102E", "Red C", "Pantone Formula Guide"),
    PmsColor("187", "C", "#A6192E", "Crimson C", "Pantone Formula Guide"),
    PmsColor("193", "C", "#BF0D3E", "Ruby Red C", "Pantone Formula Guide"),
    PmsColor("200", "C", "#BA0C2F", "Cardinal C", "Pantone Formula Guide"),
    PmsColor("207", "C", "#A51890", "Magenta C", "Pantone Formula Guide"),
    PmsColor("214", "C", "#CF0072", "Cerise C", "Pantone Formula Guide"),
    PmsColor("225", "C", "#F993BC", "Carnation Pink C", "Pantone Formula Guide"),
    PmsColor("226", "C", "#F94A8D", "Hot Pink C", "Pantone Formula Guide"),
    PmsColor("233", "C", "#C724B1", "Purple C", "Pantone Formula Guide"),
    PmsColor("241", "C", "#C724B1", "Bright Violet C", "Pantone Formula Guide"),
    PmsColor("248", "C", "#CE0F69", "Fuchsia C", "Pantone Formula Guide"),
    PmsColor("253", "C", "#8C2F8A", "Violet C", "Pantone Formula Guide"),
    PmsColor("258", "C", "#5F259F", "Royal Purple C", "Pantone Formula Guide"),
    PmsColor("265", "C", "#3E2B85", "Deep Purple C", "Pantone Formula Guide"),
    PmsColor("272", "C", "#582C83", "Plum C", "Pantone Formula Guide"),
    PmsColor("279", "C", "#418FDE", "Sky Blue C", "Pantone Formula Guide"),
    PmsColor("280", "C", "#012169", "Navy Blue C", "Pantone Formula Guide"),
    PmsColor("285", "C", "#0072CE", "Reflex Blue C", "Pantone Formula Guide"),
    PmsColor("286", "C", "#0033A0", "Royal Blue C", "Pantone Formula Guide"),
    PmsColor("287", "C", "#003087", "Dark Blue C", "Pantone Formula Guide"),
    PmsColor("293", "C", "#003DA5", "Medium Blue C", "Pantone Formula Guide"),
    PmsColor("294", "C", "#002F6C", "Sapphire C", "Pantone Formula Guide"),
    PmsColor("300", "C", "#005EB8", "Cobalt Blue C", "Pantone Formula Guide"),
    PmsColor("301", "C", "#004B87", "Ocean Blue C", "Pantone Formula Guide"),
    PmsColor("307", "C", "#006BA6", "Cerulean C", "Pantone Formula Guide"),
    PmsColor("312", "C", "#00B5E2", "Cyan C", "Pantone Formula Guide"),
    PmsColor("313", "C", "#00A9CE", "Turquoise C", "Pantone Formula Guide"),
    PmsColor("320", "C", "#009CA6", "Teal C", "Pantone Formula Guide"),
    PmsColor("321", "C", "#008C95", "Deep Teal C", "Pantone Formula Guide"),
    PmsColor("327", "C", "#00ADC6", "Aqua C", "Pantone Formula Guide"),
    PmsColor("333", "C", "#3EB1C8", "Sea Blue C", "Pantone Formula Guide"),
    PmsColor("334", "C", "#009EAB", "Tropical C", "Pantone Formula Guide"),
    PmsColor("340", "C", "#00A499", "Jade C", "Pantone Formula Guide"),
    PmsColor("341", "C", "#00B388", "Emerald C", "Pantone Formula Guide"),
    PmsColor("347", "C", "#009A44", "Kelly Green C", "Pantone Formula Guide"),
    PmsColor("348", "C", "#00843D", "Shamrock C", "Pantone Formula Guide"),
    PmsColor("354", "C", "#009639", "Grass Green C", "Pantone Formula Guide"),
    PmsColor("355", "C", "#009B3A", "Forest Green C", "Pantone Formula Guide"),
    PmsColor("361", "C", "#43B02A", "Spring Green C", "Pantone Formula Guide"),
    PmsColor("362", "C", "#7AB800", "Lime Green C", "Pantone Formula Guide"),
    PmsColor("368", "C", "#78BE20", "Bright Green C", "Pantone Formula Guide"),
    PmsColor("369", "C", "#64A70B", "Vivid Green C", "Pantone Formula Guide"),
    PmsColor("375", "C", "#97D700", "Electric Green C", "Pantone Formula Guide"),
    PmsColor("376", "C", "#84BD00", "Vibrant Green C", "Pantone Formula Guide"),
    PmsColor("390", "C", "#ADBB39", "Chartreuse C", "Pantone Formula Guide"),
    PmsColor("396", "C", "#D0DF00", "Yellow-Green C", "Pantone Formula Guide"),
    PmsColor("397", "C", "#BACD40", "Citrus C", "Pantone Formula Guide"),
    PmsColor("410", "C", "#BBBCBC", "Cool Gray 6 C", "Pantone Formula Guide"),
    PmsColor("420", "C", "#A7A8AA", "Cool Gray 8 C", "Pantone Formula Guide"),
    PmsColor("430", "C", "#7C878E", "Cool Gray 10 C", "Pantone Formula Guide"),
    PmsColor("440", "C", "#5B6770", "Cool Gray 11 C", "Pantone Formula Guide"),
    PmsColor("462", "C", "#8E7E6A", "Warm Gray 9 C", "Pantone Formula Guide"),
    PmsColor("463", "C", "#7A6855", "Warm Gray 10 C", "Pantone Formula Guide"),
    PmsColor("464", "C", "#6B5C52", "Warm Gray 11 C", "Pantone Formula Guide"),
    PmsColor("485", "C", "#DA291C", "Signal Red C", "Pantone Formula Guide"),
    PmsColor("492", "C", "#7C2529", "Burgundy C", "Pantone Formula Guide"),
    PmsColor("493", "C", "#6A252B", "Maroon C", "Pantone Formula Guide"),
    PmsColor("500", "C", "#004F59", "Dark Teal C", "Pantone Formula Guide"),
    PmsColor("541", "C", "#003C71", "Imperial Blue C", "Pantone Formula Guide"),
    PmsColor("542", "C", "#A0DCEA", "Powder Blue C", "Pantone Formula Guide"),
    PmsColor("5405", "C", "#008C95", "Peacock C", "Pantone Formula Guide"),
    PmsColor("5493", "C", "#00B2A9", "Turquoise Blue C", "Pantone Formula Guide"),
    PmsColor("5498", "C", "#00B7BD", "Bright Turquoise C", "Pantone Formula Guide"),
    PmsColor("5503", "C", "#00A78E", "Tropical Green C", "Pantone Formula Guide"),
    PmsColor("5517", "C", "#00C389", "Mint C", "Pantone Formula Guide"),
    PmsColor("5535", "C", "#00B140", "Irish Green C", "Pantone Formula Guide"),
    PmsColor("5757", "C", "#0E4C3D", "Hunter Green C", "Pantone Formula Guide"),
    PmsColor("5763", "C", "#0D5257", "Pine Green C", "Pantone Formula Guide"),
    PmsColor("662", "C", "#582C83", "Grape C", "Pantone Formula Guide"),
    PmsColor("663", "C", "#AB92BF", "Lavender C", "Pantone Formula Guide"),
    PmsColor("667", "C", "#CEB3D4", "Lilac C", "Pantone Formula Guide"),
    PmsColor("710", "C", "#FF6900", "Persimmon C", "Pantone Formula Guide"),
    PmsColor("711", "C", "#FF8200", "Pumpkin C", "Pantone Formula Guide"),
    PmsColor("712", "C", "#FFD100", "Sunflower C", "Pantone Formula Guide"),
    PmsColor("801", "C", "#009DD9", "Process Cyan C", "Pantone Formula Guide"),
    PmsColor("802", "C", "#44D62C", "Process Green C", "Pantone Formula Guide"),
    PmsColor("803", "C", "#FFD100", "Process Yellow C", "Pantone Formula Guide"),
    PmsColor("804", "C", "#FF6A13", "Process Orange C", "Pantone Formula Guide"),
    PmsColor("805", "C", "#E4002B", "Process Magenta C", "Pantone Formula Guide"),
    PmsColor("806", "C", "#FF1493", "Process Pink C", "Pantone Formula Guide"),
    PmsColor("807", "C", "#00B5E2", "Process Blue C", "Pantone Formula Guide"),
    PmsColor("Black", "C", "#2D2926", "Black C", "Pantone Formula Guide"),
    PmsColor("100", "U", "#F4E287", "Process Yellow U", "Pantone Formula Guide"),
    PmsColor("101", "U", "#F5E56B", "Vibrant Yellow U", "Pantone Formula Guide"),
    PmsColor("107", "U", "#FBBC58", "Golden Yellow U", "Pantone Formula Guide"),
    PmsColor("108", "U", "#F7CF47", "Marigold U", "Pantone Formula Guide"),
    PmsColor("116", "U", "#F7A738", "Sports Gold U", "Pantone Formula Guide"),
    PmsColor("123", "U", "#F7B547", "Bright Orange U", "Pantone Formula Guide"),
    PmsColor("151", "U", "#F26C3D", "Pumpkin U", "Pantone Formula Guide"),
    PmsColor("158", "U", "#F26522", "Safety Orange U", "Pantone Formula Guide"),
    PmsColor("165", "U", "#F15F29", "Tiger Orange U", "Pantone Formula Guide"),
    PmsColor("172", "U", "#E84E3D", "Bright Red-Orange U", "Pantone Formula Guide"),
    PmsColor("185", "U", "#DD4B4A", "Scarlet U", "Pantone Formula Guide"),
    PmsColor("186", "U", "#C63952", "Red U", "Pantone Formula Guide"),
    PmsColor("193", "U", "#BC3F63", "Ruby Red U", "Pantone Formula Guide"),
    PmsColor("200", "U", "#B54357", "Cardinal U", "Pantone Formula Guide"),
    PmsColor("207", "U", "#A04A95", "Magenta U", "Pantone Formula Guide"),
    PmsColor("214", "U", "#C94A82", "Cerise U", "Pantone Formula Guide"),
    PmsColor("233", "U", "#BC5BB4", "Purple U", "Pantone Formula Guide"),
    PmsColor("253", "U", "#8A5593", "Violet U", "Pantone Formula Guide"),
    PmsColor("258", "U", "#6E54A3", "Royal Purple U", "Pantone Formula Guide"),
    PmsColor("265", "U", "#534F8F", "Deep Purple U", "Pantone Formula Guide"),
    PmsColor("272", "U", "#6A5494", "Plum U", "Pantone Formula Guide"),
    PmsColor("279", "U", "#6492C6", "Sky Blue U", "Pantone Formula Guide"),
    PmsColor("280", "U", "#2F4F7F", "Navy Blue U", "Pantone Formula Guide"),
    PmsColor("285", "U", "#3D7DC1", "Reflex Blue U", "Pantone Formula Guide"),
    PmsColor("286", "U", "#2E5FA8", "Royal Blue U", "Pantone Formula Guide"),
    PmsColor("287", "U", "#26539A", "Dark Blue U", "Pantone Formula Guide"),
    PmsColor("300", "U", "#3773B8", "Cobalt Blue U", "Pantone Formula Guide"),
    PmsColor("301", "U", "#2D6099", "Ocean Blue U", "Pantone Formula Guide"),
    PmsColor("312", "U", "#4EADD3", "Cyan U", "Pantone Formula Guide"),
    PmsColor("313", "U", "#4FA4C4", "Turquoise U", "Pantone Formula Guide"),
    PmsColor("320", "U", "#3D9BA7", "Teal U", "Pantone Formula Guide"),
    PmsColor("321", "U", "#3A898F", "Deep Teal U", "Pantone Formula Guide"),
    PmsColor("327", "U", "#42A6BB", "Aqua U", "Pantone Formula Guide"),
    PmsColor("340", "U", "#389F96", "Jade U", "Pantone Formula Guide"),
    PmsColor("347", "U", "#3D9164", "Kelly Green U", "Pantone Formula Guide"),
    PmsColor("348", "U", "#377F5F", "Shamrock U", "Pantone Formula Guide"),
    PmsColor("354", "U", "#3D8E5A", "Grass Green U", "Pantone Formula Guide"),
    PmsColor("355", "U", "#3E8E58", "Forest Green U", "Pantone Formula Guide"),
    PmsColor("361", "U", "#6AA84F", "Spring Green U", "Pantone Formula Guide"),
    PmsColor("368", "U", "#85B845", "Bright Green U", "Pantone Formula Guide"),
    PmsColor("375", "U", "#A0CE4E", "Electric Green U", "Pantone Formula Guide"),
    PmsColor("376", "U", "#93B746", "Vibrant Green U", "Pantone Formula Guide"),
    PmsColor("485", "U", "#D24C44", "Signal Red U", "Pantone Formula Guide"),
    PmsColor("492", "U", "#7A4049", "Burgundy U", "Pantone Formula Guide"),
    PmsColor("Black", "U", "#413F42", "Black U", "Pantone Formula Guide")
  ]

  /** `hexToRgb(hex)`: `/^#?([a-f\d]{2})([a-f\d]{2})([a-f\d]{2})$/i`, so exactly six hex
      digits with an optional `#` and nothing around them; each pair read in base 16. */
  function HexToRgb(hex: string): (c: Option<Rgb>)
    ensures c.Some? <==> HexGroup(hex).Some?
    ensures c.Some? ==> InByteRange(c.value)
    ensures c.Some? ==> var g := HexGroup(hex).value;
      c.value == Rgb(DigitsValue(g[0..2], true), DigitsValue(g[2..4], true), DigitsValue(g[4..6], true))
  {
    match HexGroup(hex)
    case None => None
    case Some(g) =>
      var h := "#" + g;
      assert h[1..3] == g[0..2] && h[3..5] == g[2..4] && h[5..7] == g[4..6];
      assert h[1..] == g;
      Some(ServerColor.HexToRgb(h))
  }

  /** The pattern matches exactly six hex digits, with or without a leading `#`. */
  lemma HexToRgbAccepts(hex: string)
    ensures HexToRgb(hex).Some? <==>
      (|hex| == 6 && AllHex(hex)) || (|hex| == 7 && hex[0] == '#' && AllHex(hex[1..]))
  {
  }

  /** A distance as `calculateDistance` returns it: the square root of `sq`, or
      `Infinity`. The square root is monotone, so the order of `sq` is the order of
      the distance. */
  datatype Distance = Finite(sq: nat) | Infinite

  /** `calculateDistance(hex1, hex2)` */
  function CalculateDistance(hex1: string, hex2: string): (d: Distance)
    ensures d.Infinite? <==> HexToRgb(hex1).None? || HexToRgb(hex2).None?
  {
    match (HexToRgb(hex1), HexToRgb(hex2))
    case (Some(a), Some(b)) => Finite(DistanceSq(a, b))
    case _ => Infinite
  }

  /** Zero from a parsable hex to itself, and the same both ways. */
  lemma CalculateDistanceFacts(hex1: string, hex2: string)
    ensures HexToRgb(hex1).Some? ==> CalculateDistance(hex1, hex1) == Finite(0)
    ensures CalculateDistance(hex1, hex2) == CalculateDistance(hex2, hex1)
  {
    if HexToRgb(hex1).Some? && HexToRgb(hex2).Some? {
      DistanceSqSymmetric(HexToRgb(hex1).value, HexToRgb(hex2).value);
    }
  }

  /** `a.distance - b.distance <= 0`: `Infinity - Infinity` is `NaN`, which the sort
      takes as a tie; a finite distance sorts before an infinite one. */
  predicate DistanceLe(a: Distance, b: Distance) {
    b.Infinite? || (a.Finite? && a.sq <= b.sq)
  }

  /** `{ ...color, distance }` */
  datatype Match = Match(color: PmsColor, distance: Distance)

  predicate ByDistance(a: Match, b: Match) { DistanceLe(a.distance, b.distance) }

  lemma ByDistancePreorder()
    ensures TotalPreorder(ByDistance)
  {
  }

  /** The series filter: `'Coated (C)'` and `'Uncoated (U)'` keep one series, any
      other value keeps the whole table. */
  function Pool(table: seq<PmsColor>, series: string): (pool: seq<PmsColor>)
    ensures series != "Coated (C)" && series != "Uncoated (U)" ==> pool == table
    ensures Subsequence(pool, table)
  {
    if series == "Coated (C)" || series == "Uncoated (U)" then
      var keep := SeriesIs(if series == "Coated (C)" then "C" else "U");
      FilterSubsequence(table, keep);
      Filter(table, keep)
    else
      SubsequenceRefl(table);
      table
  }

  function SeriesIs(code: string): PmsColor -> bool {
    (c: PmsColor) => c.series == code
  }

  /** The coated and uncoated filters keep exactly the swatches of their series. */
  lemma PoolOfSeries(table: seq<PmsColor>, series: string, code: string)
    requires (series == "Coated (C)" && code == "C") || (series == "Uncoated (U)" && code == "U")
    ensures forall i | 0 <= i < |Pool(table, series)| :: Pool(table, series)[i].series == code
    ensures forall i | 0 <= i < |table| && table[i].series == code :: table[i] in Pool(table, series)
  {
  }

  function Annotate(inputHex: string, c: PmsColor): Match {
    Match(c, CalculateDistance(inputHex, c.hex))
  }

  /** `filteredColors.map(color => ({ ...color, distance }))` */
  function Scored(pool: seq<PmsColor>, inputHex: string): (r: seq<Match>)
    ensures |r| == |pool| && forall i | 0 <= i < |pool| :: r[i] == Annotate(inputHex, pool[i])
  {
    Map(pool, (c: PmsColor) => Annotate(inputHex, c))
  }

  /** `findClosestMatches(inputHex, series, limit)` over a table. */
  function ClosestIn(table: seq<PmsColor>, inputHex: string, series: string, limit: int): seq<Match> {
    TopK(Scored(Pool(table, series), inputHex), ByDistance, limit)
  }

  /** `findClosestMatches(inputHex, series, limit)` over the bundled table. */
  function FindClosestMatches(inputHex: string, series: string, limit: int): (r: seq<Match>)
    ensures var pool := Pool(Table, series);
      && (0 <= limit ==> |r| == Min(limit, |pool|))
      && Sorted(r, ByDistance)
      && (forall k | 0 <= k < |r| :: r[k].color in pool && r[k] == Annotate(inputHex, r[k].color))
  {
    ClosestFacts(Table, inputHex, series, limit);
    ClosestIn(Table, inputHex, series, limit)
  }

  /** The result has `min(limit, |pool|)` entries in ascending distance, each a swatch of
      the pool with its distance, and no swatch left out is nearer than one kept. */
  lemma {:induction false} ClosestFacts(table: seq<PmsColor>, inputHex: string, series: string, limit: int)
    ensures var r, pool := ClosestIn(table, inputHex, series, limit), Pool(table, series);
      && (0 <= limit ==> |r| == Min(limit, |pool|))
      && Sorted(r, ByDistance)
      && (forall k | 0 <= k < |r| :: r[k].color in pool && r[k] == Annotate(inputHex, r[k].color))
  {
    var pool := Pool(table, series);
    var scored := Scored(pool, inputHex);
    var r := ClosestIn(table, inputHex, series, limit);
    ByDistancePreorder();
    TopKOrdered(scored, ByDistance, limit);
    forall k | 0 <= k < |r| ensures r[k].color in pool && r[k] == Annotate(inputHex, r[k].color) {
      assert r[k] in multiset(scored);
      var j :| 0 <= j < |scored| && scored[j] == r[k];
    }
  }

  /** No swatch of the pool that was left out is nearer than a kept one. */
  lemma {:induction false} ClosestNearest(table: seq<PmsColor>, inputHex: string, series: string, limit: int)
    ensures forall x, y | x in ClosestIn(table, inputHex, series, limit)
                          && y in multiset(Scored(Pool(table, series), inputHex)) - multiset(ClosestIn(table, inputHex, series, limit)) ::
              DistanceLe(x.distance, y.distance)
  {
    TopKNearest(Scored(Pool(table, series), inputHex), limit);
  }

  lemma TopKNearest(scored: seq<Match>, limit: int)
    ensures forall x, y | x in TopK(scored, ByDistance, limit) && y in multiset(scored) - multiset(TopK(scored, ByDistance, limit)) ::
              DistanceLe(x.distance, y.distance)
  {
    ByDistancePreorder();
    TopKOrdered(scored, ByDistance, limit);
  }

  /** An input that does not parse puts every swatch at `Infinity`: all tie, so the
      result is the pool's first `limit` swatches in table order. */
  lemma {:induction false} ClosestUnparsable(table: seq<PmsColor>, inputHex: string, series: string, limit: int)
    requires HexToRgb(inputHex).None?
    ensures ClosestIn(table, inputHex, series, limit)
         == Slice(Scored(Pool(table, series), inputHex), limit)
  {
    var scored := Scored(Pool(table, series), inputHex);
    SortAllTied(scored);
  }

  /** A list whose entries all tie is its own stable sort. */
  lemma {:induction false} SortAllTied(s: seq<Match>)
    requires forall i | 0 <= i < |s| :: s[i].distance.Infinite?
    ensures Sort(s, ByDistance) == s
  {
    if s != [] {
      SortAllTied(s[1..]);
      assert Sort(s[1..], ByDistance) == s[1..];
      if |s| > 1 {
        assert ByDistance(s[0], s[1]);
      }
      assert Insert(s[0], s[1..], ByDistance) == s;
    }
  }
}
