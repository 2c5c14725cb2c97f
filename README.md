# PMS finder: a verified model of the colour core

This project models, in Dafny, the colour logic of the PMS finder: the server that
matches a hex colour against Pantone, Matsui, GG Fusion, FN-INK and ICC catalogues,
the batch scripts that build and check those catalogues, and the parts of the browser
app that hold state (the hex input field, the sample PMS table, the saved mixing
cards). One module per source file; shared modules hold the JavaScript primitives
the source relies on:

- `JsonValue`: parsed JSON values with property reads and truthiness.
- `JsText`: trimming, ASCII case mapping, `parseInt`, `toString(16)`, `parseFloat`, rounding, code-unit order.
- `Patterns`: the anchored regular expressions, written out as functions.
- `Lists`: `filter`, `map`, subsequences.
- `StableSort`: `Array.prototype.sort` as a stable insertion sort.
- `Ranking`: the rounded distance the match routes sort on.
- `TtlCache`: the ten-minute cache of the vendor clients.

State that the source updates in place is a class:
- the swatch store of the matcher;
- the Matsui and ICC catalogue caches;
- the three vendor clients;
- the validation script's globals;
- the hex input field;
- the saved-card list.

Loops keep their loops, proved against specification functions. File contents,
HTTP responses, the clock and random identifiers are parameters.

## Model

| member | source | states |
|---|---|---|
| ServerColor.HexGroup | server/color.js:6 | the pattern matches exactly six hex digits or `#` and six; the group is the last six characters |
| ServerColor.NormalizeHex | server/color.js:9-13 | a result exactly when the trimmed input matches; it is `#` plus the six digits upper-cased |
| ServerColor.NormalizeHexAccepts | server/color.js:6-11 | accepted if and only if the trimmed input is six hex digits with an optional `#` |
| ServerColor.NormalizeHexOfNormal | server/color.js:9-13 | a normalised hex normalises to itself |
| ServerColor.NormalizeHexIdempotent | server/color.js:9-13 | normalising a result again returns it unchanged |
| ServerColor.NormalizeHexVia | server/color.js:10-12 | the result computed from a known trimmed form of the input |
| ServerColor.NormalizeHexRejectsLength | server/color.js:10-11 | a trimmed input of length other than 6 or 7 (3-digit, 7-digit, empty, `"null"`, `"undefined"`) is rejected |
| ServerColor.NormalizeHexRejectsShort | server/color.js:10-11 | `#FFF` is rejected |
| ServerColor.NormalizeHexRejectsNullText | server/color.js:10-11 | `String(null)` is rejected |
| ServerColor.NormalizeHexRejectsNonHex | server/color.js:10-11 | non-hex digits are rejected |
| ServerColor.NormalizeHexIgnoresSpace | server/color.js:10 | surrounding white space does not change the result |
| ServerColor.NormalizeHexPadded | server/color.js:10-12 | a normalised hex padded with white space normalises to itself |
| ServerColor.NormalizeHexBare | server/color.js:9-13 | six hex digits without `#` are accepted, upper-cased and given a leading `#` |
| ServerColor.NormalizeHexLowerExample | server/color.js:12 | `ff0000` gives `#FF0000` |
| ServerColor.HexToRgb | server/color.js:16-23 | on `#` and six hex digits each channel is the base-16 value of its digit pair, in 0..255 |
| ServerColor.ChannelPair | server/color.js:17-21 | `parseInt(h.substring(k-1, k+1), 16)` reads exactly the k-th digit pair |
| ServerColor.HexToRgbExample | server/color.js:16-23 | `#FF0000` gives (255, 0, 0) |
| ServerColor.DistanceSq | server/color.js:26-32 | the squared distance is 0 exactly for equal colours |
| ServerColor.DistanceSqSymmetric | server/color.js:26-32 | the distance is the same both ways |
| ServerColor.DistanceSqMax | server/color.js:25-32 | no two colours are further apart than black and white, 195075 squared |
| HexInput.Effect | src/app/hooks/useHexInput.ts:10-23 | valid exactly when the trimmed input is empty or matches the 3-or-6-digit pattern; empty gives `#FF6A00`, invalid keeps the previous preview, valid previews the input with `#` |
| HexInput.NormalizedHexOf | src/app/hooks/useHexInput.ts:25-28 | the trimmed input, with `#` added when missing, always starting with `#` |
| HexInput.EffectKeepsPreview | src/app/hooks/useHexInput.ts:10-23 | the preview is always a `#` string |
| HexInput.ValidPreviewDigits | src/app/hooks/useHexInput.ts:17-19 | a valid non-empty input previews `#` and the 3 or 6 digits typed |
| HexInput.HexField.constructor | src/app/hooks/useHexInput.ts:5-8 | the input starts as given or empty, and the view is what the effect computes from the default preview |
| HexInput.HexField.Refresh | src/app/hooks/useHexInput.ts:10-23 | the effect replaces preview and validity by `Effect` of the input and the old preview |
| HexInput.HexField.SetHexInput | src/app/hooks/useHexInput.ts:6-23 | setting the input and running the effect |
| HexInput.ServerAcceptedIsValid | src/app/hooks/useHexInput.ts:3 | every input the server's `normalizeHex` accepts is valid here |
| HexInput.ThreeDigitsOnlyHere | src/app/hooks/useHexInput.ts:3 | `F0A` is valid here and rejected by the server: the converse fails |
| ColorMath.SixDigits | src/app/utils/colorMath.ts:2 | on six hex digits, `#` optional, removing the first `#` leaves exactly the six digits |
| ColorMath.PairOfSix | src/app/utils/colorMath.ts:4-6 | `parseInt(h.substring(k, k + 2), 16)` on six hex digits reads the digit pair's value |
| ColorMath.HexToRgbSixDigits | src/app/utils/colorMath.ts:1-8 | on six hex digits every channel is defined and is the base-16 value of its pair, in 0..255 |
| ColorMath.HexFieldPastEnd | src/app/utils/colorMath.ts:4-6 | a field starting at or past the end reads NaN |
| ColorMath.HexFieldLastDigit | src/app/utils/colorMath.ts:4-6 | a field cut short by the end reads its one digit |
| ColorMath.HexToRgbThreeDigits | src/app/utils/colorMath.ts:1-8 | on a 3-digit hex, red reads two digits, green one, and blue is NaN |
| ColorMath.DistanceSq | src/app/utils/colorMath.ts:10-15 | the distance is a number exactly when no channel is NaN, and 0 exactly for equal colours |
| ColorMath.DistanceSqSymmetric | src/app/utils/colorMath.ts:10-15 | the distance is the same both ways |
| ColorMath.BlendComponentColors | src/app/utils/colorMath.ts:23-43 | the accumulating loop returns `Blend` of the components |
| ColorMath.AccumulateStep | src/app/utils/colorMath.ts:28-35 | one turn of the loop: a kept component adds channel times percentage, a skipped one adds nothing |
| ColorMath.KeptParts | src/app/utils/colorMath.ts:29 | the kept components are components with a hex of at least six characters |
| ColorMath.KeptPartsSums | src/app/utils/colorMath.ts:29-34 | the sums over the kept components equal the sums over all |
| ColorMath.BlendIgnoresSkipped | src/app/utils/colorMath.ts:29 | components with a missing or short hex make no difference to the blend |
| ColorMath.WeightedSumMono | src/app/utils/colorMath.ts:31-33 | with non-negative percentages the weighted sum is monotone in the channel values |
| ColorMath.WeightedSumConst | src/app/utils/colorMath.ts:31-34 | a constant channel value sums to that value times the total percentage |
| ColorMath.WeightedSumWithin | src/app/utils/colorMath.ts:31-34 | with values in [lo, hi] the weighted sum lies between lo and hi times the total |
| ColorMath.TotalPctNonNegative | src/app/utils/colorMath.ts:34 | non-negative percentages have a non-negative total |
| ColorMath.RoundWithin | src/app/utils/colorMath.ts:39-41 | rounding an average of values in [lo, hi] stays in [lo, hi] |
| ColorMath.BlendValueWithin | src/app/utils/colorMath.ts:39-41 | each blended channel lies between the smallest and largest value among the kept components |
| ColorMath.SixHexInByteRange | src/app/utils/colorMath.ts:30 | channels of six-digit hexes are in 0..255 |
| ColorMath.ChannelPairLower | src/app/utils/colorMath.ts:42 | each blended channel prints as two lower-case hex digits |
| ColorMath.BlendIsLowerHex | src/app/utils/colorMath.ts:37-42 | with six-digit hexes, non-negative percentages and a non-zero total, the blend is `#` and six lower-case hex digits |
| ColorMath.RoundedAverageExact | src/app/utils/colorMath.ts:39 | an exact multiple of the total averages to the multiplier |
| ColorMath.SingleAverage | src/app/utils/colorMath.ts:39-41 | a single kept component at a non-zero percentage averages to its own value |
| ColorMath.BlendSingle | src/app/utils/colorMath.ts:23-43 | a single component at any positive percentage reproduces its own channels |
| ColorMath.TwoPartSum | src/app/utils/colorMath.ts:28-35 | over two kept components the weighted sum is defined exactly when both values are, and is the sum of the two scaled values; the total is the sum of the two percentages |
| ColorMath.ZeroOrFullChannels | src/app/utils/colorMath.ts:1-8 | a `#` colour whose digit pairs are `00` or `FF` reads each channel as 0 or 255 |
| ColorMath.BlendRedBlue | tests/colorMath.test.ts:82-89 | the 50/50 blend of `#FF0000` and `#0000FF` is `#800080`: 127.5 rounds up to `0x80` |
| ColorMath.WithoutSeries | src/app/utils/colorMath.ts:52-54 | cutting the series prefix and trimming leaves a trimmed part of the input; without a prefix it only trims |
| ColorMath.WithoutCoating | src/app/utils/colorMath.ts:57 | cutting the coating marker and trimming leaves a trimmed part of the input; without a marker it only trims |
| ColorMath.ExtractPmsFromDescription | src/app/utils/colorMath.ts:49-59 | `null` for missing or empty input, and otherwise exactly when nothing remains once the series prefix and then the coating mark are stripped; any other result is what remains, non-empty, trimmed and part of the description |
| ColorMath.ExtractSeriesOnly | src/app/utils/colorMath.ts:52-55 | a description that is nothing but a series prefix gives `null` |
| ColorMath.ExtractLoneMark | src/app/utils/colorMath.ts:52-58 | a series prefix followed by one non-space character gives that character: the prefix takes the space, so no coating mark is stripped |
| ColorMath.ExtractAlphaDischargeMark | src/app/utils/colorMath.ts:52-58 | `"ALPHA DISCHARGE C"` gives `"C"` |
| ColorMath.TrimContained | src/app/utils/colorMath.ts:54 | the trimmed form lies within the string |
| ColorMath.WithoutCoatingMarker | src/app/utils/colorMath.ts:57 | a name followed by white space and `C`, `U`, `c` or `u` loses exactly that marker |
| ColorMath.SeriesRcNeo | src/app/utils/colorMath.ts:53 | after a number and `RC NEO` the series prefix ends where the name starts |
| ColorMath.WithoutRcNeo | src/app/utils/colorMath.ts:52-54 | after a number and `RC NEO` the trimmed rest remains |
| ColorMath.ExtractRcNeo | src/app/utils/colorMath.ts:49-59 | `"301 RC NEO 459 C"` gives `459`, for any number, trimmed name and coating letter |
| ColorMath.SeriesAlphaDischarge | src/app/utils/colorMath.ts:53 | `ALPHA DISCHARGE ` is one prefix, the optional word included |
| ColorMath.ExtractAlphaDischarge | src/app/utils/colorMath.ts:49-59 | `"ALPHA DISCHARGE RED C"` gives `RED`, for any trimmed name and coating letter |
| ColorMath.BlendNoneKept | src/app/utils/colorMath.ts:37 | with no component kept the total is 0 and the blend is the grey `#888888` |
| ConvertMatsui.GroupRows | scripts/convert-matsui-xlsx.js:139-158 | the grouping loop computes `Grouped` of the rows |
| ConvertMatsui.GroupedStep | scripts/convert-matsui-xlsx.js:140-158 | one row: skipped without a code, otherwise added to its code's entry, a new entry made for a new code |
| ConvertMatsui.IndexOf | scripts/convert-matsui-xlsx.js:143 | `grouped.has(code)`: the entry holding the code, or none when no entry has it |
| ConvertMatsui.FirstRow | scripts/convert-matsui-xlsx.js:143-148 | the first row that has the code, or the row count when none has it |
| ConvertMatsui.MembersNone | scripts/convert-matsui-xlsx.js:151-157 | a code no row has gets no components |
| ConvertMatsui.MembersNonEmpty | scripts/convert-matsui-xlsx.js:142-157 | a code some row has gets at least one component |
| ConvertMatsui.GroupedFacts | scripts/convert-matsui-xlsx.js:139-158 | each entry holds its code, the first such row's description and all such rows' components in row order; entries come in first-appearance order; every row with a code has an entry |
| ConvertMatsui.FirstRowKept | scripts/convert-matsui-xlsx.js:143-148 | a later row does not change where a code first appears |
| ConvertMatsui.GroupOfKept | scripts/convert-matsui-xlsx.js:143-157 | a row with another code leaves an entry as it was |
| ConvertMatsui.FitKeep | scripts/convert-matsui-xlsx.js:142 | a row without a code leaves the grouping fitting the rows |
| ConvertMatsui.FitExtend | scripts/convert-matsui-xlsx.js:151-157 | pushing onto an existing entry keeps the grouping fitting the rows |
| ConvertMatsui.NewFirstRow | scripts/convert-matsui-xlsx.js:143-148 | a code no earlier entry has first appears in the new row, with that row's component alone |
| ConvertMatsui.FitNew | scripts/convert-matsui-xlsx.js:143-157 | a new entry for a new code keeps the grouping fitting the rows |
| ConvertMatsui.BlendComponents | scripts/convert-matsui-xlsx.js:102-117 | the accumulating loop returns `BlendOf` of the components' hexes and percentages |
| ConvertMatsui.NoneKeptTotal | scripts/convert-matsui-xlsx.js:105-110 | with every component skipped the total percentage is 0 |
| ConvertMatsui.BlendNoneKept | scripts/convert-matsui-xlsx.js:112 | with every component skipped the blend is `888888`, without `#` |
| ConvertMatsui.BlendIgnoresSkipped | scripts/convert-matsui-xlsx.js:105 | components with a missing or short hex make no difference to the blend |
| ConvertMatsui.MatsuiRgbSixHex | scripts/convert-matsui-xlsx.js:93-100 | on six hex digits this script's `hexToRgb` reads the same channels as the UI's |
| ConvertMatsui.SixHexInByteRange | scripts/convert-matsui-xlsx.js:106 | channels of six-digit hexes are in 0..255 |
| ConvertMatsui.ChannelPair | scripts/convert-matsui-xlsx.js:113-115 | each blended channel prints as two lower-case hex digits |
| ConvertMatsui.BlendIsLowerBareHex | scripts/convert-matsui-xlsx.js:102-117 | with six-digit hexes and non-negative percentages the blend is six lower-case hex digits without `#`, the grey case included |
| ConvertMatsui.SingleChannel | scripts/convert-matsui-xlsx.js:107-115 | a single component at a positive percentage averages to its own channel |
| ConvertMatsui.BlendSingle | scripts/convert-matsui-xlsx.js:102-117 | a single component at a positive percentage blends to its own colour in lower case |
| ConvertMatsui.PmsKeyShape | scripts/convert-matsui-xlsx.js:171 | the PMS key has no upper-case letter and no surrounding white space |
| ConvertMatsui.PmsKeyPlain | scripts/convert-matsui-xlsx.js:171 | a code without a trailing coating mark keys as itself, trimmed and lower-cased |
| ConvertMatsui.LoadPmsHexMap | scripts/convert-matsui-xlsx.js:12-15 | the loop over the swatches builds `PmsHexMap` of them |
| ConvertMatsui.PmsHexMapKeys | scripts/convert-matsui-xlsx.js:13-15 | a name is a key exactly when some swatch's lower-cased `pms` is that name |
| ConvertMatsui.PmsHexMapLastWins | scripts/convert-matsui-xlsx.js:13-15 | a name maps to the hex, `#` removed, of the last swatch with that name |
| ConvertMatsui.BuildFormulas | scripts/convert-matsui-xlsx.js:161-188 | the loop over `grouped` pushes one record per entry, in order |
| ConvertMatsui.RecordOfGroup | scripts/convert-matsui-xlsx.js:164-187 | an entry that fits the rows gives a record that fits them: its code, first description, components, and swatch colour `pmsHex || blended` |
| ConvertMatsui.FormulasFit | scripts/convert-matsui-xlsx.js:139-188 | the records against the rows: one per code, each fitting, in first-appearance order, none missing |
| ConvertMatsui.FormulaCodesDistinct | scripts/convert-matsui-xlsx.js:139-188 | no two records share a code |
| ConvertMatsui.FormulaJsonFields | scripts/convert-matsui-xlsx.js:175-187 | the written record's `_id`, `formulaCode`, empty `formulaColor`, description, series and swatch-colour object |
| ConvertMatsui.ComponentConforms | scripts/convert-matsui-xlsx.js:151-157 | a written component passes the component schema exactly when its hex is six digits or empty |
| ConvertMatsui.FormulaConforms | scripts/convert-matsui-xlsx.js:175-187 | a written record passes `MatsuiFormulaSchema` exactly when it has a component and every component's hex conforms |
| ConvertMatsui.ComponentOfConforms | scripts/convert-matsui-xlsx.js:150 | given bare-hex `COMP_HEX` values, a component conforms exactly when its code has an entry |
| ConvertMatsui.CodeLePreorder | scripts/convert-matsui-xlsx.js:191-198 | the comparator is a total preorder, so the sort is well defined |
| ConvertMatsui.SortedFormulas | scripts/convert-matsui-xlsx.js:191-198 | a permutation with the numeric-prefix codes first, by number, then the others in string order |
| ConvertMatsui.TotalWrittenStep | scripts/convert-matsui-xlsx.js:213 | the running total adds each series' count, 0 for a skipped one |
| ConvertMatsui.ConvertFile | scripts/convert-matsui-xlsx.js:119-208 | an unreadable workbook gives 0 and nothing written; otherwise the count is the number written and the report counts the schema-valid records |
| ConvertMatsui.ConvertSeries | scripts/convert-matsui-xlsx.js:211-214 | each series is converted in order and the total is the sum of what was written |
| ConvertMatsui.ConvertAll | scripts/convert-matsui-xlsx.js:211-214 | the swatch map is built, then every series of `SERIES` is converted against it |
| Schemas.ErrorId | shared/schemas.js:72 | the id reported for a failing record: its truthy `id`, else `_id`, else `pms`, else `index <i>` |
| Schemas.Failures | shared/schemas.js:65-79 | at most one failure per record examined |
| Schemas.CountValid | shared/schemas.js:67-68 | no more records conform than were examined |
| Schemas.Take | shared/schemas.js:71 | the first `k` entries, or all when there are fewer |
| Schemas.ValidateRecords | shared/schemas.js:60-83 | the label and total are as given; `valid` counts the conforming records; `valid + invalid == total`; the errors are the first 20 failures |
| Schemas.FailuresStep | shared/schemas.js:66-78 | one record: a conforming record or a full error list adds nothing, otherwise its failure is appended |
| Schemas.FailuresCount | shared/schemas.js:69-77 | one failure per record that does not conform |
| Schemas.ErrorsCapped | shared/schemas.js:71 | the report holds `min(invalid, 20)` errors |
| Schemas.FailuresOrdered | shared/schemas.js:65-78 | every failure names a failing record with its id, in increasing index order |
| Schemas.FailuresComplete | shared/schemas.js:65-78 | every failing record is among the failures |
| Schemas.HoldingStep | shared/schemas.js:65-68 | the conforming set grows by the new record exactly when it conforms |
| Schemas.CountValidCard | shared/schemas.js:67-68 | `valid` is the number of conforming records |
| Schemas.CountValidBelow | shared/schemas.js:67-70 | `valid < total` exactly when some record fails |
| Patterns.SpaceRun | src/app/utils/colorMath.ts:53 | `\s*`: the longest run of white space from a position |
| Patterns.SpaceRunUpTo | src/app/utils/colorMath.ts:53 | the run stops at the first non-space |
| Patterns.SpaceDashRun | scripts/patch-icc-hex.js:98 | the longest run of white space and dashes from a position |
| Patterns.FirstSuffixMatch | src/app/utils/colorMath.ts:57 | the leftmost position from which an end-anchored pattern matches, and no match before it |
| Patterns.StripSuffix | src/app/utils/colorMath.ts:57 | `replace` with an end-anchored pattern: unchanged exactly when nothing matches, otherwise cut at the leftmost match |
| Patterns.StripAt | scripts/convert-matsui-xlsx.js:171 | a match at `k` and none before cuts the string at `k` |
| Patterns.NoDateSuffix | scripts/patch-icc-hex.js:98 | the date pattern cannot match from a position without a digit-dash shape there |
| Patterns.DigitRun | src/app/utils/colorMath.ts:53 | `\d+`: the longest run of digits from a position |
| Patterns.DigitRunUpTo | src/app/utils/colorMath.ts:53 | the digit run stops at the first non-digit |
| Patterns.OptionalTail | src/app/utils/colorMath.ts:53 | `ALPHA\s*(DISCHARGE)?` and the like match exactly when the head word is there |
| Patterns.RequiredTail | src/app/utils/colorMath.ts:53 | `RC\s*NEO` matches exactly when both words are there, spaces between |
| Patterns.SeriesName | src/app/utils/colorMath.ts:53 | the series alternatives match exactly when one of their words is at the position |
| Patterns.SeriesStart | src/app/utils/colorMath.ts:53 | the optional `(\d+\s*)?` is taken greedily |
| Patterns.SeriesPrefix | src/app/utils/colorMath.ts:53 | the prefix matches exactly when a series name follows the number; it ends before a non-space |
| Patterns.StripSeriesPrefix | src/app/utils/colorMath.ts:53 | the result is a suffix of the input, unchanged exactly when no prefix matches |
| JsText.HexDigitValue | server/color.js:19-21 | a hex digit's value is below 16, below 10 exactly for a decimal digit |
| JsText.Upper | server/color.js:12 | `toUpperCase` maps each character, keeping the length |
| JsText.Lower | scripts/convert-matsui-xlsx.js:171 | `toLowerCase` maps each character, keeping the length |
| JsText.UpperHex | server/color.js:12 | upper-cased hex digits are hex digits, none lower-case |
| JsText.TrimStart | server/color.js:10 | only leading white space is removed, and all of it |
| JsText.TrimEnd | server/color.js:10 | only trailing white space is removed, and all of it |
| JsText.TrimOfTrimmed | src/app/hooks/useHexInput.ts:11 | trimming a trimmed string changes nothing |
| JsText.TrimIsTrimmed | src/app/hooks/useHexInput.ts:11 | the trimmed string has no surrounding white space, and is empty exactly for white space only |
| JsText.TrimStartPadded | server/color.js:10 | leading white space has no effect on `trimStart` |
| JsText.TrimEndPadded | server/color.js:10 | trailing white space has no effect on `trimEnd` |
| JsText.TrimPadded | server/color.js:10 | trimming a padded trimmed string gives it back |
| JsText.WithHash | src/app/hooks/useHexInput.ts:27 | the result starts with `#`, which is added only when missing |
| JsText.Substring | server/color.js:19-21 | with bounds in range it is the slice, and never longer than the string |
| JsText.RemoveFirst | scripts/convert-matsui-xlsx.js:94 | removing a one-character pattern removes one character when present, nothing otherwise |
| JsText.DigitPrefix | server/color.js:19-21 | the longest prefix of radix digits |
| JsText.DigitPrefixOfDigits | server/color.js:19-21 | a string of digits is its own digit prefix |
| JsText.ParseInt | server/index.js:33 | a decimal parse of a string starting with a digit is non-negative |
| JsText.ParseIntHexDigits | server/color.js:19-21 | `parseInt(s, 16)` on hex digits is their value |
| JsText.HexPairValue | server/color.js:19-21 | two hex digits make a byte |
| JsText.ParseIntDecimalDigits | scripts/seed-icc.js:95 | `parseInt(s, 10)` on decimal digits is their value |
| JsText.HexDigitChar | src/app/utils/colorMath.ts:42 | the lower-case digit for a value below 16 |
| JsText.ToHexString | src/app/utils/colorMath.ts:42 | `toString(16)` of a non-negative integer is lower-case hex digits reading back as the number, one digit below 16 and two below 256 |
| JsText.PadStart2 | src/app/utils/colorMath.ts:42 | `padStart(2, "0")` keeps two-character strings and left-pads shorter ones to two |
| JsText.Hex2 | src/app/utils/colorMath.ts:42 | a channel in 0..255 prints as two lower-case hex digits reading back as it |
| JsText.DecimalString | shared/schemas.js:72 | `String(n)` is a non-empty run of decimal digits |
| JsText.DecimalStringValue | shared/schemas.js:72 | `String(n)` reads back as `n` |
| JsText.DecimalStringInjective | shared/schemas.js:72 | different indexes print differently |
| JsText.Round | src/app/utils/colorMath.ts:39-41 | `Math.round` is the nearest integer, halves up |
| JsText.LexLeTotal | scripts/convert-matsui-xlsx.js:197 | any two strings are ordered one way or the other |
| JsText.LexLeTransitive | scripts/convert-matsui-xlsx.js:197 | the string order is transitive |
| JsText.LexLeAntisymmetric | scripts/convert-matsui-xlsx.js:197 | strings ordered both ways are equal |
| StableSort.Insert | server/index.js:200 | inserting adds exactly the one element |
| StableSort.Sort | server/index.js:200 | `sort` returns a permutation of its input |
| StableSort.InsertSorted | server/index.js:200 | inserting into a sorted list keeps it sorted |
| StableSort.SortSorted | server/index.js:200 | the sorted list is in comparator order |
| StableSort.TiedWithCons | server/index.js:200 | the tied elements of a list with a head are the head's contribution and the rest's |
| StableSort.TiedWithInsert | server/index.js:200 | inserting keeps tied elements in the order of the list with the element in front |
| StableSort.SortStable | server/index.js:200 | among elements the comparator ties, the input order is kept |
| StableSort.Slice | server/index.js:202 | `slice(0, n)` is a prefix of length `min(n, length)` for non-negative `n` |
| StableSort.TopK | server/index.js:200-202 | sorting then slicing keeps at most `n` of the input's elements |
| StableSort.TopKOrdered | server/index.js:200-202 | the kept entries are sorted and none dropped sorts strictly before a kept one |
| Ranking.SquareMono | server/color.js:31 | squaring is monotone on naturals |
| Ranking.ISqrt | server/color.js:31 | the integer square root: `r² ≤ n < (r+1)²` |
| Ranking.HalvedRoot | server/color.js:31 | the root of `n` from the root of `n / 4` |
| Ranking.ISqrtMono | server/color.js:31 | the integer square root is monotone |
| Ranking.Hundredths | server/index.js:195 | `Math.round(Math.sqrt(d) * 100)`: the nearest integer to `100·√d`, halves up |
| Ranking.HalfRoot | server/index.js:195 | halving a root to the nearest integer stays within a half |
| Ranking.HundredthsMono | server/index.js:195 | a greater distance never rounds to a smaller one |
| Ranking.ByDistancePreorder | server/index.js:200 | comparing by distance is a total preorder |
| Ranking.Rank | server/index.js:200-202 | `min(limit, length)` results taken from the scored list |
| Ranking.RankOrdered | server/index.js:200-202 | results in ascending distance, none dropped nearer than one kept |
| Ranking.RankFrom | server/matcher.js:85 | every result is one of the scored candidates |
| Ranking.RankStable | server/index.js:200 | candidates at the same rounded distance keep pool order |
| Ranking.RankCandidates | server/index.js:198-202 | after dropping `null`s, `min(limit, kept)` results |
| Ranking.RankCandidatesFacts | server/index.js:198-202 | results are candidates the map kept, nearest first |
| Lists.Filter | server/matcher.js:67 | `filter` keeps exactly the elements satisfying the predicate |
| Lists.FilterSubsequence | server/matcher.js:67 | `filter` keeps input order |
| Lists.SubsequenceRefl | server/matcher.js:65 | a list is a subsequence of itself |
| Lists.SubsequenceSkip | server/matcher.js:67 | skipping an element keeps a subsequence |
| Lists.SubsequenceTail | server/matcher.js:67 | dropping a subsequence's head keeps a subsequence |
| Lists.FilterAll | server/matcher.js:67 | a filter that keeps everything returns the list |
| Lists.Map | server/matcher.js:70-81 | `map` applies the function to each element, keeping length |
| Lists.MapStep | server/matcher.js:70-81 | mapping one more element appends its image |
| Lists.Collect | server/index.js:198 | `filter(Boolean)` after a map keeps exactly the non-`null` values |
| Lists.CollectAll | server/index.js:198 | nothing dropped when the map drops nothing |
| Lists.NoDupsCount | scripts/validate-data.js:97-113 | without duplicates each element occurs at most once |
| Lists.TwoOccurrences | scripts/validate-data.js:97-113 | an element at two positions counts twice |
| Lists.PermutationNoDups | scripts/validate-data.js:97-113 | a permutation of a duplicate-free list has no duplicates |
| Lists.Kept | server/index.js:198 | at most one value per element |
| Lists.KeptFrom | server/index.js:198 | every kept value is some element's value |
| Lists.KeptComplete | server/index.js:198 | every element's value is kept |
| Lists.Find | scripts/convert-matsui-xlsx.js:150 | the first entry with the key, or none exactly when no entry has it |
| Matcher.Loaded | server/matcher.js:15-33 | a truthy list is kept; otherwise the parsed file when it loads, or the stubs when it is missing, fails to parse, or parses to `null` (whose `.length` throws inside the `try`); the result is never `null` |
| Matcher.LoadedMode | server/matcher.js:12-31 | the mode is kept when the list was set, else `live` exactly when the file loads: present, parsed and not `null` |
| Matcher.NullFileGivesStubs | server/matcher.js:21-31 | a file that parses to `null` gives the stubs and `stub` mode, exactly as a missing file does |
| Matcher.Pool | server/matcher.js:65-68 | every swatch for `BOTH`, else the filter on the series |
| Matcher.SwatchHex | server/matcher.js:71-76 | the swatch's normalised hex is `#` and six upper-case digits |
| Matcher.Score | server/matcher.js:70-81 | the mapped entry: `pms`, `series`, normalised hex, name and notes defaulted to `""`, distance rounded to hundredths |
| Matcher.ScoreAll | server/matcher.js:70-81 | one entry per pool swatch, in order |
| Matcher.FirstThrowing | server/matcher.js:70-71 | the first pool swatch the mapping throws on, or none exactly when it throws on none |
| Matcher.MatchResults | server/matcher.js:57-86 | results exactly when the hex normalises, the filter meets no `null` and every pool swatch can be scored; otherwise `"Invalid hex"`, the filter's `TypeError` on a `null` swatch, or the mapping's on the first swatch it throws on; `min(limit, pool)` results |
| Matcher.MatchOk | server/matcher.js:70-85 | on success the results are the ranked scores of the whole pool |
| Matcher.MatchSorted | server/matcher.js:83 | results come in non-decreasing distance |
| Matcher.MatchFromPool | server/matcher.js:70-85 | every result is the mapped entry of a pool swatch |
| Matcher.MatchNearest | server/matcher.js:83-85 | no pool swatch left out is strictly nearer than one returned |
| Matcher.PoolOfSeries | server/matcher.js:66-68 | for a series other than `BOTH`, the pool has exactly the swatches of that series, in order |
| Matcher.SwatchStore.constructor | server/matcher.js:11-12 | no list yet, stub mode |
| Matcher.SwatchStore.LoadSwatches | server/matcher.js:15-33 | list and mode become `Loaded` and `LoadedMode` of the old state and the file |
| Matcher.SwatchStore.GetAllSwatches | server/matcher.js:45-48 | loads, then returns the list and the mode; the list is never `null` |
| Matcher.SwatchStore.MatchPms | server/matcher.js:57-86 | loads, then `"Invalid hex"`, the `TypeError` of `filter` or `map` on a loaded value that is not an array (never `null`, which loads as the stubs), or `MatchResults` over the loaded list, with the mode |
| Matcher.LoadOnce | server/matcher.js:16 | once a load has run, later loads keep list and mode whatever the file, unless the file parsed to a falsy value other than `null` (`0`, `""`, `false`), which stays falsy and is read again |
| Routes.ParseHex | server/index.js:17-29 | a missing or empty hex is `Missing required query param`, one `normalizeHex` rejects is `Invalid hex format`, otherwise the normalised hex, which normalises to itself |
| Routes.ClampedLimit | server/index.js:32-37 | never above `max`; an in-range number kept; above `max` clamped; NaN or below `min` gives the default, itself clamped |
| Routes.ParseLimit | server/index.js:32-37 | the reassigning code computes `ClampedLimit` |
| Routes.RouteLimitInRange | server/index.js:81 | every limit a route uses is in 1..50 |
| Routes.SeriesParam | server/index.js:75-79 | absent or empty gives `BOTH`; otherwise accepted exactly when the upper-cased series is `C`, `U` or `BOTH`, else the series error |
| Routes.CategoryParam | server/index.js:215-218 | absent or empty gives `UD`; otherwise accepted exactly when upper-cased it is `UD` or `CD`, else the category error |
| Routes.PmsRoute | server/index.js:69-99 | the hex error, then the series error, then the reply of `matchPms` with input, results and mode note, or 500 with the message `matchPms` throws |
| Routes.MatsuiHex | server/index.js:188-192 | the swatch colour with `#`, else the formula colour with `#`, else none |
| Routes.WithMatch | server/index.js:196 | the formula's own fields, plus `resolvedHex` and the distance in hundredths |
| Routes.MatsuiCandidate | server/index.js:187-197 | for a non-`null` formula: `null` exactly for no hex or `#888888`; otherwise the formula with its hex and rounded distance |
| Routes.MatsuiFormulas | server/index.js:172-182 | the local formulas when found, else the API answer when an array, else none |
| Routes.MatsuiCandidates | server/index.js:186-197 | one candidate per formula, in order |
| Routes.MatsuiResults | server/index.js:186-202 | `min(limit, kept)` results |
| Routes.MatsuiRoute | server/index.js:158-206 | the hex error, then the missing-series error, then 500 `Failed to match Matsui formulas` when a formula is `null`, else the ranked formulas |
| Routes.MatsuiResultsSorted | server/index.js:200 | results nearest first |
| Routes.MatsuiResultFrom | server/index.js:186-202 | every entry is a listed formula with a non-sentinel hex and its rounded distance |
| Routes.GgScore | server/index.js:226-229 | `_id`, `code`, `name`, `hex` and the rounded distance of the colour's channels |
| Routes.GgScores | server/index.js:226-229 | one entry per colour, in order |
| Routes.GgRoute | server/index.js:209-236 | the hex error, then the category error, then 502 `Failed to fetch GG colors` when a colour is `null`, else the ranked colours |
| Routes.GgResults | server/index.js:226-232 | nothing dropped: `limit` or all entries, nearest first, each some colour's |
| Routes.GgFormulaRoute | server/index.js:238-256 | a missing code, then a bad category, are errors; otherwise the code and category requested |
| Routes.RecordHex | server/index.js:274 | `#` added when missing, giving `#RRGGBB` |
| Routes.FnInkCandidate | server/index.js:272-286 | for a non-`null` colour: `null` exactly for an empty hex; otherwise id, code, name, `#` hex, formula and rounded distance |
| Routes.FnInkCandidates | server/index.js:271-287 | one candidate per colour, in order |
| Routes.FnInkResults | server/index.js:271-290 | `min(limit, kept)` results |
| Routes.FnInkRoute | server/index.js:259-294 | the hex error, then 502 `Failed to fetch FN-INK colors` when a colour is `null`, else the ranked colours |
| Routes.FnInkResultsSorted | server/index.js:289 | results nearest first |
| Routes.FnInkResultFrom | server/index.js:271-290 | every entry is a colour with a hex |
| Routes.FamilyName | server/index.js:312 | the family asked for, else `7500 Coated` |
| Routes.IccCandidate | server/index.js:324-339 | for a non-`null` formula: `null` exactly for an empty hex; otherwise the id (code when falsy), name, `#` hex, family, lines (`[]` when falsy) and rounded distance |
| Routes.IccCandidates | server/index.js:323-340 | one candidate per formula, in order |
| Routes.IccResults | server/index.js:323-343 | `min(limit, kept)` results |
| Routes.IccRoute | server/index.js:306-347 | the hex error, then 404 for an unknown family, then 500 `Failed to match ICC formulas` when a formula is `null`, else the ranked formulas |
| Routes.IccResultsSorted | server/index.js:342 | results nearest first |
| Routes.IccResultFrom | server/index.js:323-343 | every entry is a formula with a hex, tagged with the family |
| MatsuiData.LocalSeriesNames | server/matsuiData.js:59-61 | the five series with a local file |
| MatsuiData.HasLocalData | server/matsuiData.js:66-68 | true exactly for a listed series whose file exists |
| MatsuiData.Search | server/matsuiData.js:42-54 | `null` for a missing or falsy list; the whole list for a blank query; otherwise the filter on code or description containing the query |
| MatsuiData.SearchKeepsMatches | server/matsuiData.js:48-53 | the search keeps, in list order, exactly the formulas that match the lower-cased, trimmed query |
| MatsuiData.Catalog.constructor | server/matsuiData.js:18 | the cache starts empty |
| MatsuiData.Catalog.LoadSeries | server/matsuiData.js:20-36 | a cached series is returned unchanged; an unlisted series or missing file gives `null`; otherwise the parsed file is cached and returned, a read or parse failure caching nothing |
| MatsuiData.Catalog.GetLocalFormulas | server/matsuiData.js:42-54 | loads as `LoadSeries` does, then returns `Search` of what was loaded |
| IccData.FamilyNames | server/iccData.js:50-52 | the one family with a local file, `7500 Coated` |
| IccData.Catalog.constructor | server/iccData.js:14 | the cache starts empty |
| IccData.Catalog.LoadFamily | server/iccData.js:16-45 | a cached family is returned unchanged; an unknown family or missing file gives `null`; a failed read or a `null` file caches nothing; otherwise the file is cached and returned, with a report counting the schema-valid formulas |
| SwatchNames.StripWord | scripts/patch-icc-hex.js:84 | `replace(/^W\s*/, "")`: unchanged without the word; otherwise the word and the white space after it are cut |
| SwatchNames.SetBoth | scripts/patch-icc-hex.js:83-85 | the two `map.set` calls: the key when non-empty with a truthy hex, the short key when non-empty, every other name kept |
| SwatchNames.Apply | scripts/patch-icc-hex.js:83-85 | every name of an entry set to its hex, every other name kept |
| SwatchNames.Register | scripts/patch-icc-hex.js:82-85 | one turn of the loop applies the swatch's entry |
| SwatchNames.SetBothApplies | scripts/patch-icc-hex.js:83-85 | the two sets in order are the entry applied at once |
| SwatchNames.Entries | scripts/patch-icc-hex.js:81-86 | one entry per swatch, in order |
| SwatchNames.LoadSwatchMap | scripts/patch-icc-hex.js:77-88 | an empty map without the file, otherwise `BuildMap` of the swatches |
| SwatchNames.FoldKeys | scripts/patch-icc-hex.js:81-86 | a name is a key exactly when some entry registers it |
| SwatchNames.FoldLastWins | scripts/patch-icc-hex.js:81-86 | a name holds the hex of the last entry that registers it |
| SwatchNames.BuildMapKeys | scripts/seed-icc.js:49-56 | a name is in the map exactly when some swatch registers it |
| SwatchNames.BuildMapLastWins | scripts/seed-icc.js:49-56 | later swatches overwrite earlier ones |
| SwatchNames.LookupCases | scripts/seed-icc.js:64-83 | the value under the first variant the map has, `null` when it has none |
| SwatchNames.LookupDirect | scripts/seed-icc.js:65 | a name the map has is found as it is |
| PatchIccHex.DateSuffixExample | scripts/patch-icc-hex.js:97-98 | `" - 6-2023"` is a date suffix |
| PatchIccHex.StripDateExample | scripts/patch-icc-hex.js:97-98 | `"113C - 6-2023"` loses its date |
| PatchIccHex.StripNoDateExample | scripts/patch-icc-hex.js:98 | `"126C"` has no date to lose |
| PatchIccHex.SpaceCoatingExample | scripts/patch-icc-hex.js:100-101 | `"113C"` and `"126C"` get a space before the coating letter |
| PatchIccHex.CleanedExamples | scripts/patch-icc-hex.js:97-101 | the looked-up names for `"126C"` and `"113C - 6-2023"` are `"126 C"` and `"113 C"` |
| PatchIccHex.ResolveHexCases | scripts/patch-icc-hex.js:90-114 | `null` for a falsy name; a specialty name gets the table's value whatever the map holds; otherwise the first variant of the cleaned name the map has, or `null` |
| PatchIccHex.FixOf | scripts/patch-icc-hex.js:126-135 | untouched exactly when the hex is not `null`; fixed exactly when it is `null` and resolves; by specialty exactly when the name is in the table |
| PatchIccHex.SetField | scripts/patch-icc-hex.js:130 | the field is set and every other field kept |
| PatchIccHex.Patched | scripts/patch-icc-hex.js:126-136 | a resolved formula gets the resolved hex and keeps every other field; any other formula is unchanged |
| PatchIccHex.PatchOne | scripts/patch-icc-hex.js:127-135 | one turn of the loop gives the patched formula and its outcome |
| PatchIccHex.PatchedNull | scripts/patch-icc-hex.js:127-135 | a formula keeps a `null` hex exactly when it had one and was not resolved |
| PatchIccHex.Fixes | scripts/patch-icc-hex.js:126-136 | one outcome per formula |
| PatchIccHex.FixesAt | scripts/patch-icc-hex.js:126-136 | each outcome is its formula's |
| PatchIccHex.PatchAll | scripts/patch-icc-hex.js:126-136 | one formula per formula |
| PatchIccHex.PatchAllAt | scripts/patch-icc-hex.js:126-136 | each formula is patched on its own |
| PatchIccHex.TallyCounts | scripts/patch-icc-hex.js:131-134 | the counters count the two kinds of fix, and `resolved` is their sum |
| PatchIccHex.NullCounts | scripts/patch-icc-hex.js:119-138 | each fix takes one `null` hex away |
| PatchIccHex.PatchCounts | scripts/patch-icc-hex.js:119-138 | the `null` hexes after are those before less the fixed ones |
| PatchIccHex.PatchLoop | scripts/patch-icc-hex.js:126-136 | the array is patched in place to `PatchAll` of its old contents and the counters are the tallies |
| PatchIccHex.Patch | scripts/patch-icc-hex.js:117-142 | the in-place patch, with `nullAfter == nullBefore - resolved` and `resolved == bySpecialty + byDateStrip` |
| SeedIcc.ResolveHexCases | scripts/seed-icc.js:60-84 | `null` for a falsy name; otherwise the first variant the map has, or `null` |
| SeedIcc.ResolveHexAgrees | scripts/seed-icc.js:60-84 | where the patch script finds no specialty and cuts nothing, both scripts resolve alike |
| SeedIcc.FoundIdsFacts | scripts/seed-icc.js:94-97 | the IDs pushed have no duplicates and are exactly the positive values on the page |
| SeedIcc.FormulaIdsFacts | scripts/seed-icc.js:86-101 | strictly ascending, exactly the positive values on the page |
| SeedIcc.DiscoverFormulaIds | scripts/seed-icc.js:86-101 | the loop and sort return `FormulaIds`: strictly ascending, exactly the positive values |
| SeedIcc.ExtractFromHtml | scripts/seed-icc.js:135-167 | the loop over rows builds `HtmlData` |
| SeedIcc.LineFields | scripts/seed-icc.js:154-161 | a line carries the six written fields and none of the alternative names |
| SeedIcc.HtmlLineKept | scripts/seed-icc.js:151-162 | a row gives a line exactly when it has three cells and a positive percentage, which the line carries |
| SeedIcc.HtmlLinesFacts | scripts/seed-icc.js:144-164 | every line comes from a qualifying row with a positive percentage, and every such row gives one |
| SeedIcc.NormalLines | scripts/seed-icc.js:214-221 | one normalised line per line, in order |
| SeedIcc.FloatOfTextArray | scripts/seed-icc.js:217-220 | `parseFloat` of an array reads its comma-joined `String()`, so a text first element is parsed as if it stood alone |
| SeedIcc.FloatOfArrayExamples | scripts/seed-icc.js:217-220 | `parseFloat([5])` is 5, `parseFloat([1, 2])` is 1, `parseFloat([])` and `parseFloat([null, 3])` are NaN |
| JsText.ParseFloatStopsAtComma | scripts/seed-icc.js:217-220 | `parseFloat` stops at the first comma: what follows it makes no difference |
| SeedIcc.NormalLineFixed | scripts/seed-icc.js:214-221 | a line already in written form is unchanged |
| SeedIcc.HtmlLinesNormal | scripts/seed-icc.js:214-221 | lines read from a table are written back unchanged |
| SeedIcc.RecordFields | scripts/seed-icc.js:208-222 | the record's id as a string, code, name, hex or `null`, family and lines |
| SeedIcc.RecordShape | scripts/seed-icc.js:203-222 | built exactly when the data allows; id as a string, the family, the name twice, `null` for an unresolved name, one normalised line per line |
| SeedIcc.HtmlDataFields | scripts/seed-icc.js:166 | the name and lines of the extracted data, and no alternative names |
| SeedIcc.HtmlRecord | scripts/seed-icc.js:204-222 | a table page gives a record with exactly its lines, named after the heading or `Formula <id>` |
| SeedIcc.IdSetHas | scripts/seed-icc.js:178 | every existing record's id is in the set |
| SeedIcc.FetcherIds | scripts/seed-icc.js:209-223 | an added record carries its id as a string |
| SeedIcc.Outcomes | scripts/seed-icc.js:193-241 | one outcome per id |
| SeedIcc.OutcomesAt | scripts/seed-icc.js:193-241 | each outcome is judged against the starting ids |
| SeedIcc.NoDupsInit | scripts/seed-icc.js:96 | dropping the last of distinct ids leaves distinct ids without it |
| SeedIcc.SkipOthers | scripts/seed-icc.js:194-223 | marking one id seen changes no other id's status |
| SeedIcc.RunFacts | scripts/seed-icc.js:188-241 | the results are the file's records then the new ones in id order; the counters count the outcomes |
| SeedIcc.AddedListed | scripts/seed-icc.js:208-223 | an added record's id is in the results |
| SeedIcc.Resumable | scripts/seed-icc.js:176-197 | a rerun on the written file skips every formula this run added |
| SeedIcc.RunWrites | scripts/seed-icc.js:228-234 | every periodic save is a prefix of the results, and saves only grow |
| SeedIcc.Visit | scripts/seed-icc.js:194-240 | one turn of the loop is `Step` on its outcome |
| SeedIcc.ExistingIds | scripts/seed-icc.js:178 | the loop builds `IdSet` of the existing records |
| SeedIcc.VisitAll | scripts/seed-icc.js:193-241 | the loop is `Run` over the ids |
| SeedIcc.Seed | scripts/seed-icc.js:169-246 | no ids gives exit 1 and nothing written; otherwise results are the file's records then the added ones, the counters count the outcomes, the final save holds the results, and every added id would be skipped next time |
| ValidateData.Lines | scripts/validate-data.js:78-79 | the summed items: none when the lines are falsy |
| ValidateData.ExamplesStep | scripts/validate-data.js:81-85 | one record: in range or five examples already adds nothing, otherwise its example is appended |
| ValidateData.ExamplesCount | scripts/validate-data.js:81-85 | one example per out-of-range record |
| ValidateData.PercentageSums | scripts/validate-data.js:75-87 | `outOfRange` counts the records with lines whose sum is more than the tolerance from 100; the examples are the first five of them |
| ValidateData.SeenBeforeMembers | scripts/validate-data.js:100-108 | a key is in the `seen` set after `n` swatches exactly when one of the first `n` swatches has it |
| ValidateData.CardAdd | scripts/validate-data.js:102-107 | a key already seen adds nothing to the distinct keys, a new one adds one |
| ValidateData.DupesDistinct | scripts/validate-data.js:98-108 | duplicates plus distinct keys is the number of keys |
| ValidateData.DupesStep | scripts/validate-data.js:101-106 | a key already in `seen` adds a duplicate and leaves `seen` alone; any other key joins `seen` |
| ValidateData.CountDuplicates | scripts/validate-data.js:98-108 | `dupes` is every occurrence of a `${pms}-${series}` key but the first, the swatches less the distinct keys |
| ValidateData.CountJunk | scripts/validate-data.js:139-145 | `junkCount` counts the junk records |
| ValidateData.JunkCases | scripts/validate-data.js:141-144 | a `COPY:` or `TEST` code is junk whatever its components; otherwise junk exactly when the component percentages sum to more than 110 |
| ValidateData.Validation.constructor | scripts/validate-data.js:41-42 | no schema errors, no warnings |
| ValidateData.Validation.PrintResult | scripts/validate-data.js:53-65 | the flag is set exactly when the result has invalid records; warnings unchanged |
| ValidateData.Validation.CheckMinRecords | scripts/validate-data.js:67-72 | one warning exactly when the file has fewer records than expected |
| ValidateData.Validation.CheckPercentageSums | scripts/validate-data.js:74-95 | one warning exactly when some record is out of range |
| ValidateData.Validation.CheckDuplicateSwatches | scripts/validate-data.js:97-113 | one warning exactly when some key repeats |
| ValidateData.Validation.CheckFile | scripts/validate-data.js:121-159 | the flag is set when a record fails the section's schema; the warnings grow by `FileWarnings` |
| ValidateData.Validation.CheckSection | scripts/validate-data.js:120-160 | files not loaded are skipped; the flag is set exactly when a loaded file has an invalid record; warnings add up over the files |
| ValidateData.HasInvalidStep | scripts/validate-data.js:120-127 | one more file adds an invalid record exactly when it is loaded and has one |
| ValidateData.Run | scripts/validate-data.js:115-174 | exit code 1 exactly when some loaded file of a section has a schema-invalid record, else 0; warnings are the sum over the sections |
| ValidateData.ExitCodeSchemaOnly | scripts/validate-data.js:174 | the exit code depends on the schemas alone: short files, sums and duplicates never change it |
| TtlCache.LookupFresh | server/matsuiClient.js:9-13 | a lookup answers exactly the data of an entry younger than ten minutes |
| TtlCache.SetThenLookup | server/matsuiClient.js:9-17 | what was just stored is answered for ten minutes, and not after |
| TtlCache.SetLeavesOthers | server/matsuiClient.js:15-17 | storing under one key leaves every other key's answer |
| TtlCache.ExpiredStaysExpired | server/matsuiClient.js:9-13 | an expired entry stays expired as the clock advances |
| TtlCache.UncachedGet | server/matsuiClient.js:19-41 | without `useCache` the cache is neither read nor written, and the answer is the request's |
| TtlCache.CachedGetHit | server/matsuiClient.js:20-23 | a fresh truthy entry answers without a request and leaves the cache |
| TtlCache.CachedGetMiss | server/matsuiClient.js:24-37 | on a miss a request is made; a parsed body is stored whatever its shape, a failure stores nothing |
| TtlCache.CachedGetOnlyKey | server/ggClient.js:19-41 | a GET changes the cache at most under its own key |
| FnInkClient.LooksValidCases | server/fninkClient.js:23-45 | a non-object is rejected; a truthy non-array `colors` is rejected; an array `colors` passes when empty or its first code is a string, throws on a `null` first colour, else is rejected; `materials` must be an array when truthy; any other object passes |
| FnInkClient.PostHit | server/fninkClient.js:48-51 | a fresh truthy cache entry answers without a request |
| FnInkClient.PostErrorsNotCached | server/fninkClient.js:75-78 | a response carrying `errors` rejects with the first error's message and caches nothing |
| FnInkClient.PostMalformedNotCached | server/fninkClient.js:79-86 | data failing the shape check still reaches the caller but is not cached |
| FnInkClient.PostInvalidJson | server/fninkClient.js:87-89 | a body that is not JSON rejects with `Invalid JSON from FN-INK API` and caches nothing |
| FnInkClient.PostKeepsAdmissible | server/fninkClient.js:79-85 | only data that passes the shape check enters the cache |
| FnInkClient.Client.constructor | server/fninkClient.js:9 | the cache starts empty |
| FnInkClient.Client.GraphqlPost | server/fninkClient.js:47-99 | the outcome, whether a request was made, and the new cache are `Post` of the old cache; the cache stays admissible |
| FnInkClient.Client.GetAllFnInkColors | server/fninkClient.js:102-128 | a cached `graphqlPost` under `fnink:colors`, answering its `colors` |
| FnInkClient.Client.GetFnInkMaterials | server/fninkClient.js:131-145 | a cached `graphqlPost` under `fnink:materials`, answering its `materials` |
| MatsuiClient.Client.constructor | server/matsuiClient.js:6 | the cache starts empty |
| MatsuiClient.Client.MatsuiGet | server/matsuiClient.js:19-41 | the shared cached GET under `GET:<path>`, with `Invalid JSON from Matsui API` |
| MatsuiClient.Client.MatsuiPost | server/matsuiClient.js:43-69 | always a request: a failure rejects, a body that is not JSON rejects with the client's message, otherwise the parsed body; the cache is not touched |
| GgClient.Utf8 | server/ggClient.js:50 | one to four bytes per code point |
| GgClient.UpperHexDigit | server/ggClient.js:50 | the upper-case hex digit of a value below 16 |
| GgClient.Escape | server/ggClient.js:50 | `%XX`: a percent sign and two hex digits reading back as the byte |
| GgClient.PercentBytesChars | server/ggClient.js:50 | three characters per byte, each `%` or a hex digit |
| GgClient.EncodeCharChars | server/ggClient.js:50 | an encoded character is made of unreserved characters and escape characters |
| GgClient.EncodeIsSegment | server/ggClient.js:50 | the encoded code holds only unreserved characters and `%XX` escape characters |
| GgClient.EncodeNoDelimiters | server/ggClient.js:50 | the encoded code has no `/`, `?` or `#`, so it stays one path segment |
| GgClient.EncodeUnreserved | server/ggClient.js:50 | a code of unreserved characters is used as it is |
| GgClient.Client.constructor | server/ggClient.js:6 | the cache starts empty |
| GgClient.Client.GgGet | server/ggClient.js:19-41 | the shared cached GET under `GET:<path>`, with `Invalid JSON from GG Fusion API` |
| GgClient.Client.GetGGColors | server/ggClient.js:44-46 | a cached GET under `GET:colors/<category>` |
| GgClient.Client.GetGGFormula | server/ggClient.js:49-51 | never cached: always a request for the encoded code and the category, the cache unchanged |
| PmsColors.HexToRgb | src/app/data/pmsColors.ts:162-171 | a colour exactly when the pattern matches, each channel a byte read in base 16 from its pair of digits |
| PmsColors.HexToRgbAccepts | src/app/data/pmsColors.ts:163 | the pattern accepts exactly six hex digits, with or without one leading `#` |
| PmsColors.CalculateDistance | src/app/data/pmsColors.ts:173-184 | `Infinity` exactly when either hex does not parse |
| PmsColors.CalculateDistanceFacts | src/app/data/pmsColors.ts:173-184 | zero from a parsable hex to itself; symmetric |
| PmsColors.ByDistancePreorder | src/app/data/pmsColors.ts:206 | the comparator is a total preorder: `Infinity` ties with `Infinity` and sorts after every finite distance |
| PmsColors.Pool | src/app/data/pmsColors.ts:192-197 | a subsequence of the table; any series but the two named ones keeps the whole table |
| PmsColors.PoolOfSeries | src/app/data/pmsColors.ts:193-197 | `Coated (C)` and `Uncoated (U)` keep exactly the swatches of series `C` and `U` |
| PmsColors.Scored | src/app/data/pmsColors.ts:200-203 | one entry per swatch of the pool, in order, each the swatch with its distance from the input |
| PmsColors.FindClosestMatches | src/app/data/pmsColors.ts:186-206 | over the bundled table: `min(limit, pool size)` entries, in ascending distance, each a swatch of the series pool with its own distance from the input |
| PmsColors.ClosestFacts | src/app/data/pmsColors.ts:186-206 | `min(limit, pool size)` entries, in ascending distance, each a swatch of the pool with its own distance |
| PmsColors.ClosestNearest | src/app/data/pmsColors.ts:206 | no swatch left out of the result is nearer than one kept |
| PmsColors.TopKNearest | src/app/data/pmsColors.ts:206 | sorting then slicing keeps entries no farther than any entry dropped |
| PmsColors.ClosestUnparsable | src/app/data/pmsColors.ts:177 | an input that does not parse gives the pool's first `limit` swatches in table order |
| PmsColors.SortAllTied | src/app/data/pmsColors.ts:206 | the stable sort leaves a list of ties as it is |
| MixingCards.LoadCards | src/app/hooks/useMixingCards.ts:48-56 | a missing or corrupt entry loads as `[]`, a saved list as itself |
| MixingCards.UpdatedFacts | src/app/hooks/useMixingCards.ts:91 | same length and order; cards with another id untouched; cards with the id change only the name and notes given |
| MixingCards.UpdatedIdempotent | src/app/hooks/useMixingCards.ts:91 | applying an update twice is applying it once |
| MixingCards.DeletedFacts | src/app/hooks/useMixingCards.ts:99 | no card with the id is left; every other card is kept, in order |
| MixingCards.DeleteAbsent | src/app/hooks/useMixingCards.ts:99 | deleting an id no card has changes nothing |
| MixingCards.DeleteUndoesSave | src/app/hooks/useMixingCards.ts:76-103 | deleting a card just saved under a fresh id restores the list before the save |
| MixingCards.CardList.constructor | src/app/hooks/useMixingCards.ts:63 | the list starts as what storage holds, loaded |
| MixingCards.CardList.Commit | src/app/hooks/useMixingCards.ts:58-60 | the list becomes `next` and storage holds it |
| MixingCards.CardList.SaveCard | src/app/hooks/useMixingCards.ts:76-87 | the new card with its id and timestamp goes first, the rest follow; storage holds the new list |
| MixingCards.CardList.UpdateCard | src/app/hooks/useMixingCards.ts:89-95 | the list becomes the updated list and storage holds it |
| MixingCards.CardList.DeleteCard | src/app/hooks/useMixingCards.ts:97-103 | the list becomes the filtered list and storage holds it |
| MixingCards.CardList.OnStorage | src/app/hooks/useMixingCards.ts:66-74 | only the `mixing-cards` key reloads the list from storage; any other key changes nothing |

## Left out

- I/O and process plumbing: file reads and writes, `JSON.parse`, `XLSX.readFile`, HTTPS requests, the agent, the 15-second timeout, `sleep`, console output, `process.exit`, `express`, `helmet`, static serving and `app.listen`. File contents, parsed values, responses and the exit code are parameters or results.
- The clock (`Date.now()`), `new Date().toISOString()` and `crypto.randomUUID()` are parameters (`now`, `createdAt`, `id`).
- server/stubSwatches.js is not part of this model: the stub swatch list is a parameter of the swatch store.
- The zod library is not modelled: the schemas are predicates written out by hand, and zod's issue messages are not kept in the error entries.
- Floating point: percentages and distances are exact (`real` or integer), where the source uses IEEE doubles. Distances are squared integers, and the rounded distance of the match routes is computed exactly from them (`Math.round(Math.sqrt(d) * 100) / 100`, taken as correctly rounded).
- `parseFloat`: exponents and `Infinity` are not modelled; the cells that reach it are plain decimals, or arrays of them, read through `String()`. Of other objects only arrays are read: an object other than an array gives NaN, as `"[object Object]"` does.
- `localeCompare` in the Matsui converter's sort is taken as code-unit order, without locale collation.
- `toUpperCase` and `toLowerCase` map ASCII letters only.
- `encodeURIComponent`: lone surrogates, which would throw a `URIError`, are not modelled; a code is a sequence of code points.
- Where the source would throw a `TypeError` on a value of the wrong type, the model requires well-typed input instead. There are three kinds. A field read on a `null` record: `Patchable`, `Named`, `PctItem`, `SumRecord`, `Keyed`, `JunkReadable`, `MatsuiData.Searchable`, and `SeedIcc.Seed`'s `NoNulls` on the existing output file (`f.id` at scripts/seed-icc.js:177). A string method called on a truthy non-string: `PmsSwatch`, `HexUsable`, `MatsuiData.Searchable` (`toLowerCase` on the code or description, server/matsuiData.js:51-52) and `JunkReadable` (`startsWith` on the code, scripts/validate-data.js:141). An array method called on a truthy non-array: `filter` on the formula list when the query is not blank (the `JArr?` requirement of `MatsuiData.Search` and `GetLocalFormulas`, server/matsuiData.js:49), and `reduce` on the lines of `SumRecord` (scripts/validate-data.js:80) and the components of `JunkReadable` (scripts/validate-data.js:142). The exceptions, modelled as error values: `Invalid JSON from FN-INK API` for a `null` body or a `null` first colour; a `null` entry in the list a match route scores, which gives that route's 500 or 502 reply; the `TypeError`s of `matchPms`, which give its error message; a `null` data file of the swatch store, which falls back to the stubs; and a record of `seed-icc.js` that cannot be built, which counts as an error. The error messages of a `TypeError` are those of the V8 engine.
- Some predicates also exclude input on which the source does not throw but computes something the model leaves out; each is listed here.
- GgUsable: a fractional channel, which the source scores as it is, and a non-numeric one, which gives a NaN distance, are not modelled.
- HexUsable and MatsuiUsable: a hex that is not `#` and six hex digits, which `hexToRgb` reads with `parseInt` into NaN or partial channels, is not modelled.
- MatsuiUsable: a truthy colour field that is not a string, which the template literal converts with `String()`, is not modelled.
- HexDecided: a numeric or array `hex`, which `normalizeHex` converts with `String()` and may accept, is not modelled.
- PctItem, SumRecord and JunkReadable: a truthy percentage that is not a number (a string, `true`, an array or an object), which `+` concatenates into the sum or converts to a number, is not modelled.
- Keyed: a numeric, array or object `pms` or `series`, which the template literal converts with `String()`, is not modelled.
- Readable: a text cell holding a fractional number, and a percentage cell holding non-blank text (which `Number()` may parse, as in `Number("12.5")`) or an array, are not modelled.
- Routes: a candidate hex that fails to parse is a precondition, because the `if (!cRgb)` and `if (!fRgb)` checks at server/index.js:276 and 328 never fire. A data source that fails is not modelled, nor is the `detail` field of the 500 and 502 replies; neither are the pass-through routes (`/api/swatches`, `/api/matsui/series`, `/api/matsui/pigments`, `/api/matsui/formulas`, `/api/matsui/closest`, `/api/fnink/materials`, `/api/icc/families`, `/health`, the SPA fallback), which only forward what a modelled operation returns.
- JSON objects are maps, so the key order of written records is not modelled.
- ConvertMatsui.ComponentOfConforms: assumes every `COMP_HEX` value is six hex digits instead of proving it entry by entry, because the per-literal proof is too costly.
- PatchIccHex.SpecialtyTable: the values are not proved truthy entry by entry; the lemmas about a specialty hit quantify over the table.
- Object-literal lookups (`SPECIALTY_HEX[upper]`, `COMP_HEX[code]`) do not see `Object.prototype` names such as `constructor`.
- ConvertMatsui: `String()` and `Number()` of spreadsheet cells are modelled for the cell kinds that occur (text and numbers). The workbook's sheet selection is part of the parsed input. The `pmsMatched` and `missingHex` counters only feed a log line and are not kept.
- SeedIcc: `extractFormulaData`, which scrapes formula JSON out of raw HTML with retries, is not modelled. `extractFromHtml` is modelled from the heading and the table rows after its regular expressions have split them into cells and stripped their tags: those matches are parameters.
- ValidateData: a file that parses to a falsy value is skipped like a missing one. The console text of each check is not kept, only the counts, examples and exit code.
- IccData: a parsed file that is not an array gives no validation report in the model, where the source reports `undefined` counts; the data are cached and returned the same way.
- MatsuiData: a file that parses to `null` is cached as `null`, and the search over it gives no result, as the source's caught `TypeError` does.
- FnInkClient: the GraphQL error message is kept as the JSON value of `errors[0]?.message`; its `String()` conversion is not modelled.
- PmsColors: the `distance` field holds the squared distance, standing for its square root; the order, the ties and `Infinity` are the source's.
- MixingCards: storage is modelled as either a saved list or a corrupt entry; `JSON.stringify` followed by `JSON.parse` is taken to give back the list. React's rendering and the batching of state updates are not modelled.
- React components, the DOM script `web/app.js`, `useMixingSearch.ts` (concurrent fetches), `cmykToHex`, `getContrastColor` and `timeAgo` are presentation or wall-clock code, outside this model.
