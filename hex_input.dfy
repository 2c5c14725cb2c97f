/** The hex field of the UI: what the user typed, the colour previewed for it and
    whether it is accepted.  The effect that runs after every change of the input
    is `Refresh`; `NormalizedHex` is derived from the input alone. */
module HexInput {
  import opened Wrappers
  import opened JsText
  import ServerColor

  const DefaultPreview := "#FF6A00"

  /** `^#?([0-9A-Fa-f]{6}|[0-9A-Fa-f]{3})$` */
  predicate UiHexPattern(t: string) {
    ((|t| == 3 || |t| == 6) && AllHex(t))
    || ((|t| == 4 || |t| == 7) && t[0] == '#' && AllHex(t[1..]))
  }

  /** The state after the effect: the preview and the validity flag. */
  datatype View = View(preview: string, valid: bool)

  /** What the effect computes from the input and the preview it replaces. */
  function Effect(input: string, previous: string): (v: View)
    ensures v.valid <==> Trim(input) == [] || UiHexPattern(Trim(input))
    ensures Trim(input) == [] ==> v.preview == DefaultPreview
    ensures !v.valid ==> v.preview == previous
    ensures v.valid && Trim(input) != [] ==> v.preview == NormalizedHexOf(input)
  {
    var hex := Trim(input);
    if hex == [] then View(DefaultPreview, true)
    else if UiHexPattern(hex) then View(WithHash(hex), true)
    else View(previous, false)
  }

  /** `normalizedHex`: the trimmed input with `#` added when it has none, whatever
      its validity and without changing case. */
  function NormalizedHexOf(input: string): (r: string)
    ensures r != [] && r[0] == '#'
    ensures r == Trim(input) || r == "#" + Trim(input)
  {
    WithHash(Trim(input))
  }

  /** A preview is always a `#`-string: the default, or an accepted input with `#`. */
  predicate IsPreview(p: string) { p != [] && p[0] == '#' }

  lemma EffectKeepsPreview(input: string, previous: string)
    requires IsPreview(previous)
    ensures IsPreview(Effect(input, previous).preview)
  {
  }

  /** A valid preview begins with `#` followed by the 3 or 6 digits typed. */
  lemma {:induction false} ValidPreviewDigits(input: string, previous: string)
    requires Effect(input, previous).valid && Trim(input) != []
    ensures var p := Effect(input, previous).preview;
      (|p| == 4 || |p| == 7) && p[0] == '#' && AllHex(p[1..])
  {
    var hex := Trim(input);
    if !StartsWith(hex, "#") {
      var p := "#" + hex;
      assert p[1..] == hex;
      assert hex[0] != '#';
    }
  }

  class HexField {
    var hexInput: string
    var previewColor: string
    var isValid: bool

    ghost predicate Valid()
      reads this
    {
      IsPreview(previewColor)
    }

    /** `useHexInput(initialValue)`: the input starts as given (or empty) and the
        effect runs once after mounting. */
    constructor (initialValue: Option<string>)
      ensures Valid()
      ensures hexInput == (if initialValue.Some? then initialValue.value else [])
      ensures View(previewColor, isValid) == Effect(hexInput, DefaultPreview)
    {
      hexInput := if initialValue.Some? then initialValue.value else [];
      var v := Effect(if initialValue.Some? then initialValue.value else [], DefaultPreview);
      previewColor := v.preview;
      isValid := v.valid;
    }

    /** The effect on `[hexInput]`. */
    method Refresh()
      requires Valid()
      modifies this
      ensures Valid()
      ensures hexInput == old(hexInput)
      ensures View(previewColor, isValid) == Effect(hexInput, old(previewColor))
    {
      var hex := Trim(hexInput);
      if hex == [] {
        previewColor := DefaultPreview;
        isValid := true;
        return;
      }
      if UiHexPattern(hex) {
        previewColor := WithHash(hex);
        isValid := true;
      } else {
        isValid := false;
      }
    }

    /** `setHexInput(s)` followed by the effect it triggers. */
    method SetHexInput(s: string)
      requires Valid()
      modifies this
      ensures Valid()
      ensures hexInput == s
      ensures View(previewColor, isValid) == Effect(s, old(previewColor))
    {
      hexInput := s;
      Refresh();
    }

    function NormalizedHex(): string
      reads this
    {
      NormalizedHexOf(hexInput)
    }
  }

  /** Every input the server's `normalizeHex` accepts is accepted here too. */
  lemma ServerAcceptedIsValid(input: string)
    requires ServerColor.NormalizeHex(input).Some?
    ensures Effect(input, DefaultPreview).valid
  {
    ServerColor.NormalizeHexAccepts(input);
  }

  /** The converse fails: a 3-digit hex is valid here and rejected by the server. */
  lemma ThreeDigitsOnlyHere()
    ensures Effect("F0A", DefaultPreview).valid
    ensures ServerColor.NormalizeHex("F0A").None?
  {
    TrimOfTrimmed("F0A");
    ServerColor.RejectTrimmedLength("F0A");
  }
}
