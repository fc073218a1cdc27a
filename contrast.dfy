/** Colour parsing and the WCAG contrast thresholds of
    website/src/theme/contrast.ts. The relative luminance itself (a
    floating-point power) is a parameter. */
module Contrast {
  import opened Wrappers
  import opened Strings

  datatype Rgb = Rgb(r: int, g: int, b: int)

  /** A character the pattern `[a-f\d]` accepts under the `i` flag. */
  predicate IsHexDigit(c: char) {
    '0' <= c <= '9' || 'a' <= c <= 'f' || 'A' <= c <= 'F'
  }

  function HexDigitValue(c: char): (v: int)
    requires IsHexDigit(c)
    ensures 0 <= v < 16
  {
    if '0' <= c <= '9' then c as int - '0' as int
    else if 'a' <= c <= 'f' then c as int - 'a' as int + 10
    else c as int - 'A' as int + 10
  }

  /** `parseInt(pair, 16)` for two hex digits. */
  function PairValue(hi: char, lo: char): (v: int)
    requires IsHexDigit(hi) && IsHexDigit(lo)
    ensures 0 <= v <= 255
    ensures v / 16 == HexDigitValue(hi) && v % 16 == HexDigitValue(lo)
  {
    16 * HexDigitValue(hi) + HexDigitValue(lo)
  }

  predicate AllHex(s: string) {
    forall i :: 0 <= i < |s| ==> IsHexDigit(s[i])
  }

  /** The text the pattern `^#?([a-f\d]{2})([a-f\d]{2})([a-f\d]{2})$`
      matches (case-insensitively): six hex digits, after an optional `#`. */
  predicate IsHexColour(hex: string) {
    (|hex| == 6 && AllHex(hex)) || (|hex| == 7 && hex[0] == '#' && AllHex(hex[1..]))
  }

  /** `hexToRgb`: `null` unless the text is a hex colour; otherwise the three
      two-digit pairs read in base 16. */
  function HexToRgb(hex: string): (r: Option<Rgb>)
    ensures r.Some? <==> IsHexColour(hex)
    ensures r.Some? ==> 0 <= r.value.r <= 255 && 0 <= r.value.g <= 255 && 0 <= r.value.b <= 255
    ensures r.Some? ==> var d := hex[|hex| - 6..];
      r.value == Rgb(PairValue(d[0], d[1]), PairValue(d[2], d[3]), PairValue(d[4], d[5]))
  {
    var digits := if |hex| == 7 && hex[0] == '#' then hex[1..] else hex;
    if |digits| == 6 && AllHex(digits) then
      Some(Rgb(PairValue(digits[0], digits[1]), PairValue(digits[2], digits[3]), PairValue(digits[4], digits[5])))
    else None
  }

  /** The lower-case hex digit for `0 <= v < 16`. */
  function HexDigit(v: int): (c: char)
    requires 0 <= v < 16
    ensures IsHexDigit(c) && HexDigitValue(c) == v
  {
    if v < 10 then ('0' as int + v) as char else ('a' as int + v - 10) as char
  }

  /** A component as two lower-case hex digits. */
  function PairText(v: int): (s: string)
    requires 0 <= v <= 255
    ensures |s| == 2 && AllHex(s) && PairValue(s[0], s[1]) == v
  {
    [HexDigit(v / 16), HexDigit(v % 16)]
  }

  /** A colour as `#rrggbb`. */
  function RgbToHex(c: Rgb): (s: string)
    requires 0 <= c.r <= 255 && 0 <= c.g <= 255 && 0 <= c.b <= 255
    ensures |s| == 7 && s[0] == '#'
  {
    "#" + PairText(c.r) + PairText(c.g) + PairText(c.b)
  }

  /** Reading back a written colour gives the colour, with or without `#`. */
  lemma HexRoundTrip(c: Rgb)
    requires 0 <= c.r <= 255 && 0 <= c.g <= 255 && 0 <= c.b <= 255
    ensures HexToRgb(RgbToHex(c)) == Some(c)
    ensures HexToRgb(RgbToHex(c)[1..]) == Some(c)
  {
    var s := RgbToHex(c);
    var d := PairText(c.r) + PairText(c.g) + PairText(c.b);
    assert s[1..] == d;
    assert AllHex(d);
    assert d[0..2] == PairText(c.r) && d[2..4] == PairText(c.g) && d[4..6] == PairText(c.b);
    assert d[0] == PairText(c.r)[0] && d[1] == PairText(c.r)[1];
    assert d[2] == PairText(c.g)[0] && d[3] == PairText(c.g)[1];
    assert d[4] == PairText(c.b)[0] && d[5] == PairText(c.b)[1];
  }

  /** Lower-casing a colour does not change what it parses to. */
  lemma CaseInsensitive(hex: string)
    ensures HexToRgb(ToLower(hex)) == HexToRgb(hex)
  {
    var low := ToLower(hex);
    if |hex| == 7 && hex[0] == '#' {
      assert low[0] == '#';
      assert low[1..] == ToLower(hex[1..]) by {
        LowerSlice(hex, 1);
      }
      LowerDigits(hex[1..]);
    } else if |hex| == 7 {
      assert low[0] != '#';
    } else {
      LowerDigits(hex);
    }
  }

  lemma LowerSlice(s: string, k: int)
    requires 0 <= k <= |s|
    ensures ToLower(s)[k..] == ToLower(s[k..])
  {
    forall i | 0 <= i < |s| - k
      ensures ToLower(s)[k..][i] == ToLower(s[k..])[i]
    {
      assert s[k..][i] == s[k + i];
    }
  }

  /** Six characters are hex digits after lower-casing exactly when they were
      before, and the three pairs keep their values. */
  lemma LowerDigits(d: string)
    ensures AllHex(ToLower(d)) <==> AllHex(d)
    ensures |d| == 6 && AllHex(d) ==>
      var l := ToLower(d);
      PairValue(l[0], l[1]) == PairValue(d[0], d[1]) &&
      PairValue(l[2], l[3]) == PairValue(d[2], d[3]) &&
      PairValue(l[4], l[5]) == PairValue(d[4], d[5])
  {
    var l := ToLower(d);
    forall i | 0 <= i < |d|
      ensures IsHexDigit(l[i]) <==> IsHexDigit(d[i])
      ensures IsHexDigit(d[i]) ==> HexDigitValue(l[i]) == HexDigitValue(d[i])
    {
      LowerHexDigit(d[i]);
    }
  }

  lemma LowerHexDigit(c: char)
    ensures IsHexDigit(Lower(c)) <==> IsHexDigit(c)
    ensures IsHexDigit(c) ==> HexDigitValue(Lower(c)) == HexDigitValue(c)
  {
  }

  // ---------------------------------------------------------------------------
  // Contrast
  // ---------------------------------------------------------------------------

  /** `getContrastRatio`, given the relative luminance of a colour (between
      0 and 1): exactly 1 when either colour does not parse, otherwise the
      lighter luminance plus 0.05 over the darker plus 0.05. */
  function ContrastRatio(colour1: string, colour2: string, luminance: Rgb -> real): (ratio: real)
    requires forall c :: 0.0 <= luminance(c) <= 1.0
    ensures HexToRgb(colour1).None? || HexToRgb(colour2).None? ==> ratio == 1.0
    ensures 1.0 <= ratio <= 21.0
  {
    var rgb1 := HexToRgb(colour1);
    var rgb2 := HexToRgb(colour2);
    if rgb1.None? || rgb2.None? then 1.0
    else
      var lum1 := luminance(rgb1.value);
      var lum2 := luminance(rgb2.value);
      var lighter := if lum1 >= lum2 then lum1 else lum2;
      var darker := if lum1 >= lum2 then lum2 else lum1;
      RatioBounds(lighter, darker);
      (lighter + 0.05) / (darker + 0.05)
  }

  /** The ratio of the shifted luminances lies between 1 and 21. */
  lemma RatioBounds(lighter: real, darker: real)
    requires 0.0 <= darker <= lighter <= 1.0
    ensures 1.0 <= (lighter + 0.05) / (darker + 0.05) <= 21.0
  {
    var q := (lighter + 0.05) / (darker + 0.05);
    assert q * (darker + 0.05) == lighter + 0.05;
    if q < 1.0 {
      assert (1.0 - q) * (darker + 0.05) == (darker + 0.05) - q * (darker + 0.05);
      PositiveProduct(1.0 - q, darker + 0.05);
    }
    if q > 21.0 {
      assert (q - 21.0) * (darker + 0.05) == q * (darker + 0.05) - 21.0 * (darker + 0.05);
      PositiveProduct(q - 21.0, darker + 0.05);
    }
  }

  lemma PositiveProduct(x: real, y: real)
    requires x > 0.0 && y > 0.0
    ensures x * y > 0.0
  {
  }

  /** The ratio does not depend on the order of the two colours. */
  lemma ContrastSymmetric(colour1: string, colour2: string, luminance: Rgb -> real)
    requires forall c :: 0.0 <= luminance(c) <= 1.0
    ensures ContrastRatio(colour1, colour2, luminance) == ContrastRatio(colour2, colour1, luminance)
  {
  }

  /** `meetsWCAGAA`. */
  function MeetsWcagAA(ratio: real, isLargeText: bool): (r: bool)
    ensures isLargeText ==> (r <==> ratio >= 3.0)
    ensures !isLargeText ==> (r <==> ratio >= 4.5)
  {
    if isLargeText then ratio >= 3.0 else ratio >= 4.5
  }

  /** `meetsWCAGAAA`. */
  function MeetsWcagAAA(ratio: real, isLargeText: bool): (r: bool)
    ensures isLargeText ==> (r <==> ratio >= 4.5)
    ensures !isLargeText ==> (r <==> ratio >= 7.0)
  {
    if isLargeText then ratio >= 4.5 else ratio >= 7.0
  }

  /** AAA is the stricter level, and normal text the stricter size: a pass at
      AAA is a pass at AA, and a normal-text pass is a large-text pass. Large
      text at AAA asks exactly what normal text at AA does. */
  lemma WcagLevelsNest(ratio: real, isLargeText: bool)
    ensures MeetsWcagAAA(ratio, isLargeText) ==> MeetsWcagAA(ratio, isLargeText)
    ensures MeetsWcagAA(ratio, false) ==> MeetsWcagAA(ratio, true)
    ensures MeetsWcagAAA(ratio, false) ==> MeetsWcagAAA(ratio, true)
    ensures MeetsWcagAAA(ratio, true) == MeetsWcagAA(ratio, false)
  {
  }

  /** An unparsable colour never passes normal-text AA: its ratio is 1. */
  lemma InvalidColourFails(colour1: string, colour2: string, luminance: Rgb -> real)
    requires forall c :: 0.0 <= luminance(c) <= 1.0
    requires !IsHexColour(colour1)
    ensures !MeetsWcagAA(ContrastRatio(colour1, colour2, luminance), false)
    ensures !MeetsWcagAA(ContrastRatio(colour1, colour2, luminance), true)
  {
  }
}
