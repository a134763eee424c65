/**
 * Colours: the `#rrggbb` strings `extract_dominant_colors` produces
 * (app.py:148-160), the choice of fill and background from them
 * (app.py:169-171), and the reading of the fill colour back into RGB for the
 * gradient (app.py:213-217).
 */
module Colours {
  import opened Results
  import opened Text

  /** One 8-bit colour channel. */
  type Byte = x: int | 0 <= x < 256

  datatype Rgb = Rgb(r: Byte, g: Byte, b: Byte)

  const Black := Rgb(0, 0, 0)
  const White := Rgb(255, 255, 255)

  /** The value of two hexadecimal digits of either case, high digit first. */
  function PairValue(hi: char, lo: char): (v: Byte)
    requires HexDigitValue(hi).Some? && HexDigitValue(lo).Some?
  {
    16 * HexDigitValue(hi).value + HexDigitValue(lo).value
  }

  /**
   * Reading a colour string, as `ImageColor.getrgb` does for the six-digit
   * form: `#` followed by six hexadecimal digits of either case, two per
   * channel; `None` where it raises.
   */
  function ParseHex(s: string): (c: Option<Rgb>)
    ensures c.Some? <==> |s| == 7 && s[0] == '#' && forall i :: 1 <= i < 7 ==> HexDigitValue(s[i]).Some?
    ensures c.Some? ==> c.value == Rgb(PairValue(s[1], s[2]), PairValue(s[3], s[4]), PairValue(s[5], s[6]))
  {
    if |s| != 7 || s[0] != '#' then None
    else
      assert forall i :: 1 <= i < 3 ==> s[1..3][i - 1] == s[i];
      assert forall i :: 3 <= i < 5 ==> s[3..5][i - 3] == s[i];
      assert forall i :: 5 <= i < 7 ==> s[5..7][i - 5] == s[i];
      match (HexValue(s[1..3]), HexValue(s[3..5]), HexValue(s[5..7]))
      case (Some(r), Some(g), Some(b)) =>
        HexValuePair(s[1..3]);
        HexValuePair(s[3..5]);
        HexValuePair(s[5..7]);
        Some(Rgb(r, g, b))
      case _ => None
  }

  /**
   * `'#%02x%02x%02x' % color`: the six-digit hex notation of CSS Color
   * Module Level 4, section 5.2, in lower case. Reading it back gives the
   * same colour.
   */
  function FormatHex(c: Rgb): (s: string)
    ensures |s| == 7 && s[0] == '#'
    ensures forall i :: 1 <= i < 7 ==> IsLowerHex(s[i])
    ensures ParseHex(s) == Some(c)
  {
    assert Pow16(2) == 256;
    var r, g, b := FixedHex(c.r, 2), FixedHex(c.g, 2), FixedHex(c.b, 2);
    var s := "#" + r + g + b;
    assert s[1..3] == r && s[3..5] == g && s[5..7] == b;
    HexRoundTrip(c.r, 2);
    HexRoundTrip(c.g, 2);
    HexRoundTrip(c.b, 2);
    s
  }

  /** What ColorThief gave back: not installed, raised, or a palette (most dominant first). */
  datatype PaletteSource = ThiefUnavailable | ThiefFailed | Extracted(colours: seq<Rgb>)

  const FallbackPalette: seq<string> := ["#000000", "#FFFFFF"]

  /**
   * `extract_dominant_colors`: one hex string per extracted colour, in
   * order, each reading back as that colour; the fixed two-entry fallback
   * when ColorThief is unavailable or raises.
   */
  function DominantColours(source: PaletteSource): (palette: seq<string>)
    ensures !source.Extracted? ==> palette == FallbackPalette
    ensures source.Extracted? ==>
      |palette| == |source.colours| &&
      forall i :: 0 <= i < |palette| ==> ParseHex(palette[i]) == Some(source.colours[i])
  {
    match source
    case Extracted(colours) => seq(|colours|, i requires 0 <= i < |colours| => FormatHex(colours[i]))
    case _ => FallbackPalette
  }

  /** The fill and background colour strings handed to the QR renderer. */
  datatype QrColours = QrColours(fill: string, back: string)

  /**
   * app.py:170-171: the fill is the first entry, the background the second
   * or `#FFFFFF` when there is only one; `colors[0]` raises `IndexError` on
   * an empty palette, which is `None` here.
   */
  function ChooseColours(palette: seq<string>): (o: Option<QrColours>)
    ensures o.None? <==> palette == []
    ensures o.Some? ==> o.value.fill == palette[0]
    ensures o.Some? ==> o.value.back == (if |palette| > 1 then palette[1] else "#FFFFFF")
  {
    if palette == [] then None
    else Some(QrColours(palette[0], if |palette| > 1 then palette[1] else "#FFFFFF"))
  }

  /** The gradient's start colour (app.py:213-217): the fill read as RGB, or black where reading it fails. */
  function StartColour(fill: string): (c: Rgb)
    ensures ParseHex(fill).Some? ==> c == ParseHex(fill).value
    ensures ParseHex(fill).None? ==> c == Black
  {
    match ParseHex(fill)
    case Some(rgb) => rgb
    case None => Black
  }

  /** Without ColorThief the code is black on white, and the gradient starts from black. */
  lemma FallbackColours(source: PaletteSource)
    requires !source.Extracted?
    ensures ChooseColours(DominantColours(source)) == Some(QrColours("#000000", "#FFFFFF"))
    ensures StartColour("#000000") == Black
    ensures ParseHex("#FFFFFF") == Some(White)
  {
  }

  /**
   * The colours actually used for a palette source: a successful extraction
   * of at least one colour fills with its most dominant colour (so the
   * gradient starts there) and, when only one colour came back, uses
   * `#FFFFFF` as background; the fallback starts the gradient at black.
   */
  lemma {:induction false} ChosenColours(source: PaletteSource)
    requires !source.Extracted? || source.colours != []
    ensures ChooseColours(DominantColours(source)).Some?
    ensures StartColour(ChooseColours(DominantColours(source)).value.fill)
      == if source.Extracted? then source.colours[0] else Black
    ensures source.Extracted? && |source.colours| == 1 ==>
      ChooseColours(DominantColours(source)).value.back == "#FFFFFF"
    ensures source.Extracted? && |source.colours| > 1 ==>
      ParseHex(ChooseColours(DominantColours(source)).value.back) == Some(source.colours[1])
  {
  }
}
