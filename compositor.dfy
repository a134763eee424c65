/**
 * The style compositor of `create_styled_qr` (app.py:181-234): the choice of
 * branch, the gradient layer drawn row by row, and the logo pasted through a
 * mask into a copy of the rendered code. Rasters are `array2<Pixel>` indexed
 * `[x, y]` like PIL's `(x, y)` coordinates, so `Length0` is the width and
 * `Length1` the height. The rendered code, the resized logo and the disc mask
 * come from the QR renderer and PIL and are inputs here.
 */
module Compositor {
  import opened Colours

  /** An RGBA pixel. */
  datatype Pixel = Pixel(colour: Rgb, alpha: Byte)

  /** What `Image.new("RGBA", size)` fills a new image with. */
  const Transparent := Pixel(Black, 0)

  /** Opacity of every gradient line, out of 255 (app.py:229). */
  const GradientAlpha: Byte := 50

  datatype StyleKind = Classic | Gradient | Logo

  /** app.py:183-234: exactly `"logo"` and exactly `"gradient"` have their own branch; any other name renders classic. */
  function DispatchStyle(style: string): (k: StyleKind)
    ensures k == Logo <==> style == "logo"
    ensures k == Gradient <==> style == "gradient"
    ensures k == Classic <==> style != "logo" && style != "gradient"
  {
    if style == "logo" then Logo else if style == "gradient" then Gradient else Classic
  }

  // ---------------------------------------------------------------------------
  // Gradient (app.py:204-231)
  // ---------------------------------------------------------------------------

  lemma MulAtLeast(k: int, d: nat)
    requires k >= 1
    ensures k * d >= d
  {
  }

  lemma MulMonotone(k: nat, y: nat, h: nat)
    requires y <= h
    ensures k * y <= k * h
  {
  }

  lemma DivMonotone(a: nat, b: nat, d: nat)
    requires a <= b && d > 0
    ensures a / d <= b / d
  {
    var qa, qb := a / d, b / d;
    assert a == qa * d + a % d;
    assert b == qb * d + b % d;
    assert (qa - qb) * d == qa * d - qb * d;
    if qa > qb {
      MulAtLeast(qa - qb, d);
    }
  }

  lemma ChannelStepBound(s: Byte, y: nat, height: nat)
    requires y < height
    ensures 0 <= (255 - s) * y / height <= 255 - s
  {
    var k: nat := 255 - s;
    MulMonotone(k, y, height);
    assert k * height / height == k;
    DivMonotone(k * y, k * height, height);
  }

  /**
   * `int(s + (255 - s) * y / height)`: one channel of row `y`, going from
   * `s` at the top towards 255. The quotient is non-negative, so Python's
   * truncation is the floor division written here.
   */
  function GradientChannel(s: Byte, y: nat, height: nat): (v: Byte)
    requires y < height
    ensures s <= v
    ensures y == 0 ==> v == s
  {
    ChannelStepBound(s, y, height);
    s + (255 - s) * y / height
  }

  /** A channel never decreases from one row to a lower one. */
  lemma GradientChannelMonotone(s: Byte, y1: nat, y2: nat, height: nat)
    requires y1 <= y2 < height
    ensures GradientChannel(s, y1, height) <= GradientChannel(s, y2, height)
  {
    MulMonotone(255 - s, y1, y2);
    DivMonotone((255 - s) * y1, (255 - s) * y2, height);
  }

  /** The colour of gradient row `y` of a layer `height` rows tall. */
  function GradientRow(start: Rgb, y: nat, height: nat): Rgb
    requires y < height
  {
    Rgb(GradientChannel(start.r, y, height), GradientChannel(start.g, y, height), GradientChannel(start.b, y, height))
  }

  predicate ChannelsAtMost(a: Rgb, b: Rgb) {
    a.r <= b.r && a.g <= b.g && a.b <= b.b
  }

  /**
   * The gradient runs from the start colour towards white: row 0 is the
   * start colour, every row lies between start and white, and rows only
   * get lighter going down.
   */
  lemma GradientRows(start: Rgb, y1: nat, y2: nat, height: nat)
    requires y1 <= y2 < height
    ensures GradientRow(start, 0, height) == start
    ensures ChannelsAtMost(start, GradientRow(start, y1, height)) && ChannelsAtMost(GradientRow(start, y1, height), White)
    ensures ChannelsAtMost(GradientRow(start, y1, height), GradientRow(start, y2, height))
  {
    GradientChannelMonotone(start.r, y1, y2, height);
    GradientChannelMonotone(start.g, y1, y2, height);
    GradientChannelMonotone(start.b, y1, y2, height);
  }

  /** `draw.line([(0, y), (width, y)], fill=p)`: a one-pixel line across row `y`, clipped at the right edge. */
  method DrawRow(layer: array2<Pixel>, y: nat, p: Pixel)
    requires y < layer.Length1
    modifies layer
    ensures forall x, y' :: 0 <= x < layer.Length0 && 0 <= y' < layer.Length1 ==>
      layer[x, y'] == if y' == y then p else old(layer[x, y'])
  {
    var x := 0;
    while x < layer.Length0
      invariant 0 <= x <= layer.Length0
      invariant forall i, j :: 0 <= i < layer.Length0 && 0 <= j < layer.Length1 ==>
        layer[i, j] == if j == y && i < x then p else old(layer[i, j])
    {
      layer[x, y] := p;
      x := x + 1;
    }
  }

  /**
   * app.py:208-229: a new transparent layer the size of the code, then for
   * each row `y` a full-width line in the row's gradient colour at alpha 50.
   */
  method GradientLayer(width: nat, height: nat, start: Rgb) returns (layer: array2<Pixel>)
    ensures fresh(layer) && layer.Length0 == width && layer.Length1 == height
    ensures forall x, y :: 0 <= x < width && 0 <= y < height ==>
      layer[x, y] == Pixel(GradientRow(start, y, height), GradientAlpha)
  {
    layer := new Pixel[width, height]((x, y) => Transparent);
    for y := 0 to height
      invariant forall i, j :: 0 <= i < width && 0 <= j < height ==>
        layer[i, j] == if j < y then Pixel(GradientRow(start, j, height), GradientAlpha) else Transparent
    {
      DrawRow(layer, y, Pixel(GradientRow(start, y, height), GradientAlpha));
    }
  }

  // ---------------------------------------------------------------------------
  // Logo (app.py:183-202)
  // ---------------------------------------------------------------------------

  /**
   * `int(width * 0.25)`: 0.25 is exact in binary floating point, so this is
   * a quarter of the width rounded down.
   */
  function CentreSize(width: nat): (c: nat)
    ensures 4 * c <= width < 4 * c + 4
  {
    width / 4
  }

  /**
   * The paste offset `((W - c) // 2, (H - c) // 2)` (app.py:199). Horizontally
   * the square always fits and its left and right margins differ by at most
   * one pixel; vertically it fits exactly when the canvas is at least `c`
   * tall, as the square canvas of a QR code is. Python's `//` floors, as
   * Dafny's `/` does for a positive divisor.
   */
  function LogoOffset(width: nat, height: nat): (o: (int, int))
    ensures 0 <= o.0 && o.0 + CentreSize(width) <= width
    ensures 0 <= (width - (o.0 + CentreSize(width))) - o.0 <= 1
    ensures (0 <= o.1 && o.1 + CentreSize(width) <= height) <==> CentreSize(width) <= height
    ensures CentreSize(width) <= height ==> 0 <= (height - (o.1 + CentreSize(width))) - o.1 <= 1
  {
    var c := CentreSize(width);
    ((width - c) / 2, (height - c) / 2)
  }

  /** Whether a masked paste at `(ox, oy)` writes canvas pixel `(x, y)`: it lies in the mask's square and the mask is set there. */
  predicate Covered(mask: array2<bool>, ox: int, oy: int, x: int, y: int)
    reads mask
  {
    0 <= x - ox < mask.Length0 && 0 <= y - oy < mask.Length1 && mask[x - ox, y - oy]
  }

  /**
   * `img.paste(logo, (ox, oy), mask=mask)` with a two-valued mask: where the
   * mask is set the logo pixel replaces the canvas pixel, everywhere else
   * (outside the square, or under a clear mask pixel) the canvas keeps its
   * pixel; parts of the square beyond the canvas are clipped.
   */
  method PasteMasked(img: array2<Pixel>, logo: array2<Pixel>, mask: array2<bool>, ox: int, oy: int)
    requires logo != img
    requires logo.Length0 == mask.Length0 && logo.Length1 == mask.Length1
    modifies img
    ensures forall x, y :: 0 <= x < img.Length0 && 0 <= y < img.Length1 ==>
      img[x, y] == if Covered(mask, ox, oy, x, y) then logo[x - ox, y - oy] else old(img[x, y])
  {
    for j := 0 to mask.Length1
      invariant forall x, y :: 0 <= x < img.Length0 && 0 <= y < img.Length1 ==>
        img[x, y] == if Covered(mask, ox, oy, x, y) && y - oy < j then logo[x - ox, y - oy] else old(img[x, y])
    {
      for i := 0 to mask.Length0
        invariant forall x, y :: 0 <= x < img.Length0 && 0 <= y < img.Length1 ==>
          img[x, y] ==
            if Covered(mask, ox, oy, x, y) && (y - oy < j || (y - oy == j && x - ox < i))
            then logo[x - ox, y - oy] else old(img[x, y])
      {
        if 0 <= ox + i < img.Length0 && 0 <= oy + j < img.Length1 && mask[i, j] {
          img[ox + i, oy + j] := logo[i, j];
        }
      }
    }
  }

  /** `base.copy()`: a new raster with the same size and pixels. */
  method CopyRaster(base: array2<Pixel>) returns (img: array2<Pixel>)
    ensures fresh(img) && img.Length0 == base.Length0 && img.Length1 == base.Length1
    ensures forall x, y :: 0 <= x < img.Length0 && 0 <= y < img.Length1 ==> img[x, y] == base[x, y]
  {
    img := new Pixel[base.Length0, base.Length1]((x, y) reads base
      requires 0 <= x < base.Length0 && 0 <= y < base.Length1 => base[x, y]);
  }

  /**
   * app.py:190-202: the logo, already resized to the centre square, is
   * pasted through the disc mask at the centred offset into a copy of the
   * rendered code; the rendered code itself is left as it was.
   */
  method ComposeLogo(base: array2<Pixel>, logo: array2<Pixel>, mask: array2<bool>) returns (img: array2<Pixel>)
    requires logo.Length0 == logo.Length1 == CentreSize(base.Length0)
    requires mask.Length0 == mask.Length1 == CentreSize(base.Length0)
    ensures fresh(img) && img.Length0 == base.Length0 && img.Length1 == base.Length1
    ensures unchanged(base)
    ensures forall x, y :: 0 <= x < img.Length0 && 0 <= y < img.Length1 ==>
      img[x, y] ==
        if Covered(mask, LogoOffset(base.Length0, base.Length1).0, LogoOffset(base.Length0, base.Length1).1, x, y)
        then logo[x - LogoOffset(base.Length0, base.Length1).0, y - LogoOffset(base.Length0, base.Length1).1]
        else base[x, y]
  {
    var offset := LogoOffset(base.Length0, base.Length1);
    img := CopyRaster(base);
    PasteMasked(img, logo, mask, offset.0, offset.1);
  }

  /**
   * The image a style produces. The gradient is the rendered code with the
   * gradient layer composited over it (`Image.alpha_composite`); the blend
   * itself is PIL's and is kept as the pair of its operands.
   */
  datatype StyledImage = Flat(image: array2<Pixel>) | Overlaid(under: array2<Pixel>, layer: array2<Pixel>)

  /**
   * The branch of `create_styled_qr` that draws: `base` is the code rendered
   * in the chosen fill and background, `fill` the fill colour string, and
   * `logo`/`mask` the resized logo and its disc mask (used by the logo
   * style only).
   */
  method RenderStyle(style: string, base: array2<Pixel>, fill: string, logo: array2<Pixel>, mask: array2<bool>)
    returns (out: StyledImage)
    requires DispatchStyle(style) == Logo ==>
      logo.Length0 == logo.Length1 == mask.Length0 == mask.Length1 == CentreSize(base.Length0)
    ensures unchanged(base)
    ensures DispatchStyle(style) == Classic ==> out == Flat(base)
    ensures DispatchStyle(style) == Gradient ==>
      out.Overlaid? && out.under == base && fresh(out.layer) &&
      out.layer.Length0 == base.Length0 && out.layer.Length1 == base.Length1 &&
      forall x, y :: 0 <= x < base.Length0 && 0 <= y < base.Length1 ==>
        out.layer[x, y] == Pixel(GradientRow(StartColour(fill), y, base.Length1), GradientAlpha)
    ensures DispatchStyle(style) == Logo ==>
      out.Flat? && fresh(out.image) &&
      out.image.Length0 == base.Length0 && out.image.Length1 == base.Length1 &&
      forall x, y :: 0 <= x < base.Length0 && 0 <= y < base.Length1 ==>
        out.image[x, y] ==
          if Covered(mask, LogoOffset(base.Length0, base.Length1).0, LogoOffset(base.Length0, base.Length1).1, x, y)
          then logo[x - LogoOffset(base.Length0, base.Length1).0, y - LogoOffset(base.Length0, base.Length1).1]
          else base[x, y]
  {
    match DispatchStyle(style)
    case Logo =>
      var img := ComposeLogo(base, logo, mask);
      out := Flat(img);
    case Gradient =>
      var layer := GradientLayer(base.Length0, base.Length1, StartColour(fill));
      out := Overlaid(base, layer);
    case Classic =>
      out := Flat(base);
  }
}
