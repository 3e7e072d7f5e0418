/**
 * The geometry of `SimpleLabel.generate` (app/labeldesigner/label.py):
 * how far an image is scaled to fit, how large an endless label grows,
 * where the image and the text block are placed, when a preview is
 * turned and whether the border rectangle is valid.
 *
 * Python mixes integers and floats here (`/`, `* 1.25`, `* 1.1`); the
 * model computes on exact reals and applies `//` (floor) and `int()`
 * (truncation) explicitly.
 */
module LabelLayout {
  import opened Wrappers

  datatype Content =
    | TextOnly | QrCodeOnly | TextQrCode
    | ImageBw | ImageGrayscale | ImageRedBlack | ImageColored
  {
    /** The kinds whose picture is a QR code or a barcode. */
    predicate IsCode() { QrCodeOnly? || TextQrCode? }
    /** The kinds whose picture is an uploaded image. */
    predicate IsImage() { ImageBw? || ImageGrayscale? || ImageRedBlack? || ImageColored? }
    /** The kinds that print the text lines. */
    predicate ShowsText() { TextOnly? || TextQrCode? }
  }

  datatype Orientation = Standard | Rotated

  datatype LabelType = EndlessLabel | DieCutLabel | RoundDieCutLabel {
    predicate IsDieCut() { DieCutLabel? || RoundDieCutLabel? }
  }

  /** `label_margin`, in the order the constructor takes it. */
  datatype Margins = Margins(left: int, right: int, top: int, bottom: int)

  /** The pixel size of a bitmap. */
  datatype Pixels = Pixels(w: nat, h: nat)

  /** The extent of the text block, `(x0, y0, x1, y1)`. */
  datatype Extent = Extent(left: real, top: real, right: real, bottom: real)

  const NoText := Extent(0.0, 0.0, 0.0, 0.0)

  datatype Point = Point(x: real, y: real)

  /** Width and height of the label before the canvas is allocated. */
  datatype Dims = Dims(w: real, h: real)

  datatype Placement = Placement(text: Point, image: Point)

  datatype Rect = Rect(x0: int, y0: int, x1: int, y1: int)

  // ---------------------------------------------------------------------------
  // Python arithmetic

  /** `x // 2` on an int or a float. */
  function FloorHalf(x: real): (r: real)
    ensures 2.0 * r <= x < 2.0 * r + 2.0
  {
    (x / 2.0).Floor as real
  }

  /** `int(x)` on a float: truncation toward zero. */
  function Trunc(x: real): (r: int)
    ensures x >= 0.0 ==> r as real <= x < r as real + 1.0
    ensures x < 0.0 ==> r as real - 1.0 < x <= r as real
  {
    if x >= 0.0 then x.Floor else -((-x).Floor)
  }

  function MaxInt(a: int, b: int): int { if a >= b then a else b }
  function MinReal(a: real, b: real): real { if a <= b then a else b }
  function MaxReal(a: real, b: real): real { if a >= b then a else b }

  // ---------------------------------------------------------------------------
  // Fitting the image (label.py:170-208)

  /** The room between the left and right margins, at least 1. */
  function MaxWidth(width: int, m: Margins): (r: int)
    ensures r >= 1 && r >= width - m.left - m.right
    ensures r == width - m.left - m.right || r == 1
  {
    MaxInt(width - m.left - m.right, 1)
  }

  /** The room between the top and bottom margins, at least 1. */
  function MaxHeight(height: int, m: Margins): (r: int)
    ensures r >= 1 && r >= height - m.top - m.bottom
    ensures r == height - m.top - m.bottom || r == 1
  {
    MaxInt(height - m.top - m.bottom, 1)
  }

  /** Whether the room across the width limits the image. */
  predicate WidthLimited(o: Orientation, t: LabelType) {
    (o == Standard && t == EndlessLabel) || t.IsDieCut()
  }

  /** Whether the room along the height limits the image. */
  predicate HeightLimited(o: Orientation, t: LabelType) {
    (o == Rotated && t == EndlessLabel) || t.IsDieCut()
  }

  const ZeroDivision := "division by zero"

  /**
   * The uniform scale factor: the smallest of the ratios that apply and
   * 1.0.  A ratio whose image side is 0 raises ZeroDivisionError.
   */
  function FitScale(o: Orientation, t: LabelType, maxW: int, maxH: int, img: Pixels): (r: Result<real>)
    requires maxW >= 1 && maxH >= 1
    ensures r.Err? <==> (WidthLimited(o, t) && img.w == 0) || (HeightLimited(o, t) && img.h == 0)
    ensures r.Ok? ==> 0.0 < r.value <= 1.0
    ensures r.Ok? && WidthLimited(o, t) ==> r.value <= maxW as real / img.w as real
    ensures r.Ok? && HeightLimited(o, t) ==> r.value <= maxH as real / img.h as real
  {
    if o == Standard && t == EndlessLabel then
      if img.w == 0 then Err(ZeroDivision)
      else Ok(MinReal(maxW as real / img.w as real, 1.0))
    else if o == Rotated && t == EndlessLabel then
      if img.h == 0 then Err(ZeroDivision)
      else Ok(MinReal(maxH as real / img.h as real, 1.0))
    else if img.w == 0 || img.h == 0 then Err(ZeroDivision)
    else Ok(MinReal(MinReal(maxW as real / img.w as real, maxH as real / img.h as real), 1.0))
  }

  /** `(int(img_width * scale), int(img_height * scale))`. */
  function Scaled(img: Pixels, scale: real): (r: Pixels)
    requires 0.0 < scale <= 1.0
    ensures r.w <= img.w && r.h <= img.h
  {
    Pixels(ScaleSide(img.w, scale), ScaleSide(img.h, scale))
  }

  /** `int(side * scale)`. */
  function ScaleSide(side: nat, scale: real): (r: nat)
    requires 0.0 < scale <= 1.0
    ensures r <= side
  {
    ScaledSide(side, scale);
    Trunc(side as real * scale)
  }

  /** A scale no larger than `limit / side` keeps `side` within `limit`. */
  lemma RatioBound(limit: int, side: nat, scale: real)
    requires side > 0 && 0.0 < scale <= 1.0 && scale <= limit as real / side as real
    ensures ScaleSide(side, scale) <= limit
  {
    var q := limit as real / side as real;
    assert q * side as real == limit as real;
    assert side as real * scale <= side as real * q;
  }

  lemma ScaledSide(n: nat, scale: real)
    requires 0.0 < scale <= 1.0
    ensures 0 <= Trunc(n as real * scale) <= n
  {
    assert 0.0 <= n as real * scale <= n as real;
  }

  /** What PIL's `resize` raises for a new size with a side of 0. */
  const ResizeEmpty := "height and width must be > 0"

  /**
   * The image size after the optional fit (label.py:165-210). `resize`
   * returns a copy when the size is unchanged, and otherwise refuses a
   * side of 0.
   */
  function FitImage(o: Orientation, t: LabelType, width: int, height: int, m: Margins, fit: bool, img: Pixels): Result<Pixels> {
    if !fit then Ok(img)
    else
      var scale :- FitScale(o, t, MaxWidth(width, m), MaxHeight(height, m), img);
      var sized := Scaled(img, scale);
      if sized != img && (sized.w == 0 || sized.h == 0) then Err(ResizeEmpty) else Ok(sized)
  }

  /**
   * The fit never enlarges, it respects every limit that applies, and a
   * resized image has no side of 0.
   */
  lemma FitBounds(o: Orientation, t: LabelType, width: int, height: int, m: Margins, img: Pixels)
    requires FitImage(o, t, width, height, m, true, img).Ok?
    ensures var r := FitImage(o, t, width, height, m, true, img).value;
      && r.w <= img.w && r.h <= img.h
      && (r == img || (r.w > 0 && r.h > 0))
      && (WidthLimited(o, t) ==> r.w <= MaxWidth(width, m))
      && (HeightLimited(o, t) ==> r.h <= MaxHeight(height, m))
  {
    var maxW, maxH := MaxWidth(width, m), MaxHeight(height, m);
    var fs := FitScale(o, t, maxW, maxH, img);
    var scale := fs.value;
    var r := FitImage(o, t, width, height, m, true, img).value;
    assert r == Scaled(img, scale);
    if WidthLimited(o, t) {
      RatioBound(maxW, img.w, scale);
    }
    if HeightLimited(o, t) {
      RatioBound(maxH, img.h, scale);
    }
  }

  /** An image that already fits the limits that apply keeps its size. */
  lemma FitKeepsFittingImage(o: Orientation, t: LabelType, width: int, height: int, m: Margins, img: Pixels)
    requires img.w > 0 && img.h > 0
    requires WidthLimited(o, t) ==> img.w <= MaxWidth(width, m)
    requires HeightLimited(o, t) ==> img.h <= MaxHeight(height, m)
    ensures FitImage(o, t, width, height, m, true, img) == Ok(img)
  {
    var maxW, maxH := MaxWidth(width, m), MaxHeight(height, m);
    if WidthLimited(o, t) {
      assert maxW as real / img.w as real >= 1.0;
    }
    if HeightLimited(o, t) {
      assert maxH as real / img.h as real >= 1.0;
    }
    var scale := FitScale(o, t, maxW, maxH, img).value;
    assert scale == 1.0;
  }

  /**
   * On standard endless tape an image wider than the room is scaled so that
   * it fills the room exactly.
   */
  lemma FitFillsEndlessWidth(width: int, height: int, m: Margins, img: Pixels)
    requires img.w > MaxWidth(width, m)
    ensures var r := FitImage(Standard, EndlessLabel, width, height, m, true, img);
      && (r.Err? <==> img.h * MaxWidth(width, m) < img.w)
      && (r.Err? ==> r.msg == ResizeEmpty)
      && (r.Ok? ==> r.value.w == MaxWidth(width, m))
  {
    var maxW := MaxWidth(width, m);
    var scale := maxW as real / img.w as real;
    assert scale < 1.0;
    assert FitScale(Standard, EndlessLabel, maxW, MaxHeight(height, m), img) == Ok(scale);
    ScaleToWidth(img.w, maxW);
    ScaleToZero(img.h, img.w, maxW);
    assert Scaled(img, scale) == Pixels(maxW, ScaleSide(img.h, scale));
  }

  /** The width limit divided by a wider side scales that side to the limit. */
  lemma ScaleToWidth(w: nat, maxW: int)
    requires w > maxW >= 1
    ensures ScaleSide(w, maxW as real / w as real) == maxW
  {
    assert w as real * (maxW as real / w as real) == maxW as real;
  }

  /** The same scale truncates another side to 0 exactly when that side times the limit is below the wider side. */
  lemma ScaleToZero(h: nat, w: nat, maxW: int)
    requires w > maxW >= 1
    ensures ScaleSide(h, maxW as real / w as real) == 0 <==> h * maxW < w
  {
    var hs := h as real * (maxW as real / w as real);
    MulDiv(h as real, maxW as real, w as real);
    CastProduct(h, maxW);
    BelowOne((h * maxW) as real, w as real);
    assert hs == (h * maxW) as real / w as real;
  }

  lemma CastProduct(a: int, b: int)
    ensures (a * b) as real == a as real * b as real
  {
  }

  lemma MulDiv(x: real, y: real, z: real)
    requires z > 0.0
    ensures x * (y / z) == (x * y) / z
  {
  }

  lemma BelowOne(a: real, b: real)
    requires a >= 0.0 && b > 0.0
    ensures a / b < 1.0 <==> a < b
  {
    if a < b {
      assert a / b * b == a;
    } else {
      assert a / b * b == a;
    }
  }

  // ---------------------------------------------------------------------------
  // Label size on endless media (label.py:219-225)

  /**
   * Endless tape grows along the feed to hold the image, the text block and
   * both margins; the other side and die-cut labels keep their size.
   */
  function LabelSize(o: Orientation, t: LabelType, width: int, height: int, img: Pixels, text: Extent, m: Margins): (r: Dims)
    ensures t.IsDieCut() ==> r == Dims(width as real, height as real)
    ensures o == Standard ==> r.w == width as real
    ensures o == Rotated ==> r.h == height as real
    ensures t == EndlessLabel && o == Standard ==>
      r.h - (m.top + m.bottom) as real == img.h as real + (text.bottom - text.top)
    ensures t == EndlessLabel && o == Rotated ==>
      r.w - (m.left + m.right) as real == img.w as real + text.right
  {
    if t == EndlessLabel && o == Standard then
      Dims(width as real, img.h as real + text.bottom - text.top + m.top as real + m.bottom as real)
    else if t == EndlessLabel && o == Rotated then
      Dims(img.w as real + text.right + m.left as real + m.right as real, height as real)
    else Dims(width as real, height as real)
  }

  // ---------------------------------------------------------------------------
  // Placing the image and the text (label.py:227-260)

  /** The margin in front of the text on endless tape, 1.25 times wider after a QR code. */
  function TextMargin(c: Content, margin: int): real {
    if c == TextQrCode then margin as real * 1.25 else margin as real
  }

  function Offsets(o: Orientation, t: LabelType, c: Content, size: Dims, img: Pixels, text: Extent, m: Margins): Placement {
    match o
    case Standard =>
      var vText :=
        if t.IsDieCut() then
          FloorHalf(size.h - img.h as real - text.bottom) + FloorHalf((m.top - m.bottom) as real)
        else TextMargin(c, m.top);
      Placement(
        Point(MaxReal(FloorHalf(size.w - text.right), 0.0), vText + img.h as real),
        Point(FloorHalf(size.w - img.w as real), m.top as real))
    case Rotated =>
      var hText :=
        if t.IsDieCut() then MaxReal(FloorHalf(size.w - img.w as real - text.right), 0.0)
        else TextMargin(c, m.left);
      Placement(
        Point(hText + img.w as real,
              FloorHalf(size.h - text.bottom) + FloorHalf((m.top - m.bottom) as real)),
        Point(m.left as real, FloorHalf(size.h - img.h as real)))
  }

  /**
   * The image sits at the top margin and is centred across the width
   * (standard), or at the left margin and centred along the height
   * (rotated); a centred image is at most half a pixel off centre.
   */
  lemma ImagePlacement(o: Orientation, t: LabelType, c: Content, size: Dims, img: Pixels, text: Extent, m: Margins)
    ensures var p := Offsets(o, t, c, size, img, text, m).image;
      && (o == Standard ==> p.y == m.top as real && 0.0 <= size.w - img.w as real - 2.0 * p.x < 2.0)
      && (o == Rotated ==> p.x == m.left as real && 0.0 <= size.h - img.h as real - 2.0 * p.y < 2.0)
  {
  }

  /**
   * On endless tape the image sits at the margin and the text block starts
   * where the image ends, with no gap; after a QR code (a `TEXT_QRCODE`
   * label) a quarter margin further on.
   */
  lemma EndlessTextFollowsImage(o: Orientation, c: Content, size: Dims, img: Pixels, text: Extent, m: Margins)
    ensures var p := Offsets(o, EndlessLabel, c, size, img, text, m);
      var extra := if c == TextQrCode then 0.25 else 0.0;
      && (o == Standard ==> p.text.y - (p.image.y + img.h as real) == extra * m.top as real)
      && (o == Rotated ==> p.text.x - (p.image.x + img.w as real) == extra * m.left as real)
  {
  }

  /**
   * The horizontal text offset is never negative on standard labels, and on
   * rotated die-cut labels the text never starts inside the image's width.
   */
  lemma TextOffsetClamped(o: Orientation, t: LabelType, c: Content, size: Dims, img: Pixels, text: Extent, m: Margins)
    ensures var p := Offsets(o, t, c, size, img, text, m);
      && (o == Standard ==> p.text.x >= 0.0)
      && (o == Rotated && t.IsDieCut() ==> p.text.x >= img.w as real)
  {
  }

  /** A standard label centres a text block that fits across the width. */
  lemma StandardTextCentred(t: LabelType, c: Content, size: Dims, img: Pixels, text: Extent, m: Margins)
    requires size.w >= text.right
    ensures var x := Offsets(Standard, t, c, size, img, text, m).text.x;
      0.0 <= size.w - text.right - 2.0 * x < 2.0
  {
  }

  // ---------------------------------------------------------------------------
  // Canvas, preview rotation and border (label.py:262, 270-291)

  /** `Image.new('RGB', (int(width), int(height)))`, which refuses a negative side. */
  function CanvasSize(size: Dims): (r: Result<(int, int)>)
    ensures r.Ok? <==> size.w > -1.0 && size.h > -1.0
    ensures r.Ok? ==> r.value == (Trunc(size.w), Trunc(size.h))
    ensures r.Ok? ==> r.value.0 >= 0 && r.value.1 >= 0
    ensures r.Ok? ==> r.value.0 as real <= size.w || r.value.0 == 0
  {
    var w, h := Trunc(size.w), Trunc(size.h);
    if w < 0 || h < 0 then Err("Width and height must be >= 0") else Ok((w, h))
  }

  /** Whether a preview is turned by 90 degrees when rotation is requested. */
  predicate NeedsRotation(o: Orientation, t: LabelType) {
    (o == Rotated && !t.IsDieCut()) || (o == Standard && t.IsDieCut())
  }

  /**
   * The preview is turned exactly when the orientation and the media
   * disagree: rotated text on endless tape, or standard text on a die-cut
   * label.
   */
  lemma PreviewRotationRule(o: Orientation, t: LabelType)
    ensures NeedsRotation(o, t) <==> ((o == Rotated) <==> (t == EndlessLabel))
  {
  }

  /** The size after `rotate(-90, expand=True)` when the preview is turned. */
  function TurnedSize(w: int, h: int, turn: bool): (r: (int, int))
    ensures turn ==> r == (h, w)
    ensures !turn ==> r == (w, h)
  {
    if turn then (h, w) else (w, h)
  }

  const InvalidBorder := "Invalid border rectangle"

  /**
   * The border rectangle on a `w` by `h` canvas, inset by `(dx, dy)`;
   * `None` when no border is drawn.
   */
  function BorderRect(w: int, h: int, thickness: int, dx: int, dy: int): (r: Result<Option<Rect>>)
    ensures thickness <= 0 ==> r == Ok(None)
    ensures thickness > 0 ==> (r.Err? <==> 2 * dx > w || 2 * dy > h)
    ensures r.Err? ==> r.msg == InvalidBorder
    ensures r.Ok? && r.value.Some? ==>
      var b := r.value.value;
      b.x0 <= b.x1 && b.y0 <= b.y1 && b.x0 + b.x1 == w && b.y0 + b.y1 == h
  {
    if thickness > 0 then
      var rect := Rect(dx, dy, w - dx, h - dy);
      if rect.x1 < rect.x0 || rect.y1 < rect.y0 then Err(InvalidBorder)
      else Ok(Some(rect))
    else Ok(None)
  }
}
