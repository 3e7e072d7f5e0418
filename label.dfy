/**
 * `SimpleLabel` (app/labeldesigner/label.py): the label a request
 * describes and `generate`, which renders it.  The rendered bitmap is
 * represented by what is placed on it: the canvas size, the pasted image,
 * the text draw calls, whether the preview was turned and the border.
 * The QR and barcode generators are parameters.
 */
module Label {
  import opened Wrappers
  import opened Strings
  import opened PyValues
  import opened LabelLayout
  import opened LabelText

  // ---------------------------------------------------------------------------
  // QR error correction (label.py:60-65, 126-129)

  datatype QrLevel = LevelL | LevelM | LevelQ | LevelH

  function LevelName(l: QrLevel): string {
    match l
    case LevelL => "L"
    case LevelM => "M"
    case LevelQ => "Q"
    case LevelH => "H"
  }

  /** The `qr_correction` setter: a known level letter selects that level, anything else level L. */
  function QrCorrection(value: string): (r: QrLevel)
    ensures value in {"L", "M", "Q", "H"} ==> LevelName(r) == value
    ensures value !in {"L", "M", "Q", "H"} ==> r == LevelL
  {
    if value == "M" then LevelM
    else if value == "Q" then LevelQ
    else if value == "H" then LevelH
    else LevelL
  }

  /** Every level survives being named and set again. */
  lemma {:induction false} QrCorrectionRoundTrip(l: QrLevel)
    ensures QrCorrection(LevelName(l)) == l
  {
    match l
    case LevelL =>
    case LevelM =>
    case LevelQ =>
    case LevelH =>
  }

  // ---------------------------------------------------------------------------
  // The label's settings

  datatype Rgb = Rgb(r: int, g: int, b: int)

  const Red := Rgb(255, 0, 0)
  const Black := Rgb(0, 0, 0)

  /** The constructor's arguments, which `generate` only reads. */
  datatype Config = Config(
    width: int,
    height: int,
    content: Content,
    orientation: Orientation,
    labelType: LabelType,
    barcodeType: string,
    margins: Margins,
    foreColor: Rgb,
    qrSize: int,
    qrCorrection: string,
    imageFit: bool,
    image: Option<Pixels>,
    borderThickness: int,
    borderRoundness: int,
    borderDistance: (int, int),
    borderColor: Rgb)

  /** The symbol generators of the qrcode and python-barcode packages. */
  datatype Symbols = Symbols(
    /** A QR code for a payload, level, box size and red (or black) fill. */
    qr: (string, QrLevel, int, bool) -> Result<Pixels>,
    /**
     * `barcode.get_barcode_class(name)`: succeeds for a name python-barcode
     * knows, and fails with that package's own error otherwise.
     */
    barcodeClass: string -> Result<()>,
    /** A rendered barcode of the given kind for the given data. */
    barcode: (string, PyValue) -> Result<Pixels>)

  /** What the label looks like once rendered. */
  datatype Picture = Picture(
    width: int,
    height: int,
    image: Option<(Point, Pixels)>,
    texts: seq<TextOp>,
    turned: bool,
    border: Option<Rect>)

  /** The outcome of `generate` and the label's text afterwards. */
  datatype Rendered = Rendered(picture: Result<Picture>, text: seq<TextLine>)

  // ---------------------------------------------------------------------------
  // The QR payload (label.py:309-312)

  /** One line's contribution, `line['text'] + "\n"`: a list refuses a string with its own TypeError text, every other non-string with the generic one. */
  function Piece(line: TextLine): Result<string> {
    var v :- Index(line, "text");
    if v.PStr? then Ok(v.s + "\n")
    else if v.PList? then Err("can only concatenate list (not \"str\") to list")
    else Err("unsupported operand type(s) for +: '" + TypeName(v) + "' and 'str'")
  }

  /** Every line's text followed by a line break, in order. */
  function Payload(lines: seq<TextLine>): Result<string> {
    if |lines| == 0 then Ok("")
    else
      var first :- Piece(lines[0]);
      var rest :- Payload(lines[1..]);
      Ok(first + rest)
  }

  /** The lines' texts, when every line has a string text. */
  predicate PlainTexts(lines: seq<TextLine>) {
    forall i :: 0 <= i < |lines| ==> "text" in lines[i] && lines[i]["text"].PStr? && '\n' !in lines[i]["text"].s
  }

  function Texts(lines: seq<TextLine>): (r: seq<string>)
    requires PlainTexts(lines)
    ensures |r| == |lines|
  {
    seq(|lines|, i requires 0 <= i < |lines| => lines[i]["text"].s)
  }

  lemma PlainTextsTail(lines: seq<TextLine>)
    requires PlainTexts(lines) && |lines| > 0
    ensures PlainTexts(lines[1..])
    ensures Texts(lines) == [lines[0]["text"].s] + Texts(lines[1..])
  {
    var rest := lines[1..];
    forall i | 0 <= i < |rest|
      ensures rest[i] == lines[i + 1]
    {
    }
  }

  /**
   * Splitting the payload at its line breaks gives back every line's text
   * in order, followed by the empty piece after the final break.
   */
  lemma {:induction false} PayloadRoundTrip(lines: seq<TextLine>)
    requires PlainTexts(lines)
    ensures Payload(lines).Ok?
    ensures SplitOn(Payload(lines).value, '\n') == Texts(lines) + [""]
  {
    if |lines| == 0 {
      assert SplitOn("", '\n') == [""];
    } else {
      PlainTextsTail(lines);
      PayloadRoundTrip(lines[1..]);
      var t := lines[0]["text"].s;
      var p := Payload(lines[1..]).value;
      assert Piece(lines[0]) == Ok(t + "\n");
      assert Payload(lines).value == t + ['\n'] + p;
      SplitOnFirst(t, '\n', p);
    }
  }

  /** What is left to append after `done`; an error replaces everything. */
  function Then(done: string, r: Result<string>): Result<string> {
    if r.Ok? then Ok(done + r.value) else r
  }

  lemma ThenStep(lines: seq<TextLine>, i: nat, done: string)
    requires i < |lines| && Piece(lines[i]).Ok?
    ensures Then(done, Payload(lines[i..])) == Then(done + Piece(lines[i]).value, Payload(lines[i + 1..]))
  {
    assert lines[i..][0] == lines[i];
    assert lines[i..][1..] == lines[i + 1..];
    var rest := Payload(lines[i + 1..]);
    if rest.Ok? {
      assert done + (Piece(lines[i]).value + rest.value) == done + Piece(lines[i]).value + rest.value;
    }
  }

  /** The payload as the code builds it: a loop that appends piece after piece. */
  method QrPayload(lines: seq<TextLine>) returns (r: Result<string>)
    ensures r == Payload(lines)
  {
    var text := "";
    var i := 0;
    assert lines[0..] == lines;
    assert Then(text, Payload(lines)) == Payload(lines) by {
      if Payload(lines).Ok? {
        assert text + Payload(lines).value == Payload(lines).value;
      }
    }
    while i < |lines|
      invariant 0 <= i <= |lines|
      invariant Payload(lines) == Then(text, Payload(lines[i..]))
    {
      var piece := Piece(lines[i]);
      if piece.Err? {
        assert lines[i..][0] == lines[i];
        return piece;
      }
      ThenStep(lines, i, text);
      text := text + piece.value;
      i := i + 1;
    }
    assert lines[i..] == [];
    assert text + "" == text;
    r := Ok(text);
  }

  // ---------------------------------------------------------------------------
  // Choosing the picture (label.py:148-158, 297-300)

  predicate UsesBarcode(cfg: Config) {
    cfg.content.IsCode() && cfg.barcodeType != "QR"
  }

  /** The QR code for the lines, filled red when the text colour is red. */
  function QrImage(cfg: Config, lines: seq<TextLine>, sym: Symbols): Result<Pixels> {
    var payload :- Payload(lines);
    sym.qr(payload, QrCorrection(cfg.qrCorrection), cfg.qrSize, cfg.foreColor == Red)
  }

  /** The barcode for the first line's text. */
  function BarcodeImage(cfg: Config, lines: seq<TextLine>, sym: Symbols): Result<Pixels> {
    var cls := sym.barcodeClass(cfg.barcodeType);
    if cls.Err? then Err(cls.msg)
    else if |lines| == 0 then Err("list index out of range")
    else
      var data :- Index(lines[0], "text");
      sym.barcode(cfg.barcodeType, data)
  }

  datatype Picked = Picked(image: Result<Option<Pixels>>, text: seq<TextLine>)

  /**
   * The picture for the content kind; a barcode, which already shows the
   * first line, removes that line from the text once it has been made.
   */
  function PickContent(cfg: Config, lines: seq<TextLine>, sym: Symbols): (r: Picked)
    ensures !UsesBarcode(cfg) ==> r.text == lines
    ensures UsesBarcode(cfg) && r.image.Ok? ==> |lines| > 0 && r.text == lines[1..]
    ensures UsesBarcode(cfg) && r.image.Err? ==> r.text == lines
    ensures UsesBarcode(cfg) ==>
      (r.image.Ok? <==> sym.barcodeClass(cfg.barcodeType).Ok? && |lines| > 0 && Index(lines[0], "text").Ok?
                        && sym.barcode(cfg.barcodeType, Index(lines[0], "text").value).Ok?)
    ensures UsesBarcode(cfg) && r.image.Ok? ==>
      r.image.value == Some(sym.barcode(cfg.barcodeType, Index(lines[0], "text").value).value)
    ensures r.image.Ok? && cfg.content.IsCode() ==> r.image.value.Some?
    ensures cfg.content.IsImage() ==> r == Picked(Ok(cfg.image), lines)
    ensures !cfg.content.IsCode() && !cfg.content.IsImage() ==> r == Picked(Ok(None), lines)
  {
    if cfg.content.IsCode() then
      if cfg.barcodeType == "QR" then
        var img := QrImage(cfg, lines, sym);
        Picked(if img.Ok? then Ok(Some(img.value)) else Err(img.msg), lines)
      else
        var img := BarcodeImage(cfg, lines, sym);
        if img.Ok? then Picked(Ok(Some(img.value)), lines[1..]) else Picked(Err(img.msg), lines)
    else if cfg.content.IsImage() then Picked(Ok(cfg.image), lines)
    else Picked(Ok(None), lines)
  }

  // ---------------------------------------------------------------------------
  // Rendering (label.py:160-295)

  function FittedSize(cfg: Config, img: Option<Pixels>): Result<Pixels> {
    match img
    case None => Ok(Pixels(0, 0))
    case Some(p) => FitImage(cfg.orientation, cfg.labelType, cfg.width, cfg.height, cfg.margins, cfg.imageFit, p)
  }

  /** Whether the text lines are measured and drawn. */
  predicate DrawsText(cfg: Config, lines: seq<TextLine>) {
    cfg.content.ShowsText() && |lines| > 0
  }

  function MeasureShown(cfg: Config, lines: seq<TextLine>, m: Metrics): (r: Result<seq<Measured>>)
    ensures r.Ok? && DrawsText(cfg, lines) ==> |r.value| == |lines|
  {
    if DrawsText(cfg, lines) then Measure(lines, m) else Ok([])
  }

  /** The text extent of `_compute_bbox`, or no extent when no text is shown. */
  function ExtentOf(cfg: Config, lines: seq<TextLine>, ms: seq<Measured>): (r: Extent)
    requires DrawsText(cfg, lines) ==> |ms| == |lines|
    ensures !DrawsText(cfg, lines) ==> r == NoText
    ensures DrawsText(cfg, lines) ==> r.right == MaxRight(ms) as real && r.bottom == ms[|ms| - 1].box.y1 as real * 1.1
  {
    if DrawsText(cfg, lines) then ComputeBbox(ms) else NoText
  }

  function DrawShown(cfg: Config, lines: seq<TextLine>, m: Metrics, ms: seq<Measured>, at: Point): Result<seq<TextOp>>
    requires DrawsText(cfg, lines) ==> |ms| == |lines|
  {
    if DrawsText(cfg, lines) then DrawOps(lines, |lines|, m, ms, at) else Ok([])
  }

  /** Everything `generate` does after the picture has been chosen. */
  function Compose(cfg: Config, img: Option<Pixels>, lines: seq<TextLine>, m: Metrics, rotate: bool): Result<Picture> {
    var size :- FittedSize(cfg, img);
    var ms :- MeasureShown(cfg, lines, m);
    var extent := ExtentOf(cfg, lines, ms);
    var dims := LabelSize(cfg.orientation, cfg.labelType, cfg.width, cfg.height, size, extent, cfg.margins);
    var place := Offsets(cfg.orientation, cfg.labelType, cfg.content, dims, size, extent, cfg.margins);
    var canvas :- CanvasSize(dims);
    var ops :- DrawShown(cfg, lines, m, ms, place.text);
    var turn := rotate && NeedsRotation(cfg.orientation, cfg.labelType);
    var final := TurnedSize(canvas.0, canvas.1, turn);
    var border :- BorderRect(final.0, final.1, cfg.borderThickness, cfg.borderDistance.0, cfg.borderDistance.1);
    Ok(Picture(final.0, final.1, if img.Some? then Some((place.image, size)) else None, ops, turn, border))
  }

  /** `generate(rotate)`: the rendered label and the text it leaves behind. */
  function Render(cfg: Config, lines: seq<TextLine>, sym: Symbols, m: Metrics, rotate: bool): Rendered {
    var picked := PickContent(cfg, lines, sym);
    Rendered(if picked.image.Ok? then Compose(cfg, picked.image.value, picked.text, m, rotate) else Err(picked.image.msg),
             picked.text)
  }

  /**
   * Only a barcode changes the text, and only by dropping the first line
   * once the barcode exists; a QR code and every other kind keep all lines.
   */
  lemma RenderText(cfg: Config, lines: seq<TextLine>, sym: Symbols, m: Metrics, rotate: bool)
    ensures var r := Render(cfg, lines, sym, m, rotate);
      && (!UsesBarcode(cfg) ==> r.text == lines)
      && (UsesBarcode(cfg) && r.picture.Ok? ==> |lines| > 0 && r.text == lines[1..])
  {
  }

  /**
   * A QR label encodes every line's text, each followed by a line break,
   * at the chosen correction level, size and colour; the picture holds that
   * symbol, fitted to the label, and the label keeps all its lines.
   */
  lemma RenderQrPayload(cfg: Config, lines: seq<TextLine>, sym: Symbols, m: Metrics, rotate: bool)
    requires cfg.content.IsCode() && cfg.barcodeType == "QR"
    requires Render(cfg, lines, sym, m, rotate).picture.Ok?
    ensures Payload(lines).Ok?
    ensures var q := sym.qr(Payload(lines).value, QrCorrection(cfg.qrCorrection), cfg.qrSize, cfg.foreColor == Red);
      var r := Render(cfg, lines, sym, m, rotate);
      && q.Ok?
      && FittedSize(cfg, Some(q.value)).Ok?
      && r.picture.value.image.Some?
      && r.picture.value.image.value.1 == FittedSize(cfg, Some(q.value)).value
      && r.text == lines
  {
  }

  /**
   * A barcode label encodes the first line's text, with the kind of barcode
   * chosen; the picture holds that barcode fitted to the label, and the
   * remaining lines are those after the first.
   */
  lemma RenderBarcodePayload(cfg: Config, lines: seq<TextLine>, sym: Symbols, m: Metrics, rotate: bool)
    requires UsesBarcode(cfg)
    requires Render(cfg, lines, sym, m, rotate).picture.Ok?
    ensures |lines| > 0 && Index(lines[0], "text").Ok?
    ensures var b := sym.barcode(cfg.barcodeType, Index(lines[0], "text").value);
      var r := Render(cfg, lines, sym, m, rotate);
      && b.Ok?
      && FittedSize(cfg, Some(b.value)).Ok?
      && r.picture.value.image.Some?
      && r.picture.value.image.value.1 == FittedSize(cfg, Some(b.value)).value
      && r.text == lines[1..]
  {
  }

  /**
   * Text is drawn, one call per line, exactly when the content shows text
   * and there is at least one line; otherwise nothing is drawn.
   */
  lemma RenderDrawsText(cfg: Config, lines: seq<TextLine>, sym: Symbols, m: Metrics, rotate: bool)
    requires Render(cfg, lines, sym, m, rotate).picture.Ok?
    ensures var r := Render(cfg, lines, sym, m, rotate);
      |r.picture.value.texts| == if DrawsText(cfg, r.text) then |r.text| else 0
  {
  }

  /**
   * A preview is turned exactly when rotation is requested and the
   * orientation disagrees with the media; the picture's sides are then the
   * canvas's sides swapped, and a drawn border lies within them.
   */
  lemma RenderTurnAndBorder(cfg: Config, lines: seq<TextLine>, sym: Symbols, m: Metrics, rotate: bool)
    requires Render(cfg, lines, sym, m, rotate).picture.Ok?
    ensures PickContent(cfg, lines, sym).image.Ok?
    ensures var picked := PickContent(cfg, lines, sym);
      var p := Render(cfg, lines, sym, m, rotate).picture.value;
      && (p.turned <==> rotate && ((cfg.orientation == Rotated) <==> (cfg.labelType == EndlessLabel)))
      && p.width >= 0 && p.height >= 0
      && ComposedSides(cfg, picked.image.value, picked.text, m, p)
      && (cfg.borderThickness > 0 <==> p.border.Some?)
      && (p.border.Some? ==> 2 * cfg.borderDistance.0 <= p.width && 2 * cfg.borderDistance.1 <= p.height)
  {
    var picked := PickContent(cfg, lines, sym);
    ComposeTurnAndBorder(cfg, picked.image.value, picked.text, m, rotate);
  }

  /**
   * The picture's sides are the label size's sides truncated to integers,
   * swapped when the picture is turned.
   */
  predicate ComposedSides(cfg: Config, img: Option<Pixels>, text: seq<TextLine>, m: Metrics, p: Picture) {
    && FittedSize(cfg, img).Ok?
    && MeasureShown(cfg, text, m).Ok?
    && var d := LabelSize(cfg.orientation, cfg.labelType, cfg.width, cfg.height, FittedSize(cfg, img).value,
                          ExtentOf(cfg, text, MeasureShown(cfg, text, m).value), cfg.margins);
       (p.width, p.height) == TurnedSize(Trunc(d.w), Trunc(d.h), p.turned)
  }

  /** `RenderTurnAndBorder` for the picture once it is chosen. */
  lemma ComposeTurnAndBorder(cfg: Config, img: Option<Pixels>, text: seq<TextLine>, m: Metrics, rotate: bool)
    requires Compose(cfg, img, text, m, rotate).Ok?
    ensures var p := Compose(cfg, img, text, m, rotate).value;
      && (p.turned <==> rotate && ((cfg.orientation == Rotated) <==> (cfg.labelType == EndlessLabel)))
      && p.width >= 0 && p.height >= 0
      && ComposedSides(cfg, img, text, m, p)
      && (cfg.borderThickness > 0 <==> p.border.Some?)
      && (p.border.Some? ==> 2 * cfg.borderDistance.0 <= p.width && 2 * cfg.borderDistance.1 <= p.height)
  {
    PreviewRotationRule(cfg.orientation, cfg.labelType);
  }

  /**
   * A label that shows text cannot be rendered from lines without a
   * `font_path` key: measuring the first line remaining after the picture
   * is chosen already raises a KeyError.
   */
  lemma TextNeedsFontPath(cfg: Config, lines: seq<TextLine>, sym: Symbols, m: Metrics, rotate: bool)
    requires cfg.content.ShowsText()
    requires forall i :: 0 <= i < |lines| ==> "font_path" !in lines[i]
    ensures |Render(cfg, lines, sym, m, rotate).text| > 0 ==> Render(cfg, lines, sym, m, rotate).picture.Err?
  {
    var picked := PickContent(cfg, lines, sym);
    var text := picked.text;
    if |text| > 0 && picked.image.Ok? && FittedSize(cfg, picked.image.value).Ok? {
      assert text[0] in lines;
      if ReadLine(text[0], m).Ok? {
        ReadLineFacts(text[0], m);
      }
      ReadLinesPointwise(text, m);
      assert Measure(text, m).Err?;
    }
  }

  /** For printing (`rotate = False`) the picture is never turned. */
  lemma PrintNeverTurns(cfg: Config, lines: seq<TextLine>, sym: Symbols, m: Metrics)
    requires Render(cfg, lines, sym, m, false).picture.Ok?
    ensures !Render(cfg, lines, sym, m, false).picture.value.turned
  {
  }

  // ---------------------------------------------------------------------------
  // The label object

  class SimpleLabel {
    const config: Config
    var text: seq<TextLine>

    constructor (config: Config, text: seq<TextLine>)
      ensures this.config == config && this.text == text
    {
      this.config := config;
      this.text := text;
    }

    /** `generate(rotate)`: renders the label; a barcode label loses its first line. */
    method Generate(rotate: bool, sym: Symbols, m: Metrics) returns (r: Result<Picture>)
      modifies this
      ensures var out := Render(config, old(text), sym, m, rotate);
        r == out.picture && text == out.text
    {
      // Choose the picture.
      var img: Option<Pixels> := None;
      if config.content.IsCode() {
        if config.barcodeType == "QR" {
          var payload := QrPayload(text);
          if payload.Err? {
            return Err(payload.msg);
          }
          var qr := sym.qr(payload.value, QrCorrection(config.qrCorrection), config.qrSize, config.foreColor == Red);
          if qr.Err? {
            return Err(qr.msg);
          }
          img := Some(qr.value);
        } else {
          var code := BarcodeImage(config, text, sym);
          if code.Err? {
            return Err(code.msg);
          }
          img := Some(code.value);
          text := text[1..];
        }
      } else if config.content.IsImage() {
        img := config.image;
      }
      assert PickContent(config, old(text), sym) == Picked(Ok(img), text);

      // Fit the image.
      var size := FittedSize(config, img);
      if size.Err? {
        return Err(size.msg);
      }

      // Measure the text.
      var ms: seq<Measured> := [];
      if DrawsText(config, text) {
        var measured := MeasureText(text, m);
        if measured.Err? {
          return Err(measured.msg);
        }
        ms := measured.value;
      }
      var extent := ExtentOf(config, text, ms);

      // Size, offsets and canvas.
      var dims := LabelSize(config.orientation, config.labelType, config.width, config.height, size.value, extent, config.margins);
      var place := Offsets(config.orientation, config.labelType, config.content, dims, size.value, extent, config.margins);
      var canvas := CanvasSize(dims);
      if canvas.Err? {
        return Err(canvas.msg);
      }

      // Draw the text.
      var ops: seq<TextOp> := [];
      if DrawsText(config, text) {
        var drawn := DrawText(text, m, ms, place.text);
        if drawn.Err? {
          return Err(drawn.msg);
        }
        ops := drawn.value;
      }

      // Turn the preview and check the border.
      var turn := rotate && NeedsRotation(config.orientation, config.labelType);
      var final := TurnedSize(canvas.value.0, canvas.value.1, turn);
      var border := BorderRect(final.0, final.1, config.borderThickness, config.borderDistance.0, config.borderDistance.1);
      if border.Err? {
        return Err(border.msg);
      }
      r := Ok(Picture(final.0, final.1, if img.Some? then Some((place.image, size.value)) else None, ops, turn, border.value));
    }
  }
}
