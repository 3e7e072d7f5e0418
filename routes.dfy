/**
 * The label designer's web routes (app/labeldesigner/routes.py): turning
 * the submitted form into a `SimpleLabel`, the preview route, the print
 * route and the list of barcode kinds.
 *
 * The request is a map from form field names to strings; everything the
 * routes obtain from other packages (the brother_ql label catalogue,
 * `json.loads`, the font registry's path lookup, PIL and pdf2image) is a
 * field of `Env`.
 */
module Routes {
  import opened Wrappers
  import opened Strings
  import opened PyValues
  import opened LabelLayout
  import opened LabelText
  import opened Label
  import opened Printer

  /** `request.values`: every submitted field as text. */
  type Form = map<string, string>

  const LineSpacings: seq<int> := [100, 150, 200, 250, 300]
  const DefaultDpi := 300
  const HighResDpi := 600
  /** The longest text a line may carry. */
  const MaxTextLength := 10000

  /** brother_ql's `FormFactor`. */
  datatype FormFactor = DieCut | Endless | RoundDieCut | PtouchEndless

  /** One entry of brother_ql's `ALL_LABELS`. */
  datatype LabelSpec = LabelSpec(identifier: string, formFactor: FormFactor, dotsPrintable: (int, int))

  /** An uploaded file: its name and its bytes. */
  datatype Upload = Upload(filename: string, data: seq<bv8>)

  /** `imgfile_to_image` as PIL opens a file: a file without bytes is no image. */
  type ImageOpener = f: Upload -> Result<Pixels> | forall u: Upload :: u.data == [] ==> f(u).Err?
    witness (u: Upload) => Err("")

  /** `pdffile_to_image` as pdf2image reads a file: a file without bytes has no page. */
  type PdfOpener = f: (Upload, int) -> Result<Pixels> | forall u: Upload, dpi: int :: u.data == [] ==> f(u, dpi).Err?
    witness (u: Upload, dpi: int) => Err("")

  /**
   * The upload as copy `i` of a print request reads it. Both openers
   * `save` the same `FileStorage`, which copies from the stream's current
   * position and never rewinds it (app/utils.py:37, 44): every copy after
   * the first reads a file without bytes.
   */
  function CopyUpload(upload: Option<Upload>, i: nat): Option<Upload> {
    if i == 0 || upload.None? then upload else Some(Upload(upload.value.filename, []))
  }

  datatype Env = Env(
    /** brother_ql's `ALL_LABELS`. */
    labels: seq<LabelSpec>,
    /** `json.loads` of the `text` field, a list of line dictionaries. */
    decodeText: string -> Result<seq<TextLine>>,
    /** `FONTS.get_path(font)`. */
    fontPath: PyValue -> PyValue,
    /** The extensions of the formats PIL can open, in lower case. */
    imageExtensions: set<string>,
    /** `pdffile_to_image(file, dpi)`: the size of the first page. */
    openPdf: PdfOpener,
    /** `imgfile_to_image(file)`: the size of the image. */
    openImage: ImageOpener)

  /** `d.get(key, default)` on the form. */
  function Get(d: Form, key: string, default: string): string {
    if key in d then d[key] else default
  }

  /** `int(d.get(key, default))`. */
  function IntField(d: Form, key: string, default: int): (r: Result<int>)
    ensures key !in d ==> r == Ok(default)
  {
    if key in d then ParseInt(d[key]) else Ok(default)
  }

  // ---------------------------------------------------------------------------
  // The barcode list (routes.py:54-58)

  /** `get_barcodes`: "QR" followed by python-barcode's kinds in upper case. */
  function GetBarcodes(provided: seq<string>): (r: seq<string>)
    ensures |r| == |provided| + 1 && r[0] == "QR"
    ensures forall i :: 0 <= i < |provided| ==> r[i + 1] == Upper(provided[i])
  {
    ["QR"] + seq(|provided|, i requires 0 <= i < |provided| => Upper(provided[i]))
  }

  /** No kind offered after "QR" contains a lower-case letter. */
  lemma BarcodesAreUpperCase(provided: seq<string>, i: int, k: int)
    requires 1 <= i < |provided| + 1
    requires 0 <= k < |GetBarcodes(provided)[i]|
    ensures !('a' <= GetBarcodes(provided)[i][k] <= 'z')
  {
    UpperHasNoLowerLetter(provided[i - 1], k);
  }

  // ---------------------------------------------------------------------------
  // The label catalogue (routes.py:155-157, 184-190)

  /** The first catalogue entry with the identifier, as `next(...)` finds it. */
  function FindLabel(labels: seq<LabelSpec>, id: string): Option<LabelSpec> {
    if |labels| == 0 then None
    else if labels[0].identifier == id then Some(labels[0])
    else FindLabel(labels[1..], id)
  }

  /** The search finds nothing exactly when no entry has the identifier, and otherwise the first one. */
  lemma {:induction false} FindLabelSpec(labels: seq<LabelSpec>, id: string)
    ensures var r := FindLabel(labels, id);
      && (r.None? <==> forall i :: 0 <= i < |labels| ==> labels[i].identifier != id)
      && (r.Some? ==>
            exists i :: 0 <= i < |labels| && labels[i] == r.value && labels[i].identifier == id
                        && forall j :: 0 <= j < i ==> labels[j].identifier != id)
  {
    if |labels| > 0 && labels[0].identifier != id {
      var tail := labels[1..];
      FindLabelSpec(tail, id);
      assert forall i :: 1 <= i < |labels| ==> labels[i] == tail[i - 1];
      if FindLabel(tail, id).Some? {
        var i :| 0 <= i < |tail| && tail[i] == FindLabel(tail, id).value && tail[i].identifier == id
                 && forall j :: 0 <= j < i ==> tail[j].identifier != id;
        assert labels[i + 1] == tail[i];
      }
    } else if |labels| > 0 {
      assert labels[0] == FindLabel(labels, id).value;
    }
  }

  /** `get_label_dimensions`: the printable dots, doubled for 600 dpi. */
  function LabelDimensions(labels: seq<LabelSpec>, id: string, highRes: bool): (r: Result<(int, int)>)
    ensures r.Err? <==> FindLabel(labels, id).None?
    ensures r.Err? ==> r.msg == "Unknown label_size"
    ensures r.Ok? ==> var dots := FindLabel(labels, id).value.dotsPrintable;
      r.value == if highRes then (2 * dots.0, 2 * dots.1) else dots
  {
    var spec := FindLabel(labels, id);
    if spec.None? then Err("Unknown label_size")
    else
      var dots := spec.value.dotsPrintable;
      Ok(if highRes then (2 * dots.0, 2 * dots.1) else dots)
  }

  /** The label is laid out landscape, or portrait when rotated (routes.py:247-250). */
  function Normalize(w: int, h: int, o: Orientation): (r: (int, int))
    ensures multiset{r.0, r.1} == multiset{w, h}
    ensures o.Standard? ==> r.0 >= r.1
    ensures o.Rotated? ==> r.1 >= r.0
  {
    var (w1, h1) := if h > w then (h, w) else (w, h);
    if o.Rotated? then (h1, w1) else (w1, h1)
  }

  // ---------------------------------------------------------------------------
  // Mapping form values to label options (routes.py:221-244, 262-263)

  /** The label content: the print type decides, then the image mode. */
  function ContentKind(printType: string, imageMode: string): Content {
    if printType == "text" then TextOnly
    else if printType == "qrcode" then QrCodeOnly
    else if printType == "qrcode_text" then TextQrCode
    else if imageMode == "grayscale" then ImageGrayscale
    else if imageMode == "red_black" then ImageRedBlack
    else if imageMode == "colored" then ImageColored
    else ImageBw
  }

  /**
   * Text is shown for "text" and "qrcode_text", a code for "qrcode" and
   * "qrcode_text", and any other print type is an image whose mode picks
   * grayscale, red and black or colour, black and white otherwise.
   */
  lemma ContentKindSpec(printType: string, imageMode: string)
    ensures var r := ContentKind(printType, imageMode);
      && (r.ShowsText() <==> printType == "text" || printType == "qrcode_text")
      && (r.IsCode() <==> printType == "qrcode" || printType == "qrcode_text")
      && (r.IsImage() <==> printType != "text" && printType != "qrcode" && printType != "qrcode_text")
      && (r.IsImage() ==> (r.ImageGrayscale? <==> imageMode == "grayscale"))
      && (r.IsImage() ==> (r.ImageRedBlack? <==> imageMode == "red_black"))
      && (r.IsImage() ==> (r.ImageColored? <==> imageMode == "colored"))
  {
  }

  function OrientationOf(s: string): (r: Orientation)
    ensures r.Rotated? <==> s == "rotated"
  {
    if s == "rotated" then Rotated else Standard
  }

  function LabelTypeOf(kind: FormFactor): (r: LabelType)
    ensures r.EndlessLabel? <==> kind.Endless?
    ensures r.DieCutLabel? <==> kind.DieCut?
  {
    if kind.Endless? then EndlessLabel
    else if kind.DieCut? then DieCutLabel
    else RoundDieCutLabel
  }

  /** A print or border colour: red only for "red". */
  function ColorOf(s: string): (r: Rgb)
    ensures r == Red <==> s == "red"
    ensures r != Red ==> r == Black
  {
    if s == "red" then Red else Black
  }

  // ---------------------------------------------------------------------------
  // Uploaded images (routes.py:192-219)

  /** The index of the last `c` in `s`, or -1. */
  function LastIndexOf(s: string, c: char): (i: int)
    ensures -1 <= i < |s|
    ensures i >= 0 ==> s[i] == c
    ensures forall k :: i < k < |s| ==> s[k] != c
  {
    if |s| == 0 then -1
    else if s[|s| - 1] == c then |s| - 1
    else LastIndexOf(s[..|s| - 1], c)
  }

  /** A last `c` found in `a` is still the last one once `b` (without `c`) is appended. */
  lemma {:induction false} LastIndexOfAppend(a: string, b: string, c: char)
    requires forall k :: 0 <= k < |b| ==> b[k] != c
    ensures LastIndexOf(a + b, c) == LastIndexOf(a, c)
    decreases |b|
  {
    if |b| > 0 {
      assert (a + b)[..|a + b| - 1] == a + b[..|b| - 1];
      LastIndexOfAppend(a, b[..|b| - 1], c);
    } else {
      assert a + b == a;
    }
  }

  /** The dot that starts the extension: the last one, unless the name before it is all dots. */
  predicate HasExtensionAt(p: string, sep: int, dot: int)
    requires -1 <= sep && dot < |p|
  {
    dot > sep && exists k :: sep < k < dot && p[k] != '.'
  }

  /** `os.path.splitext` on a POSIX path. */
  function SplitExt(p: string): (r: (string, string))
    ensures r.0 + r.1 == p
    ensures r.1 == [] || (r.1[0] == '.' && forall k :: 0 <= k < |r.1| ==> r.1[k] != '/' && (k > 0 ==> r.1[k] != '.'))
  {
    var sep := LastIndexOf(p, '/');
    var dot := LastIndexOf(p, '.');
    if HasExtensionAt(p, sep, dot) then
      assert p[..dot] + p[dot..] == p;
      (p[..dot], p[dot..])
    else (p, [])
  }

  /** The dot that starts an extension is the last dot of the whole name. */
  lemma LastDotStartsExtension(root: string, ext: string)
    requires |ext| > 0 && ext[0] == '.'
    requires forall j :: 0 < j < |ext| ==> ext[j] != '.'
    ensures LastIndexOf(root + ext, '.') == |root|
  {
    assert root + ext == (root + [ext[0]]) + ext[1..];
    LastIndexOfAppend(root + [ext[0]], ext[1..], '.');
  }

  /** Splitting a name that ends in an extension gives back the name and the extension. */
  lemma SplitExtRoundTrip(root: string, ext: string, k: int)
    requires |ext| > 0 && ext[0] == '.'
    requires forall j :: 0 <= j < |ext| ==> ext[j] != '/' && (j > 0 ==> ext[j] != '.')
    requires LastIndexOf(root, '/') < k < |root| && root[k] != '.'
    ensures SplitExt(root + ext) == (root, ext)
  {
    var p := root + ext;
    LastIndexOfAppend(root, ext, '/');
    LastDotStartsExtension(root, ext);
    assert p[k] == root[k];
    assert HasExtensionAt(p, LastIndexOf(p, '/'), LastIndexOf(p, '.'));
    assert p[..|root|] == root && p[|root|..] == ext;
  }

  datatype Conversion = ToGrayscale | ToRedAndBlack | Unconverted | ToBw(threshold: int)

  /** The image the label receives: its size and how it was converted. */
  datatype Converted = Converted(size: Pixels, conversion: Conversion)

  /** `get_uploaded_image`: PDFs and PIL formats by lower-cased extension, anything else refused. */
  function UploadedImage(upload: Upload, imageMode: string, threshold: int, env: Env): (r: Result<Converted>)
  {
    var ext := Lower(SplitExt(upload.filename).1);
    if ext == ".pdf" then
      var page :- env.openPdf(upload, DefaultDpi);
      Ok(Converted(page, if imageMode == "grayscale" then ToGrayscale else ToBw(threshold)))
    else if ext in env.imageExtensions then
      var img :- env.openImage(upload);
      Ok(Converted(img,
        if imageMode == "grayscale" then ToGrayscale
        else if imageMode == "red_and_black" then ToRedAndBlack
        else if imageMode == "colored" then Unconverted
        else ToBw(threshold)))
    else Err("Unsupported file type")
  }

  /**
   * Which files are accepted and how they are converted: a PDF page at 300
   * dpi is grayscale or black and white; an image keeps its size; any other
   * extension is refused.
   */
  lemma UploadDispatch(upload: Upload, imageMode: string, threshold: int, env: Env)
    ensures var ext := Lower(SplitExt(upload.filename).1);
      var r := UploadedImage(upload, imageMode, threshold, env);
      var pdf := env.openPdf(upload, DefaultDpi);
      var img := env.openImage(upload);
      && (ext != ".pdf" && ext !in env.imageExtensions ==> r == Err("Unsupported file type"))
      && (ext == ".pdf" ==> (r.Err? <==> pdf.Err?) && (r.Err? ==> r.msg == pdf.msg))
      && (ext == ".pdf" && r.Ok? ==>
            r.value.size == pdf.value && (r.value.conversion.ToGrayscale? || r.value.conversion == ToBw(threshold)))
      && (ext != ".pdf" && ext in env.imageExtensions ==> (r.Err? <==> img.Err?) && (r.Err? ==> r.msg == img.msg))
      && (ext != ".pdf" && ext in env.imageExtensions && r.Ok? ==> r.value.size == img.value)
  {
  }

  /**
   * The image mode that converts an upload to red and black is spelled
   * "red_and_black", while the one that makes the content a red and black
   * image is "red_black": with "red_and_black" the content is black and
   * white, with "red_black" the upload is thresholded to black and white.
   */
  lemma RedBlackSpellings(printType: string, upload: Upload, threshold: int, env: Env)
    requires printType != "text" && printType != "qrcode" && printType != "qrcode_text"
    requires Lower(SplitExt(upload.filename).1) != ".pdf"
    requires Lower(SplitExt(upload.filename).1) in env.imageExtensions
    requires env.openImage(upload).Ok?
    ensures ContentKind(printType, "red_and_black") == ImageBw
    ensures UploadedImage(upload, "red_and_black", threshold, env).value.conversion == ToRedAndBlack
    ensures ContentKind(printType, "red_black") == ImageRedBlack
    ensures UploadedImage(upload, "red_black", threshold, env).value.conversion == ToBw(threshold)
  {
  }

  // ---------------------------------------------------------------------------
  // Reading the form (routes.py:145-182)

  /** `parse_text_form`: an empty field means no lines. */
  function ParseTextForm(input: string, decode: string -> Result<seq<TextLine>>): (r: Result<seq<TextLine>>)
    ensures |input| == 0 ==> r == Ok([])
    ensures |input| > 0 ==> r == decode(input)
  {
    if |input| == 0 then Ok([]) else decode(input)
  }

  /** The numeric fields of the form with their defaults, in the order they are read. */
  const ContextInts: seq<(string, int)> := [
    ("margin_top", 12), ("margin_bottom", 12), ("margin_left", 20), ("margin_right", 20),
    ("border_thickness", 1), ("border_roundness", 0), ("border_distance_x", 0), ("border_distance_y", 0),
    ("qrcode_size", 10), ("image_bw_threshold", 70), ("image_fit", 1), ("timestamp", 0), ("high_res", 0)]

  /** `int(d.get(key, default))` for each field in turn; the first malformed one is reported. */
  function ReadInts(d: Form, fields: seq<(string, int)>): (r: Result<seq<int>>)
    ensures r.Ok? ==> |r.value| == |fields|
  {
    if |fields| == 0 then Ok([])
    else
      var head :- IntField(d, fields[0].0, fields[0].1);
      var tail :- ReadInts(d, fields[1..]);
      Ok([head] + tail)
  }

  /**
   * The fields are read in order: all are read when each one is well formed,
   * each value is its own field's, and otherwise the error is that of the
   * first malformed field.
   */
  lemma {:induction false} ReadIntsSpec(d: Form, fields: seq<(string, int)>)
    ensures var r := ReadInts(d, fields);
      && (r.Ok? <==> forall i :: 0 <= i < |fields| ==> IntField(d, fields[i].0, fields[i].1).Ok?)
      && (r.Ok? ==> forall i :: 0 <= i < |fields| ==> r.value[i] == IntField(d, fields[i].0, fields[i].1).value)
      && (r.Err? ==>
            exists i ::
              && 0 <= i < |fields|
              && IntField(d, fields[i].0, fields[i].1) == Err(r.msg)
              && forall j :: 0 <= j < i ==> IntField(d, fields[j].0, fields[j].1).Ok?)
  {
    if |fields| > 0 {
      var tail := fields[1..];
      ReadIntsSpec(d, tail);
      assert forall i :: 1 <= i < |fields| ==> fields[i] == tail[i - 1];
      var r := ReadInts(d, tail);
      if IntField(d, fields[0].0, fields[0].1).Ok? && r.Err? {
        var i :| 0 <= i < |tail| && IntField(d, tail[i].0, tail[i].1) == Err(r.msg)
                 && forall j :: 0 <= j < i ==> IntField(d, tail[j].0, tail[j].1).Ok?;
        assert IntField(d, fields[i + 1].0, fields[i + 1].1) == Err(r.msg);
      }
    }
  }

  /** Each value read is its own field's, which was well formed. */
  lemma {:induction false} ReadIntsAt(d: Form, fields: seq<(string, int)>, i: int)
    requires ReadInts(d, fields).Ok? && 0 <= i < |fields|
    ensures IntField(d, fields[i].0, fields[i].1) == Ok(ReadInts(d, fields).value[i])
  {
    if i > 0 {
      ReadIntsAt(d, fields[1..], i - 1);
    }
  }

  /** The options `create_label_from_request` reads from the form. */
  datatype Context = Context(
    labelSize: string,
    printType: string,
    orientation: string,
    kind: FormFactor,
    margins: Margins,
    borderThickness: int,
    borderRoundness: int,
    borderDistance: (int, int),
    borderColor: string,
    text: seq<TextLine>,
    barcodeType: string,
    qrSize: int,
    qrCorrection: string,
    imageMode: string,
    threshold: int,
    imageFit: bool,
    printColor: string,
    timestamp: int,
    highRes: bool)

  /** The `context` dictionary: an unknown label size first, then each field in order. */
  function ReadContext(d: Form, env: Env): (r: Result<Context>)
    ensures FindLabel(env.labels, Get(d, "label_size", "62")).None? ==> r == Err("Unknown label_size")
    ensures r.Ok? ==>
      && r.value.labelSize == Get(d, "label_size", "62")
      && FindLabel(env.labels, r.value.labelSize).Some?
      && FindLabel(env.labels, r.value.labelSize).value.formFactor == r.value.kind
  {
    var labelSize := Get(d, "label_size", "62");
    var spec := FindLabel(env.labels, labelSize);
    if spec.None? then Err("Unknown label_size")
    else
      var a :- ReadInts(d, ContextInts[..8]);
      var text :- ParseTextForm(Get(d, "text", ""), env.decodeText);
      var b :- ReadInts(d, ContextInts[8..]);
      Ok(Context(
        labelSize, Get(d, "print_type", "text"), Get(d, "orientation", "standard"), spec.value.formFactor,
        Margins(a[2], a[3], a[0], a[1]), a[4], a[5], (a[6], a[7]), Get(d, "border_color", "black"), text,
        Get(d, "barcode_type", "QR"), b[0], Get(d, "qrcode_correction", "L"), Get(d, "image_mode", "grayscale"),
        b[1], b[2] > 0, Get(d, "print_color", "black"), b[3], b[4] != 0))
  }

  /** A text field missing from the form takes its default. */
  lemma ContextTextDefaults(d: Form, env: Env)
    requires ReadContext(d, env).Ok?
    ensures var c := ReadContext(d, env).value;
      && ("label_size" !in d ==> c.labelSize == "62")
      && ("print_type" !in d ==> c.printType == "text")
      && ("orientation" !in d ==> c.orientation == "standard")
      && ("border_color" !in d ==> c.borderColor == "black")
      && ("text" !in d ==> c.text == [])
      && ("barcode_type" !in d ==> c.barcodeType == "QR")
      && ("qrcode_correction" !in d ==> c.qrCorrection == "L")
      && ("image_mode" !in d ==> c.imageMode == "grayscale")
      && ("print_color" !in d ==> c.printColor == "black")
  {
  }

  /** A margin field missing from the form takes its default. */
  lemma ContextMarginDefaults(d: Form, env: Env)
    requires ReadContext(d, env).Ok?
    ensures var c := ReadContext(d, env).value;
      && ("margin_top" !in d ==> c.margins.top == 12)
      && ("margin_bottom" !in d ==> c.margins.bottom == 12)
      && ("margin_left" !in d ==> c.margins.left == 20)
      && ("margin_right" !in d ==> c.margins.right == 20)
  {
    var fields := ContextInts[..8];
    ReadIntsAt(d, fields, 0);
    ReadIntsAt(d, fields, 1);
    ReadIntsAt(d, fields, 2);
    ReadIntsAt(d, fields, 3);
  }

  /** A border field missing from the form takes its default. */
  lemma ContextBorderDefaults(d: Form, env: Env)
    requires ReadContext(d, env).Ok?
    ensures var c := ReadContext(d, env).value;
      && ("border_thickness" !in d ==> c.borderThickness == 1)
      && ("border_roundness" !in d ==> c.borderRoundness == 0)
      && ("border_distance_x" !in d ==> c.borderDistance.0 == 0)
      && ("border_distance_y" !in d ==> c.borderDistance.1 == 0)
  {
    var fields := ContextInts[..8];
    ReadIntsAt(d, fields, 4);
    ReadIntsAt(d, fields, 5);
    ReadIntsAt(d, fields, 6);
    ReadIntsAt(d, fields, 7);
  }

  /** A size, image or resolution field missing from the form takes its default. */
  lemma ContextOptionDefaults(d: Form, env: Env)
    requires ReadContext(d, env).Ok?
    ensures var c := ReadContext(d, env).value;
      && ("qrcode_size" !in d ==> c.qrSize == 10)
      && ("image_bw_threshold" !in d ==> c.threshold == 70)
      && ("image_fit" !in d ==> c.imageFit)
      && ("timestamp" !in d ==> c.timestamp == 0)
      && ("high_res" !in d ==> !c.highRes)
  {
    var fields := ContextInts[8..];
    ReadIntsAt(d, fields, 0);
    ReadIntsAt(d, fields, 1);
    ReadIntsAt(d, fields, 2);
    ReadIntsAt(d, fields, 3);
    ReadIntsAt(d, fields, 4);
  }

  /** A numeric field that is present but not a number makes the request fail. */
  lemma MalformedNumberRejected(d: Form, env: Env, i: int)
    requires 0 <= i < |ContextInts| && ContextInts[i].0 in d && ParseInt(d[ContextInts[i].0]).Err?
    ensures ReadContext(d, env).Err?
  {
    if FindLabel(env.labels, Get(d, "label_size", "62")).Some? {
      ReadIntsSpec(d, ContextInts[..8]);
      ReadIntsSpec(d, ContextInts[8..]);
      if i < 8 {
        assert ContextInts[..8][i] == ContextInts[i];
        assert IntField(d, ContextInts[..8][i].0, ContextInts[..8][i].1).Err?;
      } else {
        assert ContextInts[8..][i - 8] == ContextInts[i];
        assert IntField(d, ContextInts[8..][i - 8].0, ContextInts[8..][i - 8].1).Err?;
      }
    }
  }

  // ---------------------------------------------------------------------------
  // Checking the text lines (routes.py:252-260)

  /** One line of the loop: size, then the font path, then the text length. */
  function CheckLine(line: TextLine, fontPath: PyValue -> PyValue): Result<TextLine> {
    if "size" !in line || !IsDigits(Str(line["size"])) then Err("Font size is required")
    else
      var size :- Int(line["size"]);
      if size < 1 then Err("Font size must be at least 1")
      else
        var withPath := line["path" := fontPath(GetOr(line, "font", PStr("")))];
        var n :- Len(GetOr(line, "text", PStr("")));
        if n > MaxTextLength then Err("Text is too long") else Ok(withPath)
  }

  /** A size whose text is all digits is the number those digits spell. */
  lemma DigitSize(v: PyValue)
    ensures IsDigits(Str(v)) ==> Int(v) == Ok(DigitsValue(Str(v)))
  {
    match v
    case PInt(i) =>
      if i < 0 {
        assert Str(v)[0] == '-';
      } else {
        NatToStringValue(i);
      }
    case PStr(s) =>
      if IsDigits(s) {
        assert IsDigit(s[0]);
      }
    case _ =>
      assert !IsDigit(Str(v)[0]);
  }

  /** A size is valid when it is written with digits only and is at least 1. */
  predicate ValidSize(line: TextLine) {
    "size" in line && IsDigits(Str(line["size"])) && DigitsValue(Str(line["size"])) >= 1
  }

  /**
   * A line passes when its size is valid and its text (a string or a list)
   * has at most 10000 items; it then gains the font's path and keeps every
   * other key.
   */
  lemma CheckLineSpec(line: TextLine, fontPath: PyValue -> PyValue)
    ensures var r := CheckLine(line, fontPath);
      && (r.Ok? <==> ValidSize(line) && Len(GetOr(line, "text", PStr(""))).Ok?
                     && Len(GetOr(line, "text", PStr(""))).value <= MaxTextLength)
      && (r.Ok? ==> r.value.Keys == line.Keys + {"path"}
                    && r.value["path"] == fontPath(GetOr(line, "font", PStr("")))
                    && forall k :: k in line && k != "path" ==> r.value[k] == line[k])
      && (!ValidSize(line) ==> r.Err? && (r.msg == "Font size is required" || r.msg == "Font size must be at least 1"))
  {
    if "size" in line && IsDigits(Str(line["size"])) {
      DigitSize(line["size"]);
    }
  }

  /** A numeric size: negative is "required" (its text has a minus sign), zero is "at least 1". */
  lemma NumericSizes(line: TextLine, i: int, fontPath: PyValue -> PyValue)
    requires "size" in line && line["size"] == PInt(i)
    ensures i < 0 ==> CheckLine(line, fontPath) == Err("Font size is required")
    ensures i == 0 ==> CheckLine(line, fontPath) == Err("Font size must be at least 1")
  {
    if i < 0 {
      assert Str(line["size"])[0] == '-';
    }
  }

  /** Overlong text is the one line error the preview reports as 413. */
  lemma LongTextIs413(line: TextLine, s: string, fontPath: PyValue -> PyValue)
    requires ValidSize(line) && "text" in line && line["text"] == PStr(s) && |s| > MaxTextLength
    ensures CheckLine(line, fontPath) == Err("Text is too long")
    ensures PreviewStatus(CheckLine(line, fontPath).msg) == 413
  {
    DigitSize(line["size"]);
    assert OccursAt("Text is too long", "too long", 8);
  }

  /** The loop over every line; the first failing line's error wins. */
  function CheckLines(lines: seq<TextLine>, fontPath: PyValue -> PyValue): (r: Result<seq<TextLine>>)
    ensures r.Ok? ==> |r.value| == |lines|
    decreases |lines|
  {
    if |lines| == 0 then Ok([])
    else
      var init :- CheckLines(lines[..|lines| - 1], fontPath);
      var last :- CheckLine(lines[|lines| - 1], fontPath);
      Ok(init + [last])
  }

  /** All lines pass exactly when each one does, and each comes out as its own check gives it. */
  lemma {:induction false} CheckLinesSpec(lines: seq<TextLine>, fontPath: PyValue -> PyValue)
    ensures var r := CheckLines(lines, fontPath);
      && (r.Ok? <==> forall i :: 0 <= i < |lines| ==> CheckLine(lines[i], fontPath).Ok?)
      && (r.Ok? ==> forall i :: 0 <= i < |lines| ==> r.value[i] == CheckLine(lines[i], fontPath).value)
      && (r.Err? ==> exists i :: 0 <= i < |lines| && CheckLine(lines[i], fontPath) == Err(r.msg)
                                && forall j :: 0 <= j < i ==> CheckLine(lines[j], fontPath).Ok?)
    decreases |lines|
  {
    if |lines| > 0 {
      var init := lines[..|lines| - 1];
      CheckLinesSpec(init, fontPath);
      assert forall i :: 0 <= i < |init| ==> init[i] == lines[i];
    }
  }

  /** The loop of routes.py:253-260, adding each line's font path in turn. */
  method ValidateLines(lines: seq<TextLine>, fontPath: PyValue -> PyValue) returns (r: Result<seq<TextLine>>)
    ensures r == CheckLines(lines, fontPath)
  {
    var out: seq<TextLine> := [];
    var i := 0;
    while i < |lines|
      invariant 0 <= i <= |lines|
      invariant CheckLines(lines[..i], fontPath) == Ok(out)
    {
      var line := lines[i];
      CheckLinesStep(lines, i, fontPath, out);
      if "size" !in line || !IsDigits(Str(line["size"])) {
        r := Err("Font size is required");
        CheckLinesErrStays(lines, i + 1, fontPath);
        return;
      }
      var size := Int(line["size"]);
      if size.Err? || size.value < 1 {
        r := if size.Err? then Err(size.msg) else Err("Font size must be at least 1");
        CheckLinesErrStays(lines, i + 1, fontPath);
        return;
      }
      line := line["path" := fontPath(GetOr(line, "font", PStr("")))];
      var n := Len(GetOr(line, "text", PStr("")));
      if n.Err? || n.value > MaxTextLength {
        r := if n.Err? then Err(n.msg) else Err("Text is too long");
        CheckLinesErrStays(lines, i + 1, fontPath);
        return;
      }
      out := out + [line];
      i := i + 1;
    }
    assert lines[..i] == lines;
    r := Ok(out);
  }

  /** One more line is checked after the lines before it. */
  lemma CheckLinesStep(lines: seq<TextLine>, i: nat, fontPath: PyValue -> PyValue, out: seq<TextLine>)
    requires i < |lines| && CheckLines(lines[..i], fontPath) == Ok(out)
    ensures var c := CheckLine(lines[i], fontPath);
      CheckLines(lines[..i + 1], fontPath) == if c.Ok? then Ok(out + [c.value]) else Err(c.msg)
  {
    assert lines[..i + 1][..i] == lines[..i];
  }

  /** Once a prefix of the lines fails, the whole list fails with the same error. */
  lemma {:induction false} CheckLinesErrStays(lines: seq<TextLine>, k: nat, fontPath: PyValue -> PyValue)
    requires k <= |lines| && CheckLines(lines[..k], fontPath).Err?
    ensures CheckLines(lines, fontPath) == CheckLines(lines[..k], fontPath)
    decreases |lines| - k
  {
    if k < |lines| {
      assert lines[..k + 1][..k] == lines[..k];
      CheckLinesErrStays(lines, k + 1, fontPath);
    } else {
      assert lines[..k] == lines;
    }
  }

  // ---------------------------------------------------------------------------
  // Building the label (routes.py:152-293)

  /** The constructor's arguments for a request: its configuration and its lines. */
  datatype LabelArgs = LabelArgs(config: Config, text: seq<TextLine>)

  /** The size of the uploaded image, if any. */
  function UploadedSize(upload: Option<Upload>, c: Context, env: Env): Result<Option<Pixels>> {
    if upload.None? then Ok(None)
    else
      var img :- UploadedImage(upload.value, c.imageMode, c.threshold, env);
      Ok(Some(img.size))
  }

  /** The label built from the form's options: lines 221-293 once `context` is read. */
  function BuildLabel(c: Context, upload: Option<Upload>, env: Env): Result<LabelArgs> {
    var orientation := OrientationOf(c.orientation);
    var dims :- LabelDimensions(env.labels, c.labelSize, c.highRes);
    var size := Normalize(dims.0, dims.1, orientation);
    var lines :- CheckLines(c.text, env.fontPath);
    var image :- UploadedSize(upload, c, env);
    Ok(LabelArgs(
      Config(size.0, size.1, ContentKind(c.printType, c.imageMode), orientation, LabelTypeOf(c.kind),
             c.barcodeType, c.margins, ColorOf(c.printColor), c.qrSize, c.qrCorrection, c.imageFit, image,
             c.borderThickness, c.borderRoundness, c.borderDistance, ColorOf(c.borderColor)),
      lines))
  }

  /** What `create_label_from_request` builds, or the error it raises. */
  function LabelFromRequest(d: Form, upload: Option<Upload>, env: Env): Result<LabelArgs> {
    var c :- ReadContext(d, env);
    BuildLabel(c, upload, env)
  }

  /**
   * A label built from the form's options is sized from the catalogue entry
   * of its label size (doubled at 600 dpi), landscape unless rotated, has an
   * image exactly when a file was uploaded, and each of its lines is the
   * submitted line that passed the checks.
   */
  lemma BuiltLabel(c: Context, upload: Option<Upload>, env: Env)
    requires BuildLabel(c, upload, env).Ok?
    ensures var args := BuildLabel(c, upload, env).value;
      var dots := FindLabel(env.labels, c.labelSize).value.dotsPrintable;
      var scale := if c.highRes then 2 else 1;
      && multiset{args.config.width, args.config.height} == multiset{scale * dots.0, scale * dots.1}
      && (args.config.orientation.Standard? ==> args.config.width >= args.config.height)
      && (args.config.orientation.Rotated? ==> args.config.height >= args.config.width)
      && (args.config.image.None? <==> upload.None?)
      && args.config.labelType == LabelTypeOf(c.kind)
      && |args.text| == |c.text|
      && forall i :: 0 <= i < |c.text| ==>
           CheckLine(c.text[i], env.fontPath).Ok? && args.text[i] == CheckLine(c.text[i], env.fontPath).value
  {
    CheckLinesSpec(c.text, env.fontPath);
  }

  /**
   * The checks add a `path` to every line, while drawing reads `font_path`
   * and `font_size`: a label built from lines that carry no `font_path`
   * (the editor sends `font` and `size`) never renders once it has text to
   * show.
   */
  lemma CheckedLinesLackFontPath(c: Context, upload: Option<Upload>, env: Env, sym: Symbols, m: Metrics, rotate: bool)
    requires BuildLabel(c, upload, env).Ok?
    requires forall i :: 0 <= i < |c.text| ==> "font_path" !in c.text[i]
    requires ContentKind(c.printType, c.imageMode).ShowsText()
    ensures var args := BuildLabel(c, upload, env).value;
      var r := Render(args.config, args.text, sym, m, rotate);
      && (forall i :: 0 <= i < |args.text| ==> "font_path" !in args.text[i])
      && (|r.text| > 0 ==> r.picture.Err?)
  {
    var args := BuildLabel(c, upload, env).value;
    BuiltLabel(c, upload, env);
    forall i | 0 <= i < |args.text|
      ensures "font_path" !in args.text[i]
    {
      CheckLineSpec(c.text[i], env.fontPath);
    }
    TextNeedsFontPath(args.config, args.text, sym, m, rotate);
  }

  /**
   * A request that builds a label from an uploaded file builds none from
   * the same file read again: the file then has no bytes, and the opener
   * its extension chose refuses it.
   */
  lemma LaterCopiesFail(d: Form, upload: Option<Upload>, env: Env, i: nat)
    requires upload.Some? && i > 0
    requires LabelFromRequest(d, upload, env).Ok?
    ensures LabelFromRequest(d, CopyUpload(upload, i), env).Err?
  {
    var c := ReadContext(d, env).value;
    var u := upload.value;
    var empty := Upload(u.filename, []);
    assert UploadedImage(u, c.imageMode, c.threshold, env).Ok?;
    assert env.openPdf(empty, DefaultDpi).Err? && env.openImage(empty).Err?;
    assert UploadedImage(empty, c.imageMode, c.threshold, env).Err?;
  }

  /** A label size missing from the catalogue is refused before anything else is read. */
  lemma UnknownLabelSize(d: Form, upload: Option<Upload>, env: Env)
    requires forall i :: 0 <= i < |env.labels| ==> env.labels[i].identifier != Get(d, "label_size", "62")
    ensures LabelFromRequest(d, upload, env) == Err("Unknown label_size")
  {
    FindLabelSpec(env.labels, Get(d, "label_size", "62"));
  }

  /**
   * brother_ql's P-touch tapes fall into the last branch of the mapping:
   * they are treated as round die-cut labels and printed auto-rotated.
   */
  lemma PtouchIsRoundDieCut(d: Form, upload: Option<Upload>, env: Env)
    requires LabelFromRequest(d, upload, env).Ok?
    requires FindLabel(env.labels, Get(d, "label_size", "62")).value.formFactor.PtouchEndless?
    ensures LabelFromRequest(d, upload, env).value.config.labelType == RoundDieCutLabel
    ensures RotationFor(LabelFromRequest(d, upload, env).value.config) == RotateAuto
  {
    var c := ReadContext(d, env).value;
    BuiltLabel(c, upload, env);
  }

  /** `create_label_from_request`: a new label, or the error the request raises. */
  method CreateLabelFromRequest(d: Form, upload: Option<Upload>, env: Env) returns (r: Result<SimpleLabel>)
    ensures var spec := LabelFromRequest(d, upload, env);
      && (r.Err? <==> spec.Err?)
      && (r.Err? ==> r.msg == spec.msg)
      && (r.Ok? ==> fresh(r.value) && r.value.config == spec.value.config && r.value.text == spec.value.text)
  {
    var c := ReadContext(d, env);
    if c.Err? {
      return Err(c.msg);
    }
    var orientation := OrientationOf(c.value.orientation);
    var dims := LabelDimensions(env.labels, c.value.labelSize, c.value.highRes);
    if dims.Err? {
      return Err("Unknown label_size");
    }
    var size := Normalize(dims.value.0, dims.value.1, orientation);
    var lines := ValidateLines(c.value.text, env.fontPath);
    if lines.Err? {
      return Err(lines.msg);
    }
    var image := UploadedSize(upload, c.value, env);
    if image.Err? {
      return Err(image.msg);
    }
    var cfg := Config(size.0, size.1, ContentKind(c.value.printType, c.value.imageMode), orientation,
                      LabelTypeOf(c.value.kind), c.value.barcodeType, c.value.margins, ColorOf(c.value.printColor),
                      c.value.qrSize, c.value.qrCorrection, c.value.imageFit, image.value, c.value.borderThickness,
                      c.value.borderRoundness, c.value.borderDistance, ColorOf(c.value.borderColor));
    var lbl := new SimpleLabel(cfg, lines.value);
    r := Ok(lbl);
  }

  // ---------------------------------------------------------------------------
  // The preview route (routes.py:61-86)

  /** The HTTP status of a failed preview: 413 for a text that is too long. */
  function PreviewStatus(msg: string): (r: int)
    ensures r == 413 || r == 400
    ensures r == 413 <==> Contains(msg, "too long")
  {
    if Contains(msg, "too long") then 413 else 400
  }

  /** The content type of a preview in the requested format. */
  function ContentType(returnFormat: string): (r: string)
    ensures r == "text/plain" <==> returnFormat == "base64"
  {
    if returnFormat == "base64" then "text/plain" else "image/png"
  }

  datatype PreviewResponse =
    | PreviewImage(picture: Picture, contentType: string)
    | PreviewError(status: int, message: string)

  /** The preview for a built label, or the error with its status. */
  function PreviewOf(d: Form, made: Result<LabelArgs>, sym: Symbols, m: Metrics): (r: PreviewResponse)
    ensures r.PreviewError? ==> r.status == PreviewStatus(r.message)
    ensures made.Err? ==> r == PreviewError(PreviewStatus(made.msg), made.msg)
  {
    if made.Err? then PreviewError(PreviewStatus(made.msg), made.msg)
    else
      var out := Render(made.value.config, made.value.text, sym, m, true).picture;
      if out.Err? then PreviewError(PreviewStatus(out.msg), out.msg)
      else PreviewImage(out.value, ContentType(Get(d, "return_format", "png")))
  }

  /** `preview_from_image`: builds the label and renders it turned for display. */
  method PreviewFromImage(d: Form, upload: Option<Upload>, env: Env, sym: Symbols, m: Metrics)
    returns (r: PreviewResponse)
    ensures r == PreviewOf(d, LabelFromRequest(d, upload, env), sym, m)
  {
    var made := CreateLabelFromRequest(d, upload, env);
    if made.Err? {
      return PreviewError(PreviewStatus(made.msg), made.msg);
    }
    var im := made.value.Generate(true, sym, m);
    if im.Err? {
      return PreviewError(PreviewStatus(im.msg), im.msg);
    }
    r := PreviewImage(im.value, ContentType(Get(d, "return_format", "png")));
  }

  // ---------------------------------------------------------------------------
  // The print route (routes.py:94-142)

  datatype PrintOptions = PrintOptions(count: int, cutOnce: bool, highRes: bool)

  /** The first block of `print_label`: the copy count, then the cut and resolution flags. */
  function ReadPrintOptions(d: Form): (r: Result<PrintOptions>)
    ensures r.Ok? ==> r.value.count >= 1
    ensures IntField(d, "print_count", 1).Ok? && IntField(d, "print_count", 1).value < 1
            ==> r == Err("print_count must be greater than 0")
    ensures "print_count" !in d && "cut_once" !in d && "high_res" !in d ==> r == Ok(PrintOptions(1, false, false))
  {
    var count :- IntField(d, "print_count", 1);
    if count < 1 then Err("print_count must be greater than 0")
    else
      var cutOnce :- IntField(d, "cut_once", 0);
      var highRes :- IntField(d, "high_res", 0);
      Ok(PrintOptions(count, cutOnce == 1, highRes != 0))
  }

  /** Whether copy `i` of `count` cuts: always, or only the last when cutting once. */
  function CutAfter(i: int, count: int, cutOnce: bool): bool {
    !cutOnce || (cutOnce && i == count - 1)
  }

  /** How many of the first `i` copies are queued: those that cut. */
  function QueuedBefore(i: int, count: int, cutOnce: bool): int {
    if !cutOnce then i else if i == count then 1 else 0
  }

  /** The texts of newly queued labels, all starting from the same lines. */
  function FreshTexts(queued: seq<Entry>, lines: seq<TextLine>): (r: map<SimpleLabel, seq<TextLine>>)
    ensures r.Keys == Labels(queued)
  {
    map l | l in Labels(queued) :: lines
  }

  /** What `print_label` answers. */
  datatype PrintResponse = PrintFailed(message: string) | Printed(success: bool)

  function Respond(r: Result<bool>): (resp: PrintResponse)
    ensures resp.Printed? <==> r.Ok?
  {
    if r.Err? then PrintFailed(r.msg) else Printed(r.value)
  }

  /** Every entry holds a label configured as `cfg`, cuts and is not high resolution. */
  predicate CopiesOf(queued: seq<Entry>, cfg: Config) {
    forall e | e in queued :: e.lbl.config == cfg && e.cut && !e.highRes
  }

  /** Every entry holds a label built from `args` and not rendered since. */
  predicate Copies(queued: seq<Entry>, args: LabelArgs)
    reads Labels(queued)
  {
    CopiesOf(queued, args.config) && forall e | e in queued :: e.lbl.text == args.text
  }

  /**
   * The loop of `print_label` (routes.py:119-125): one label per copy,
   * passed to `add_label_to_queue(label, cut, high_res)` as the call is
   * written, so `cut` is the batch size and `high_res` the cut-once flag.
   * A copy that does not cut therefore queues nothing, and no queued entry
   * is high resolution. Each copy reads the upload again (`CopyUpload`):
   * with a file uploaded, the second copy fails and ends the loop, leaving
   * the first copy queued when it cut.
   */
  method QueueCopies(printer: PrinterQueue, d: Form, upload: Option<Upload>, env: Env, opts: PrintOptions,
                     ghost first: Result<LabelArgs>, ghost later: Result<LabelArgs>)
    returns (err: Option<string>, ghost queued: seq<Entry>)
    requires opts.count >= 1 && Yields(d, upload, env, first) && Yields(d, CopyUpload(upload, 1), env, later)
    modifies printer.queue
    ensures printer.queue.entries == old(printer.queue.entries) + queued
    ensures fresh(Labels(queued))
    ensures first.Ok? ==> Copies(queued, first.value)
    ensures first.Err? ==> err == Some(first.msg) && queued == []
    ensures first.Ok? && (opts.count == 1 || upload.None?) ==>
      && err.None?
      && |queued| == (if opts.cutOnce then 1 else opts.count)
    ensures first.Ok? && opts.count > 1 && upload.Some? ==>
      && later.Err? && err == Some(later.msg)
      && |queued| == (if opts.cutOnce then 0 else 1)
  {
    queued := [];
    var i := 0;
    while i < opts.count
      modifies printer.queue
      invariant 0 <= i <= opts.count
      invariant printer.queue.entries == old(printer.queue.entries) + queued
      invariant i > 0 ==> first.Ok?
      invariant i > 1 ==> upload.None?
      invariant |queued| == QueuedBefore(i, opts.count, opts.cutOnce)
      invariant fresh(Labels(queued))
      invariant first.Ok? ==> Copies(queued, first.value)
    {
      ghost var made := if i == 0 then first else later;
      if i > 0 {
        LaterCopy(d, upload, env, first, later, i);
      }
      ghost var added: seq<Entry>;
      err, added := QueueCopy(printer, d, CopyUpload(upload, i), env, CutAfter(i, opts.count, opts.cutOnce),
                              opts.highRes, made);
      if err.Some? {
        return err, queued;
      }
      LabelsAppend(queued, added);
      assert old(printer.queue.entries) + (queued + added) == (old(printer.queue.entries) + queued) + added;
      queued := queued + added;
      i := i + 1;
    }
    err := None;
  }

  /** Every copy after the first reads the upload as the second does: the same request again without a file, or a failure. */
  lemma LaterCopy(d: Form, upload: Option<Upload>, env: Env, first: Result<LabelArgs>, later: Result<LabelArgs>, i: nat)
    requires i > 0 && first.Ok?
    requires Yields(d, upload, env, first) && Yields(d, CopyUpload(upload, 1), env, later)
    ensures Yields(d, CopyUpload(upload, i), env, later)
    ensures upload.None? ==> later == first
    ensures upload.Some? ==> later.Err?
  {
    assert CopyUpload(upload, i) == CopyUpload(upload, 1);
    assert LabelFromRequest(d, upload, env) == first;
    assert LabelFromRequest(d, CopyUpload(upload, 1), env) == later;
    if upload.Some? {
      LaterCopiesFail(d, upload, env, 1);
    }
  }

  lemma LabelsAppend(a: seq<Entry>, b: seq<Entry>)
    ensures Labels(a + b) == Labels(a) + Labels(b)
  {
    forall l | l in Labels(a + b) ensures l in Labels(a) + Labels(b) {
      var e :| e in a + b && e.lbl == l;
    }
    forall l | l in Labels(a) + Labels(b) ensures l in Labels(a + b) {
      if l in Labels(a) {
        var e :| e in a && e.lbl == l;
        assert e in a + b;
      } else {
        var e :| e in b && e.lbl == l;
        assert e in a + b;
      }
    }
  }

  /**
   * `made` is what a request with form `d` yields. Stated over the forms
   * equal to `d`, so that the outcome is unfolded only where a label is
   * actually created.
   */
  ghost predicate Yields(d: Form, upload: Option<Upload>, env: Env, made: Result<LabelArgs>) {
    forall f: Form | f == d :: LabelFromRequest(f, upload, env) == made
  }

  /** One pass of the loop: a new label, queued once if it cuts and not at all otherwise. */
  method QueueCopy(printer: PrinterQueue, d: Form, upload: Option<Upload>, env: Env, cut: bool, highRes: bool,
                   ghost made: Result<LabelArgs>)
    returns (err: Option<string>, ghost added: seq<Entry>)
    requires Yields(d, upload, env, made)
    modifies printer.queue
    ensures printer.queue.entries == old(printer.queue.entries) + added
    ensures made.Err? ==> err == Some(made.msg) && added == []
    ensures made.Ok? ==>
      && err.None?
      && |added| == (if cut then 1 else 0)
      && fresh(Labels(added))
      && Copies(added, made.value)
  {
    var lbl := CreateLabelFromRequest(d, upload, env);
    assert LabelFromRequest(d, upload, env) == made;
    if lbl.Err? {
      return Some(lbl.msg), [];
    }
    printer.AddLabelToQueue(lbl.value, if cut then 1 else 0, highRes, false);
    added := NewEntries(lbl.value, if cut then 1 else 0, highRes, false);
    assert cut ==> added == [Entry(lbl.value, true, false)];
    err := None;
  }

  /**
   * What processing the queue `all` did, starting from the label texts
   * `texts`: each label holds the text its last rendering left, the queue
   * is empty once every job was made, and the answer is the send outcome or
   * the first error.
   */
  predicate Processed(all: seq<Entry>, texts: map<SimpleLabel, seq<TextLine>>, labelSize: string, sym: Symbols,
                      m: Metrics, backend: Backend, device: string, entriesNow: seq<Entry>, resp: PrintResponse)
    reads Labels(all)
  {
    && Covers(all, texts)
    && var run := RunJobs(all, |all|, texts, labelSize, Unrotated(sym, m), backend);
       && Synced(all, run.texts)
       && entriesNow == (if run.jobs.Ok? then [] else all)
       && resp == Respond(if run.jobs.Err? then Err(run.jobs.msg) else SendOutcome(backend.send(run.jobs.value, device)))
  }

  /**
   * `print_label`: reads the options, queues the copies on the shared queue
   * and processes everything queued, including entries left over from an
   * earlier request whose processing failed.
   */
  method PrintLabel(d: Form, upload: Option<Upload>, env: Env, model: string, device: string,
                    queue: SharedQueue, sym: Symbols, m: Metrics, backend: Backend)
    returns (resp: PrintResponse, ghost queued: seq<Entry>)
    modifies queue, Labels(queue.entries)
    ensures var opts := ReadPrintOptions(d);
      var made := LabelFromRequest(d, upload, env);
      if opts.Err? then resp == PrintFailed(opts.msg) && queue.entries == old(queue.entries)
      else if made.Err? then resp == PrintFailed(made.msg) && queue.entries == old(queue.entries)
      else if opts.value.count > 1 && upload.Some? then
        var later := LabelFromRequest(d, CopyUpload(upload, 1), env);
        && later.Err? && resp == PrintFailed(later.msg)
        && queue.entries == old(queue.entries) + queued
        && |queued| == (if opts.value.cutOnce then 0 else 1)
        && fresh(Labels(queued))
        && Copies(queued, made.value)
      else
        && |queued| == (if opts.value.cutOnce then 1 else opts.value.count)
        && fresh(Labels(queued))
        && CopiesOf(queued, made.value.config)
        && Processed(old(queue.entries) + queued, old(TextsOf(queue.entries)) + FreshTexts(queued, made.value.text),
                     Get(d, "label_size", "62"), sym, m, backend, device, queue.entries, resp)
  {
    var printer := new PrinterQueue(model, device, Get(d, "label_size", "62"), queue);
    var opts := ReadPrintOptions(d);
    if opts.Err? {
      return PrintFailed(opts.msg), [];
    }
    ghost var before := queue.entries;
    ghost var oldTexts := TextsOf(queue.entries);
    var err;
    ghost var made := LabelFromRequest(d, upload, env);
    ghost var later := LabelFromRequest(d, CopyUpload(upload, 1), env);
    err, queued := QueueCopies(printer, d, upload, env, opts.value, made, later);
    if err.Some? {
      return PrintFailed(err.value), queued;
    }
    LabelsAppend(before, queued);
    resp := ProcessCopies(printer, before, queued, oldTexts, LabelFromRequest(d, upload, env).value, sym, m, backend);
  }

  /** `process_queue` once the copies are queued after what was there before. */
  method ProcessCopies(printer: PrinterQueue, ghost before: seq<Entry>, ghost queued: seq<Entry>,
                       ghost oldTexts: map<SimpleLabel, seq<TextLine>>, ghost args: LabelArgs,
                       sym: Symbols, m: Metrics, backend: Backend)
    returns (resp: PrintResponse)
    requires printer.queue.entries == before + queued
    requires Copies(queued, args) && Labels(queued) !! Labels(before)
    requires oldTexts.Keys == Labels(before)
    requires forall l | l in Labels(before) :: l.text == oldTexts[l]
    modifies printer.queue, Labels(before + queued)
    ensures Processed(before + queued, oldTexts + FreshTexts(queued, args.text), printer.labelSize, sym, m, backend,
                      printer.deviceSpecifier, printer.queue.entries, resp)
  {
    QueuedTexts(before, queued, oldTexts, args);
    var status := printer.ProcessQueue(sym, m, backend);
    resp := Respond(status);
  }

  /** Before processing, the queue's texts are the old ones plus the new labels' lines. */
  lemma QueuedTexts(before: seq<Entry>, queued: seq<Entry>, oldTexts: map<SimpleLabel, seq<TextLine>>, args: LabelArgs)
    requires Copies(queued, args) && Labels(queued) !! Labels(before)
    requires oldTexts.Keys == Labels(before)
    requires forall l | l in Labels(before) :: l.text == oldTexts[l]
    ensures TextsOf(before + queued) == oldTexts + FreshTexts(queued, args.text)
  {
    LabelsAppend(before, queued);
    forall l | l in Labels(queued) ensures l.text == args.text {
      var e :| e in queued && e.lbl == l;
    }
  }
}
