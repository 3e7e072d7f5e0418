/**
 * The server's helpers (app/utils.py): the black-and-white threshold applied
 * to a grayscale image, and `fill_first_line_fields`, which copies the font
 * settings of a label's first text line into the label's form data.
 *
 * Image decoding and colourisation are done by PIL and are not part of this
 * model; a grayscale image is its sequence of 8-bit luminance values.
 */
module Utils {
  import opened PyValues

  // ---------------------------------------------------------------------------
  // Black and white (utils.py:12-16)

  /** `apply_threshold`: a pixel strictly brighter than the threshold is white. */
  function ApplyThreshold(threshold: int, pixel: int): int {
    if pixel > threshold then 255 else 0
  }

  /** `image.convert('L').point(apply_threshold, mode='1')` on the luminance
      values of the converted image. */
  function ConvertToBw(pixels: seq<int>, threshold: int): (r: seq<int>)
    ensures |r| == |pixels|
  {
    seq(|pixels|, i requires 0 <= i < |pixels| => ApplyThreshold(threshold, pixels[i]))
  }

  /** Every pixel of the converted image is black or white, and it is white
      exactly when its luminance exceeds the threshold; a pixel equal to the
      threshold turns black. */
  lemma ConvertToBwSpec(pixels: seq<int>, threshold: int, i: int)
    requires 0 <= i < |pixels|
    ensures var r := ConvertToBw(pixels, threshold);
      && (r[i] == 0 || r[i] == 255)
      && (r[i] == 255 <==> pixels[i] > threshold)
      && (pixels[i] == threshold ==> r[i] == 0)
  {
  }

  /** Raising the threshold never turns a black pixel white. */
  lemma ThresholdMonotone(pixels: seq<int>, low: int, high: int, i: int)
    requires low <= high && 0 <= i < |pixels|
    ensures ConvertToBw(pixels, high)[i] <= ConvertToBw(pixels, low)[i]
  {
  }

  /** A threshold of 255 or more gives an all-black image for 8-bit input,
      and a negative one an all-white image. */
  lemma ThresholdExtremes(pixels: seq<int>, threshold: int)
    requires forall i | 0 <= i < |pixels| :: 0 <= pixels[i] <= 255
    ensures threshold >= 255 ==> forall i | 0 <= i < |pixels| :: ConvertToBw(pixels, threshold)[i] == 0
    ensures threshold < 0 ==> forall i | 0 <= i < |pixels| :: ConvertToBw(pixels, threshold)[i] == 255
  {
  }

  // ---------------------------------------------------------------------------
  // First-line font settings (utils.py:57-79)

  /** The keys `fill_first_line_fields` writes. */
  const FieldNames: set<string> :=
    {"font_size", "font_inverted", "font", "font_align", "font_checkbox", "font_color", "line_spacing"}

  /** The configured defaults: `LABEL_DEFAULT_FONT_SIZE`,
      `LABEL_DEFAULT_LINE_SPACING` and the family of `FONTS.get_default_font()`. */
  datatype Defaults = Defaults(fontSize: PyValue, lineSpacing: PyValue, fontFamily: PyValue)

  /** `line.get(key, default)`. */
  function LineGet(line: PyDict, key: string, default: PyValue): PyValue {
    if key in line then line[key] else default
  }

  /** The seven values written into the form data. */
  function FirstLineFields(text: seq<PyDict>, defaults: Defaults): map<string, PyValue> {
    if |text| > 0 then
      var line := text[0];
      map[
        "font_size" := PStr(Str(LineGet(line, "size", defaults.fontSize))),
        "font_inverted" := PBool(Truthy(LineGet(line, "inverted", PInt(0)))),
        "font" := LineGet(line, "font", defaults.fontFamily),
        "font_align" := LineGet(line, "align", PStr("left")),
        "font_checkbox" := PBool(Truthy(LineGet(line, "checkbox", PInt(0)))),
        "font_color" := LineGet(line, "color", PStr("black")),
        "line_spacing" := PStr(Str(LineGet(line, "line_spacing", defaults.lineSpacing)))]
    else
      map[
        "font_size" := PStr(Str(defaults.fontSize)),
        "font_inverted" := PBool(false),
        "font" := defaults.fontFamily,
        "font_align" := PStr("left"),
        "font_checkbox" := PBool(false),
        "font_color" := PStr("black"),
        "line_spacing" := PStr(Str(defaults.lineSpacing))]
  }

  /** Exactly the seven keys are written; the size and the spacing are always
      strings and the two flags always booleans. */
  lemma FirstLineFieldsShape(text: seq<PyDict>, defaults: Defaults)
    ensures var m := FirstLineFields(text, defaults);
      && m.Keys == FieldNames
      && m["font_size"].PStr? && m["line_spacing"].PStr?
      && m["font_inverted"].PBool? && m["font_checkbox"].PBool?
  {
  }

  /** Without text every field takes its fixed default. */
  lemma FirstLineFieldsEmpty(defaults: Defaults)
    ensures var m := FirstLineFields([], defaults);
      && m["font_size"] == PStr(Str(defaults.fontSize))
      && m["line_spacing"] == PStr(Str(defaults.lineSpacing))
      && m["font"] == defaults.fontFamily
      && m["font_align"] == PStr("left")
      && m["font_color"] == PStr("black")
      && m["font_inverted"] == PBool(false)
      && m["font_checkbox"] == PBool(false)
  {
  }

  /** With text each field is taken from the first line when it has the key,
      and otherwise takes the default; the flags are the truthiness of the
      line's values. */
  lemma FirstLineFieldsFromLine(text: seq<PyDict>, defaults: Defaults)
    requires |text| > 0
    ensures var m := FirstLineFields(text, defaults);
      var line := text[0];
      && m["font_size"] == PStr(Str(if "size" in line then line["size"] else defaults.fontSize))
      && m["line_spacing"] == PStr(Str(if "line_spacing" in line then line["line_spacing"] else defaults.lineSpacing))
      && m["font"] == (if "font" in line then line["font"] else defaults.fontFamily)
      && m["font_align"] == (if "align" in line then line["align"] else PStr("left"))
      && m["font_color"] == (if "color" in line then line["color"] else PStr("black"))
      && (m["font_inverted"] == PBool(true) <==> "inverted" in line && Truthy(line["inverted"]))
      && (m["font_checkbox"] == PBool(true) <==> "checkbox" in line && Truthy(line["checkbox"]))
  {
  }

  /** The first line alone decides the fields: later lines are ignored. */
  lemma FirstLineFieldsIgnoreRest(text: seq<PyDict>, more: seq<PyDict>, defaults: Defaults)
    requires |text| > 0
    ensures FirstLineFields(text + more, defaults) == FirstLineFields(text, defaults)
  {
    assert (text + more)[0] == text[0];
  }

  /** A label's form data, a dictionary the helper updates in place. */
  class FormData {
    var entries: PyDict

    constructor(entries: PyDict)
      ensures this.entries == entries
    {
      this.entries := entries;
    }
  }

  /** `fill_first_line_fields(text, data)`: writes the seven fields into
      `data` and returns the same dictionary. */
  method FillFirstLineFields(text: seq<PyDict>, data: FormData, defaults: Defaults) returns (r: FormData)
    modifies data
    ensures r == data
    ensures data.entries == old(data.entries) + FirstLineFields(text, defaults)
  {
    data.entries := data.entries + FirstLineFields(text, defaults);
    r := data;
  }

  /** What filling does to a dictionary, key by key: the seven fields take
      their new values and every other key keeps its value or its absence. */
  lemma FillOnlyFields(entries: PyDict, text: seq<PyDict>, defaults: Defaults, k: string)
    ensures var filled := entries + FirstLineFields(text, defaults);
      && filled.Keys == entries.Keys + FieldNames
      && (k in FieldNames ==> filled[k] == FirstLineFields(text, defaults)[k])
      && (k !in FieldNames ==> (k in filled <==> k in entries))
      && (k !in FieldNames && k in entries ==> filled[k] == entries[k])
  {
    FirstLineFieldsShape(text, defaults);
  }

  /** Filling twice is filling once. */
  lemma FillIdempotent(entries: PyDict, text: seq<PyDict>, defaults: Defaults)
    ensures var m := FirstLineFields(text, defaults);
      (entries + m) + m == entries + m
  {
  }
}
