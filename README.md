# brother_ql_web label designer — a Dafny model

This project models the core of brother_ql_web, a small web application that
designs labels and prints them on Brother QL label printers. It covers the
following parts:

- **The label itself.** `SimpleLabel` in `app/labeldesigner/label.py`
  (modules `LabelLayout`, `LabelText` and `Label`):
  - which picture a label carries (QR code, barcode, uploaded image or none);
  - how an image is scaled to fit;
  - how large an endless label grows;
  - where the image and the text block are placed;
  - how every text line is measured and aligned;
  - when a preview is turned;
  - whether the border rectangle is valid.
- **The print queue and the printer status.** `app/labeldesigner/printer.py`
  (module `Printer`). The queue is a class attribute of `PrinterQueue`, so it
  is one `SharedQueue` object that every printer queue refers to.
- **The web routes.** `app/labeldesigner/routes.py` (module `Routes`):
  - reading the submitted form into a label;
  - validating the text lines;
  - the preview route and the print route;
  - the list of barcode kinds.
- **The font registry.** `app/fonts.py` (module `FontRegistry`):
  - scanning the font directories;
  - folding child families such as "DejaVu Sans Condensed" into their parent
    family;
  - the sorted family and style lists.
- **The server helpers.** `app/utils.py` (module `Utils`): the black-and-white
  threshold and `fill_first_line_fields`.
- **The browser's object diff.** `app/static/js/utils.js` (module `JsUtils`):
  `flattenObject`, `diffFlatten` and `compareObjects`.
- **The browser's editor state.** `app/static/js/main.js` and its older copy
  `app/labeldesigner/templates/main.js` (module `Editor`):
  - the font settings kept for each text line;
  - the line the caret is on;
  - the bounded undo history of saved settings.

Shared building blocks:

- `Wrappers`: `Option` and `Result`.
- `Strings`: Python's and JavaScript's string operations.
- `PyValues`: JSON and Python values, with `str`, `int`, `len` and indexing.
- `OrderedDict`: an insertion-ordered dictionary, as used by Python `dict`s
  and JavaScript objects.

State that the source updates in place is modelled by classes:

- `SimpleLabel.text`, because `generate` drops a barcode's line;
- the shared print queue;
- the font registry;
- the flattener's path and result;
- the form data dictionary;
- `fontSettingsPerLine`;
- the settings history in local storage.

Each method is proved against a specification function, and the properties
the source promises are lemmas about those functions.

Everything outside the program is a parameter:

- PIL's font metrics and image decoding, which refuses a file without bytes;
- the QR and barcode generators;
- brother_ql's label catalogue, raster conversion and transport;
- `json.loads` / `JSON.parse`;
- the file system walk;
- the DOM.

## Model

| member | source | states |
|---|---|---|
| LabelLayout.FloorHalf | app/labeldesigner/label.py:229-230 | `x // 2` on an int or float is the largest whole number at most `x / 2` |
| LabelLayout.Trunc | app/labeldesigner/label.py:201 | `int(x)` truncates toward zero on both signs |
| LabelLayout.MaxWidth | app/labeldesigner/label.py:172 | the room across is the width minus the side margins, but never below 1 |
| LabelLayout.MaxHeight | app/labeldesigner/label.py:173 | the room along is the height minus the top and bottom margins, but never below 1 |
| LabelLayout.FitScale | app/labeldesigner/label.py:183-197 | the scale fails with a division by zero exactly when a limiting side of the image is 0; otherwise it is in (0, 1] and no larger than the limit/side ratio of every side that limits for this orientation and label type |
| LabelLayout.Scaled | app/labeldesigner/label.py:201 | scaling by at most 1 never enlarges either side |
| LabelLayout.RatioBound | app/labeldesigner/label.py:187-201 | a scale within `limit / side` keeps the truncated side within the limit |
| LabelLayout.FitBounds | app/labeldesigner/label.py:165-210 | the fitted image is no larger than the original and within every limit that applies, and a resized image has no side of 0 |
| LabelLayout.FitKeepsFittingImage | app/labeldesigner/label.py:183-203 | an image that already fits keeps its size |
| LabelLayout.FitFillsEndlessWidth | app/labeldesigner/label.py:185-187 | on standard endless tape a wider image fails with PIL's "height and width must be > 0" exactly when its height scales below one pixel (`h * maxWidth < w`), and otherwise is scaled to exactly the available width |
| LabelLayout.LabelSize | app/labeldesigner/label.py:219-225 | die-cut labels keep their size; endless labels grow along the tape to image plus text plus margins, and keep the other side |
| LabelLayout.ImagePlacement | app/labeldesigner/label.py:240-257 | the image sits at the top margin and is centred across (standard), or sits at the left margin and is centred along (rotated) |
| LabelLayout.EndlessTextFollowsImage | app/labeldesigner/label.py:231-255 | on endless tape the text starts exactly where the image ends (the image at the margin, the text at the margin plus the image); for `TEXT_QRCODE` the margin before both is 1.25 times as wide, leaving a quarter-margin gap between the symbol and the text |
| LabelLayout.TextOffsetClamped | app/labeldesigner/label.py:239-247 | the text is never placed left of 0 (standard), nor over the image on rotated die-cut labels |
| LabelLayout.StandardTextCentred | app/labeldesigner/label.py:239 | a text block that fits across is centred, rounding down |
| LabelLayout.CanvasSize | app/labeldesigner/label.py:262 | the canvas is created exactly when neither truncated side is negative, and then its sides are exactly `int(width)` and `int(height)` |
| LabelLayout.PreviewRotationRule | app/labeldesigner/label.py:272-275 | a preview is turned exactly when "rotated" and "endless" agree: rotated endless or standard die-cut |
| LabelLayout.TurnedSize | app/labeldesigner/label.py:276-277 | turning by -90 degrees with `expand` swaps width and height |
| LabelLayout.BorderRect | app/labeldesigner/label.py:279-291 | without thickness there is no border; otherwise the rectangle is invalid exactly when twice a distance exceeds the side, and a valid one is symmetric within the canvas |
| LabelText.SpacingBounds | app/labeldesigner/label.py:336 | the extra spacing is 0 at 100 %, and lies between 0 and the exact fraction of the font size, on the side of 100 % the spacing is on |
| LabelText.ReadLineFacts | app/labeldesigner/label.py:329-339 | reading a line needs `text`, `font_path`, `font_size` and `align`; an empty text becomes a single space; the spacing is 0 without `line_spacing` or at 100 |
| LabelText.ReadLinesPointwise | app/labeldesigner/label.py:329-339 | all lines read exactly when each line reads, and the styles are the lines' styles in order |
| LabelText.ReadLinesErrExtends | app/labeldesigner/label.py:329-339 | the first line that fails stops the whole text with its error |
| LabelText.MeasureRecurrence | app/labeldesigner/label.py:341-346 | the first line is measured at y = 0, each next line one reference height plus twice its spacing lower, and each box is the font's box at that y |
| LabelText.MeasureText | app/labeldesigner/label.py:320-346 | the measuring pass of `_draw_text` computes exactly the recurrence above |
| LabelText.MaxRight | app/labeldesigner/label.py:385 | the largest right edge of all line boxes, reached by some line |
| LabelText.MinLeft | app/labeldesigner/label.py:354 | the smallest left edge of all line boxes, reached by some line |
| LabelText.ComputeBbox | app/labeldesigner/label.py:382-386 | the text extent starts at the first box's top-left corner, its right edge is the largest right edge of all boxes (at least every one, and reached by one), and its bottom is exactly 1.1 times the last box's bottom |
| LabelText.AlignXBounds | app/labeldesigner/label.py:348-375 | exactly "left", "center" and "right" are known alignments; they place the line between the leftmost and rightmost edges, with anchors "lt", "mt" and "rt" |
| LabelText.DrawLineFacts | app/labeldesigner/label.py:347-376 | a line with a known alignment is drawn at its measured y with its anchor and between the edges; one with an unknown alignment is only logged and drawn again at the previous line's position with no anchor |
| LabelText.DrawOpsPointwise | app/labeldesigner/label.py:347-376 | the drawing pass draws each line as that line alone places it, given where the line before it was drawn |
| LabelText.DrawOpsWithin | app/labeldesigner/label.py:347-376 | every line is drawn between the leftmost and rightmost box edges, including lines that reuse an earlier position |
| LabelText.DrawnLine | app/labeldesigner/label.py:347-376 | each line of the whole pass is placed as its alignment says |
| LabelText.DrawOpsErrExtends | app/labeldesigner/label.py:329-376 | the first line that fails (a missing key, a font that does not load, or an unknown alignment before any `x` was set) stops the drawing pass with its error |
| LabelText.UnknownFirstAlignment | app/labeldesigner/label.py:372-376 | an unknown alignment on the first line fails with the unbound-local error for `x` |
| LabelText.DrawPositions | app/labeldesigner/label.py:347-376 | every drawn line lies between the block's left and right edges; a known alignment keeps the line's measured y, left lines start at the left edge and right lines end at the right edge, with anchors "lt", "mt", "rt"; an unknown alignment is never on the first line and repeats the previous line's position with no anchor |
| LabelText.DrawText | app/labeldesigner/label.py:320-376 | the drawing loop, which carries the last position drawn at from line to line, produces exactly the specified draw calls |
| Label.QrCorrection | app/labeldesigner/label.py:126-129 | a known level letter maps to its level; anything else maps to level L |
| Label.QrCorrectionRoundTrip | app/labeldesigner/label.py:60-65 | each level's letter maps back to the level |
| Label.PayloadRoundTrip | app/labeldesigner/label.py:309-312 | the QR payload splits at line breaks into exactly the lines' texts followed by an empty piece |
| Label.QrPayload | app/labeldesigner/label.py:309-312 | the payload loop builds exactly the specified payload |
| Label.PickContent | app/labeldesigner/label.py:147-158 | codes make a picture, images use the upload, text makes none; a barcode exists exactly when its kind is known and the first line's text encodes, it is the barcode of that text, and the first line is dropped only once it exists |
| Label.RenderBarcodePayload | app/labeldesigner/label.py:150-154 | a rendered barcode label encodes the first line's text with the chosen kind; the picture pastes an image exactly as large as that barcode fitted to the label, and the remaining lines are those after the first |
| Label.MeasureShown | app/labeldesigner/label.py:212-217 | when text is shown, one measurement per line |
| Label.ExtentOf | app/labeldesigner/label.py:212-217 | without text to show the extent is (0, 0, 0, 0); with text it reaches the widest line and 1.1 times the last line's bottom |
| Label.RenderText | app/labeldesigner/label.py:148-154 | only a barcode changes the label's text, by dropping the first line |
| Label.RenderQrPayload | app/labeldesigner/label.py:147-158 | a rendered QR label keeps all its lines; the QR symbol of the joined lines' text (at the chosen level, box size and colour) is made, and the picture pastes an image exactly as large as that symbol fitted to the label |
| Label.RenderDrawsText | app/labeldesigner/label.py:267-268 | one draw call per remaining line when the content shows text, none otherwise |
| Label.TextNeedsFontPath | app/labeldesigner/label.py:336-339 | a text label whose lines have no `font_path` never renders while lines remain: reading the first one raises a KeyError |
| Label.RenderTurnAndBorder | app/labeldesigner/label.py:270-294 | the picture is turned exactly by the preview rule, and its sides are the computed label size's sides truncated to integers, swapped when it is turned; a border is drawn exactly when the thickness is positive, and it fits |
| Label.PrintNeverTurns | app/labeldesigner/printer.py:70 | printing renders without turning |
| Label.SimpleLabel.constructor | app/labeldesigner/label.py:67-102 | a label holds its configuration and its text lines |
| Label.SimpleLabel.Generate | app/labeldesigner/label.py:147-295 | `generate` returns the rendered picture and leaves the text the rendering leaves |
| Printer.SharedQueue.constructor | app/labeldesigner/printer.py:12 | the shared queue starts empty |
| Printer.NewEntries | app/labeldesigner/printer.py:48-56 | `count` entries are added, none for a count below 1 |
| Printer.NewEntriesShape | app/labeldesigner/printer.py:48-56 | every entry holds the label and the resolution; all cut, or only the last when cutting once |
| Printer.PrinterQueue.AddLabelToQueue | app/labeldesigner/printer.py:48-56 | the shared queue grows by exactly those entries |
| Printer.RotationFor | app/labeldesigner/printer.py:61-68 | die-cut labels rotate "auto", rotated endless labels 90, standard endless labels 0 |
| Printer.EntryJob | app/labeldesigner/printer.py:70-85 | a job exists exactly when the label rendered and the conversion accepted it; red follows the label size name, dithering everything but black-and-white images |
| Printer.StepMatches | app/labeldesigner/printer.py:61-85 | each processed entry appends one job matching the entry |
| Printer.JobsFollowQueue | app/labeldesigner/printer.py:61-85 | job i matches queue entry i in cut, resolution, rotation, dithering, red and label size |
| Printer.RunJobsErrStays | app/labeldesigner/printer.py:61-85 | the first failing entry ends the processing with its error |
| Printer.RepeatedBarcodeLabelShrinks | app/labeldesigner/printer.py:70 | a barcode label queued twice loses a line per rendering, and needs at least two lines to print twice |
| Printer.MakeJob | app/labeldesigner/printer.py:70-85 | making one job renders the label in place and converts it |
| Printer.CollectJobs | app/labeldesigner/printer.py:61-85 | the processing loop produces the specified jobs and leaves each label with the text its last rendering left |
| Printer.PrinterQueue.ProcessQueue | app/labeldesigner/printer.py:58-98 | jobs for every queued entry; the queue is cleared only when every job was made; the answer is the first error or whether the printer printed and is ready |
| Printer.GetPtrStatus | app/labeldesigner/printer.py:100-131 | the status loop computes the specified status dictionary |
| Printer.StatusKeys | app/labeldesigner/printer.py:100-131 | the status always has exactly the default keys |
| Printer.StatusOnFailure | app/labeldesigner/printer.py:128-131 | a failed query leaves the defaults with the error message in `errors` |
| Printer.StatusMerge | app/labeldesigner/printer.py:123-127 | reported known keys override the defaults; `red_support` follows the reported model's two-colour capability |
| Printer.KnownKeysMerge | app/labeldesigner/printer.py:123-124 | a report of known keys merges without error |
| Printer.UnknownKeyReported | app/labeldesigner/printer.py:124 | an unknown first key fails the lookup of its default and leaves the defaults with a KeyError message |
| Routes.IntField | app/labeldesigner/routes.py:163 | a missing field takes its default |
| Routes.GetBarcodes | app/labeldesigner/routes.py:54-58 | "QR" first, then every provided kind upper-cased, in order |
| Routes.BarcodesAreUpperCase | app/labeldesigner/routes.py:56 | no listed kind contains a lower-case ASCII letter |
| Routes.FindLabelSpec | app/labeldesigner/routes.py:155 | the lookup finds the first label with the identifier, and fails exactly when there is none |
| Routes.LabelDimensions | app/labeldesigner/routes.py:184-190 | an unknown size fails with "Unknown label_size"; high resolution doubles both sides |
| Routes.Normalize | app/labeldesigner/routes.py:246-250 | the sides are kept; the wider one runs across for standard and along for rotated labels |
| Routes.ContentKindSpec | app/labeldesigner/routes.py:221-236 | the print type decides text, code or image; the image mode decides the image kind |
| Routes.OrientationOf | app/labeldesigner/routes.py:238 | "rotated" and nothing else rotates |
| Routes.LabelTypeOf | app/labeldesigner/routes.py:239-244 | endless, die-cut, and round die-cut for every other form factor |
| Routes.ColorOf | app/labeldesigner/routes.py:262-263 | "red" prints red, anything else black |
| Routes.SplitExt | app/labeldesigner/routes.py:193 | root plus extension is the file name; the extension is empty or a dot followed by no dot or slash |
| Routes.SplitExtRoundTrip | app/labeldesigner/routes.py:193 | splitting a root and a plain extension gives them back |
| Routes.UploadDispatch | app/labeldesigner/routes.py:192-219 | PDFs are rasterised and then made grayscale or black-and-white; known image types are opened and converted by mode; anything else is refused |
| Routes.RedBlackSpellings | app/labeldesigner/routes.py:212-231 | "red_and_black" converts the upload but prints as black-and-white; "red_black" prints red/black but converts by threshold |
| Routes.ParseTextForm | app/labeldesigner/routes.py:145-149 | an empty field is no lines; anything else is decoded |
| Routes.ReadIntsSpec | app/labeldesigner/routes.py:163-181 | all integer fields parse exactly when each does; the first malformed field's error is reported |
| Routes.ReadContext | app/labeldesigner/routes.py:153-182 | an unknown label size fails; otherwise the context holds the size and its form factor |
| Routes.ContextTextDefaults | app/labeldesigner/routes.py:154-179 | absent text fields take their defaults ("62", "text", "standard", "black", no lines, "QR", "L", "grayscale") |
| Routes.ContextMarginDefaults | app/labeldesigner/routes.py:163-166 | absent margins take 12, 12, 20 and 20 |
| Routes.ContextBorderDefaults | app/labeldesigner/routes.py:167-170 | absent border fields take 1, 0, 0 and 0 |
| Routes.ContextOptionDefaults | app/labeldesigner/routes.py:174-181 | QR size 10, threshold 70, fitting on, timestamp 0, normal resolution |
| Routes.MalformedNumberRejected | app/labeldesigner/routes.py:163-181 | a malformed number in any integer field rejects the request |
| Routes.DigitSize | app/labeldesigner/routes.py:254-256 | a size whose text is all digits converts to that number |
| Routes.CheckLineSpec | app/labeldesigner/routes.py:253-260 | a line passes exactly with an all-digit size of at least 1 and text of at most 10000 characters; it then gains its font path and keeps everything else |
| Routes.NumericSizes | app/labeldesigner/routes.py:254-257 | a negative size is "required", a zero size "must be at least 1" |
| Routes.LongTextIs413 | app/labeldesigner/routes.py:259-260 | text over 10000 characters fails with "too long", which the preview answers with 413 |
| Routes.CheckLinesSpec | app/labeldesigner/routes.py:253-260 | all lines pass exactly when each does; the first failing line's error is reported |
| Routes.ValidateLines | app/labeldesigner/routes.py:253-260 | the validation loop computes exactly that |
| Routes.CheckLinesStep | app/labeldesigner/routes.py:253-260 | each pass of the loop checks one more line after those before it |
| Routes.CheckedLinesLackFontPath | app/labeldesigner/routes.py:253-258 | the checks add `path`, never `font_path`, so a text label built from the editor's lines fails to render whenever it has lines |
| Routes.BuiltLabel | app/labeldesigner/routes.py:246-293 | the built label has the catalogue's sides (doubled at high resolution) in the orientation's order, an image exactly when one was uploaded, and the validated lines |
| Routes.UnknownLabelSize | app/labeldesigner/routes.py:155-157 | an unknown label size fails with "Unknown label_size" |
| Routes.PtouchIsRoundDieCut | app/labeldesigner/routes.py:239-244 | a P-touch endless form factor becomes a round die-cut label and rotates "auto" |
| Routes.CreateLabelFromRequest | app/labeldesigner/routes.py:152-293 | a new label object with the specified configuration and lines, or the specified error |
| Routes.PreviewStatus | app/labeldesigner/routes.py:73 | 413 exactly for "too long" errors, 400 for the rest |
| Routes.ContentType | app/labeldesigner/routes.py:76-83 | base64 answers are plain text, all others PNG |
| Routes.PreviewOf | app/labeldesigner/routes.py:68-74 | a failed label is answered with its message and status |
| Routes.PreviewFromImage | app/labeldesigner/routes.py:61-86 | the preview route answers the specified response for the request |
| Routes.ReadPrintOptions | app/labeldesigner/routes.py:107-112 | a count below 1 is refused; the defaults are one copy, cutting each, normal resolution |
| Routes.Respond | app/labeldesigner/routes.py:126-133 | the answer is a success flag exactly when processing finished |
| Routes.QueueCopies | app/labeldesigner/routes.py:119-125 | as the call is written, one entry per copy that cuts (one when cutting once), each a fresh label from the request that cuts and is not high resolution; with a file uploaded and more than one copy, the second copy's error ends the loop and only the first copy stays queued, if it cut |
| Routes.QueueCopy | app/labeldesigner/routes.py:120-125 | one copy adds one entry when it cuts and none otherwise |
| Routes.PrintLabel | app/labeldesigner/routes.py:94-133 | bad options or a bad label answer an error and queue nothing; with a file uploaded and more than one copy, the second copy's error is the answer and the first copy stays queued, unprocessed, if it cut; otherwise the new copies and any leftovers are processed as the queue specifies |
| Routes.LaterCopiesFail | app/utils.py:33-47 | a request that builds a label from an uploaded file builds none when the copy reads the file again, because `save` has already consumed the stream |
| Routes.LaterCopy | app/labeldesigner/routes.py:119-120 | every copy after the first builds the same outcome as the second: the first copy's label again when nothing was uploaded, and a failure otherwise |
| Routes.ProcessCopies | app/labeldesigner/routes.py:126 | processing the queue with the new copies behind the leftovers |
| Routes.QueuedTexts | app/labeldesigner/routes.py:119-126 | the texts of the queue are the old labels' texts plus the request's lines for each new copy |
| FontRegistry.SearchPathsAsWritten | app/fonts.py:21-22 | as written: the seven system directories followed by each character of the additional path |
| FontRegistry.ExtendSplitsDirectory | app/fonts.py:22 | with the list as written, a longer additional directory is never an entry of the search list itself; only its one-character names are |
| FontRegistry.SearchPaths | app/fonts.py:16-22 | the seven system directories, plus the additional directory as one entry exactly when it is given |
| FontRegistry.FirstNameSpec | app/fonts.py:37-43 | the family (style) is the first non-empty record with name id 1 (2), or empty when there is none |
| FontRegistry.SelectNames | app/fonts.py:35-43 | the record loop with its early exit picks exactly those names |
| FontRegistry.RecordLatest | app/fonts.py:44-45 | the last accepted file for a family and style is the path recorded |
| FontRegistry.RecordOnlyAccepted | app/fonts.py:28-47 | every recorded path was there before or comes from an accepted font file |
| FontRegistry.RecordedFamily | app/fonts.py:44-45 | the family of every accepted file is registered |
| FontRegistry.RecordAllValid | app/fonts.py:25-47 | scanning keeps every family with at least one style, each key once |
| FontRegistry.NewStyleInjective | app/fonts.py:57 | distinct styles of one child never collide under the new style names |
| FontRegistry.ExtraStyleOfChild | app/fonts.py:55-57 | "Family X" becomes style "X" of "Family", and its Regular style is named just "X" |
| FontRegistry.MovedStyle | app/fonts.py:56-58 | every style of the child lands in the parent under its new name with its path |
| FontRegistry.KeptStyle | app/fonts.py:56-58 | the parent's own styles stay unless a moved style takes their name |
| FontRegistry.AbsorbSpec | app/fonts.py:54-61 | absorbing a child removes it, creates or extends the parent, and leaves all other families alone |
| FontRegistry.AbsorbChildrenFacts | app/fonts.py:53-61 | after one family's pass none of its children remains, and only children were removed |
| FontRegistry.ConsolidateOverValid | app/fonts.py:52-61 | consolidation keeps every family with at least one style, each key once |
| FontRegistry.ConsolidatedNoNesting | app/fonts.py:49-61 | after consolidation no family name contains another, no new family appears, and a non-empty registry stays non-empty |
| FontRegistry.ScanSettles | app/fonts.py:25-61 | once one font file is accepted, the scanned and consolidated registry is valid, non-empty and free of nesting |
| FontRegistry.SplitStyles | app/fonts.py:73-74 | the preferred and other styles together hold every style once |
| FontRegistry.PreferredStylesAppend | app/fonts.py:73 | the preferred filter keeps order across concatenation |
| FontRegistry.PreferredStylesInOrder | app/fonts.py:73 | the preferred filter keeps registry order: each "Book"/"Regular" style follows exactly the preferred styles registered before it |
| FontRegistry.OrderStylesSpec | app/fonts.py:72-75 | the ordered styles are a permutation: first exactly the preferred filter of the registry's styles ("Book"/"Regular", in registry order), then the rest sorted case-insensitively |
| FontRegistry.RecordAllStep | app/fonts.py:29-45 | scanning one more file records it on top of the earlier ones |
| FontRegistry.WalkedStep | app/fonts.py:25-29 | walking one more directory appends its files |
| FontRegistry.Fonts.constructor | app/fonts.py:7-8 | the registry starts empty and reports no fonts |
| FontRegistry.Fonts.ScanGlobalFonts | app/fonts.py:10-61 | the registry becomes the consolidation of the earlier registry plus every accepted file under the search paths |
| FontRegistry.Fonts.RecordFont | app/fonts.py:30-47 | one file is recorded if it is an accepted font |
| FontRegistry.Fonts.Consolidate | app/fonts.py:52-61 | the three nested loops compute the specified consolidation |
| FontRegistry.Fonts.AbsorbChildrenOf | app/fonts.py:53-61 | one family's pass absorbs, in order, each name registered when the pass began |
| FontRegistry.Fonts.AbsorbChild | app/fonts.py:54-61 | a child's styles move under the parent by their new names and the child is deleted; a name that is not a child changes nothing |
| FontRegistry.FontFamiliesSpec | app/fonts.py:63-65 | the family list is sorted case-insensitively and holds each family once |
| FontRegistry.FontListSpec | app/fonts.py:67-80 | one entry per family in registry order, each with its styles ordered as above |
| FontRegistry.AvailableIffRegistered | app/fonts.py:82-84 | fonts are available exactly when some family is registered |
| Utils.ConvertToBw | app/utils.py:12-16 | one output pixel per input pixel |
| Utils.ConvertToBwSpec | app/utils.py:13-14 | every pixel becomes 0 or 255, and 255 exactly when it is brighter than the threshold |
| Utils.ThresholdMonotone | app/utils.py:13-14 | a higher threshold never whitens a pixel |
| Utils.ThresholdExtremes | app/utils.py:13-16 | a threshold of 255 or more gives all black and a negative one all white |
| Utils.FirstLineFieldsShape | app/utils.py:57-79 | exactly the seven fields are written; size and spacing as strings, the flags as booleans |
| Utils.FirstLineFieldsEmpty | app/utils.py:71-78 | without text every field takes its default |
| Utils.FirstLineFieldsFromLine | app/utils.py:62-70 | with text each field comes from the first line or its default; the flags are the line's truthiness |
| Utils.FirstLineFieldsIgnoreRest | app/utils.py:62-70 | only the first line matters |
| Utils.FormData.constructor | app/utils.py:57 | the form data holds the given entries |
| Utils.FillFirstLineFields | app/utils.py:57-79 | the same dictionary is returned, updated with the seven fields |
| Utils.FillOnlyFields | app/utils.py:62-78 | only the seven fields change; every other key keeps its value or its absence |
| Utils.FillIdempotent | app/utils.py:57-79 | filling twice is filling once |
| JsUtils.DecodedWeight | app/static/js/utils.js:12-18 | decoding a JSON string never grows the value |
| JsUtils.FlattenLeaves | app/static/js/utils.js:19-22 | every flattened leaf lies strictly below its prefix and is not an object |
| JsUtils.FlattenFlat | app/static/js/utils.js:10-22 | an object of plain values flattens to its own entries, one level deep |
| JsUtils.FlattenAppend | app/static/js/utils.js:10 | flattening distributes over the entry order |
| JsUtils.StoreSpec | app/static/js/utils.js:21 | storing the leaves keeps a valid dictionary whose keys are the old ones plus the dotted paths |
| JsUtils.StoreLast | app/static/js/utils.js:21 | a path stored once holds its leaf's value |
| JsUtils.FlattenedErrors | app/static/js/utils.js:4-10 | `undefined` flattens to an empty object; only `null` makes `Object.entries` throw |
| JsUtils.FlattenedKeys | app/static/js/utils.js:3-28 | the keys of a flattened object are exactly the dotted leaf paths |
| JsUtils.FlatObjectUnchanged | app/static/js/utils.js:19-21 | a flat object with distinct keys flattens to itself |
| JsUtils.Flattener.constructor | app/static/js/utils.js:5-6 | an empty result and an empty path |
| JsUtils.Flattener.Dig | app/static/js/utils.js:9-24 | `dig` stores the flattened leaves under the current path and restores the path |
| JsUtils.Flattener.DigEntry | app/static/js/utils.js:11-22 | one entry: decoded, descended into or stored, with the path pushed and popped |
| JsUtils.DigStep | app/static/js/utils.js:10 | digging one more entry stores its leaves after the earlier ones |
| JsUtils.FlattenObject | app/static/js/utils.js:3-28 | `flattenObject` returns the specified flat object or the TypeError |
| JsUtils.DiffFlatten | app/static/js/utils.js:33-59 | `added` holds the new keys, `changed` the differing keys as {from, to}, `removed` the keys gone from `after` |
| JsUtils.DiffStep | app/static/js/utils.js:39-55 | one key of `after` is settled in all three results |
| JsUtils.DiffDone | app/static/js/utils.js:39-57 | once every key of `after` is settled the results are the specified diff |
| JsUtils.CompareObjects | app/static/js/utils.js:61-64 | the diff of the two flattened objects, or the error of either flattening |
| JsUtils.FlattenedValid | app/static/js/utils.js:3-28 | a flattened object lists each key once |
| JsUtils.DiffPartition | app/static/js/utils.js:39-55 | added, changed and removed are disjoint, and together cover every key that differs |
| JsUtils.DiffPatch | app/static/js/utils.js:33-59 | applying the diff to `before` gives `after` |
| JsUtils.DiffSelf | app/static/js/utils.js:39-44 | an object compared with itself has an empty diff |
| Editor.SplitLines | app/static/js/main.js:18 | splitting always yields at least one line |
| Editor.SplitLinesLength | app/static/js/main.js:119-123 | without carriage returns the lines plus one newline each account for the whole text plus one |
| Editor.CaretLine | app/static/js/main.js:116-131 | the first line whose end lies beyond the caret, or line 0 when there is none (the same loop as app/labeldesigner/templates/main.js:115-130) |
| Editor.CaretWithinLine | app/static/js/main.js:122-129 | a caret inside the text lies between the start and the end of the line found |
| Editor.Reconciled | app/static/js/main.js:16-88 | one entry per line, each holding its line's text |
| Editor.NewLinesInherit | app/static/js/main.js:14 | every new line other than the selected one has the controls of the line above it |
| Editor.SelectedNewLineNotInherited | app/static/js/main.js:64 | as written, a line added below a new selected line keeps the old last line's controls |
| Editor.ReconciledIdempotent | app/static/js/main.js:16-88 | reconciling again with the same text and controls changes nothing |
| Editor.ReconciledKeepsControls | app/static/js/main.js:61-87 | editing text alone keeps every line's controls |
| Editor.ReconciledNewLine | app/static/js/main.js:62-71 | a new last line copies the last line when another line is selected, and takes the current controls when none is |
| Editor.LineFonts.constructor | app/static/js/main.js:15 | no settings per line at first |
| Editor.LineFonts.SyncAll | app/static/js/main.js:52-58 | synced: a copy of the current controls for every line, with its text |
| Editor.LineFonts.Grow | app/static/js/main.js:62-72 | new lines copy the current controls or the line before them; existing lines are untouched |
| Editor.LineFonts.SetFontSettingsPerLine | app/static/js/main.js:16-88 | the settings become the reconciled settings for the new text (the same function as app/labeldesigner/templates/main.js:14-85) |
| Editor.Capped | app/static/js/main.js:560 | the history keeps at most 40 entries, the newest ones |
| Editor.SavedSpec | app/static/js/main.js:555-562 | after a save the newest entry is the saved settings, and a push never leaves more than 40 entries |
| Editor.SavedNoRepeats | app/static/js/main.js:556 | saving never puts the same settings twice in a row |
| Editor.UndoAfterSave | app/static/js/main.js:566-581 | undoing right after saving new settings restores the earlier history and settings |
| Editor.UndoStepsSpec | app/static/js/main.js:583-591 | the undo button is enabled exactly when an undo would act, and each undo takes one step off the counter |
| Editor.SettingsStore.constructor | app/static/js/main.js:520-522 | the store holds the given history and settings |
| Editor.SettingsStore.SaveSettings | app/static/js/main.js:547-563 | the settings become current and the history becomes the saved history |
| Editor.SettingsStore.UndoSettings | app/static/js/main.js:566-581 | with fewer than two entries nothing changes; otherwise the newest entry is dropped and the one before becomes current |
| Strings.SortByLowerCorrect | app/fonts.py:65 | `sorted(key=str.lower)` gives a case-insensitively sorted permutation |
| Strings.SortByLowerStable | app/fonts.py:65 | the sort is stable: names equal up to case keep their input order |
| Strings.ReplaceLeading | app/fonts.py:55 | removing a leading "Family " leaves the rest when it does not recur |
| Strings.UpperHasNoLowerLetter | app/labeldesigner/routes.py:56 | an upper-cased string has no lower-case ASCII letter |
| Strings.IntRoundTrip | app/labeldesigner/routes.py:163 | `int(str(i)) == i` |
| Strings.SplitOnFirst | app/labeldesigner/label.py:311-312 | a piece without the separator, then the separator, splits into that piece and the rest |
| PyValues.Index | app/labeldesigner/label.py:331 | `d[key]` succeeds exactly for a present key and yields its value |
| PyValues.Len | app/labeldesigner/routes.py:259 | `len` of a string is its length; `len` of a number fails |
| PyValues.IntOfStr | app/utils.py:63 | converting an int to its string and back gives the int |
| OrderedDict.PutThenGet | app/fonts.py:58-61 | assigning a key changes only that key, and `del` forgets only that key |
| OrderedDict.WithoutDistinct | app/fonts.py:61 | deleting a key keeps the other keys distinct |

## Findings

| source | as written | input that shows it | evidently intended | confidence | as-written member | corrected member |
|---|---|---|---|---|---|---|
| app/fonts.py:22 | `search_paths.extend(additional_path)` with a string appends each character as a directory | `additional_path = "/fonts"` adds "/", "f", "o", … as entries; "/fonts" is never an entry itself and is reached only through the walk of "/", along with the whole file system | append the directory as one entry | high, not executed | FontRegistry.SearchPathsAsWritten | FontRegistry.SearchPaths |
| app/static/js/main.js:64 | `i === selectedLine` compares the loop's number with the selector's string value and never holds | one old line, a three-line text and the second line selected: the third line copies the first line's font instead of the selected line's | a new selected line takes the current font, and the lines after it inherit it | medium, not executed | Editor.UnsyncedControlsAsWritten | Editor.UnsyncedControls |

The model uses the corrected definitions throughout.
`FontRegistry.Fonts.ScanGlobalFonts` searches `SearchPaths`.
`Editor.LineFonts.SetFontSettingsPerLine` compares the index as a number.
The same comparison appears in app/labeldesigner/templates/main.js:61.

## Left out

- Revision mismatches between the core files are resolved as follows:
  - `create_label_from_request` passes `timestamp` and `counter` to `SimpleLabel`, whose constructor takes neither. The model drops both.
  - `print_label` calls `process_queue(offline)`, which takes no argument. The model uses the zero-argument `process_queue`, with no offline mode.
  - `add_label_to_queue(label, cut, high_res)` is bound positionally as written, so `count=cut` and `cut_once=high_res`. This is what `Routes.QueueCopies` states.
  - `create_label_from_request` stores each line's font under `path` and reads the editor's `font` and `size` keys (routes.py:254-258). `_draw_text` reads `font_path` and `font_size` (label.py:336-339). The model keeps both as written, so a text label built from the editor's lines fails to render with a KeyError. `Routes.CheckedLinesLackFontPath` and `Label.TextNeedsFontPath` state this.
  - `Fonts` has no `get_path` or `get_default_font` (app/fonts.py:6-84). Yet routes.py:258 calls `FONTS.get_path`, and routes.py:42-43 and utils.py:65, 74 call `FONTS.get_default_font()`. At utils.py:65 the call sits in a `.get` default, which Python evaluates even when the key is present. app/utils.py:9 imports `init_fonts`, which app/__init__.py does not define. app/__init__.py:42 calls `fonts.Fonts` with four arguments, but its constructor takes none. The model makes the font path lookup a parameter (`Env.fontPath`) and the default family a parameter (`Defaults.fontFamily`), so `CheckLine` and `FirstLineFields` succeed where the code as written raises AttributeError.
- `SimpleLabel.qr_correction`'s getter (label.py:120-124) is not modelled. It unpacks each one-letter key into two names, which fails. `generate` never calls it.
- `_ensure_pil_image` and the imaging work are outside the model. Metrics and symbol sizes are parameters, and an image is modelled by its width and height only. This covers resizing, pasting, drawing, rotating, PNG and base64 encoding, and the grayscale, red-and-black and `convert('L')` luminance conversions.
- LabelText.DrawLine: the `align` argument passed on to `draw.text` is not modelled. The imaging library uses it only for text containing line breaks, and it rejects an unknown alignment there; a line with an unknown alignment is modelled as single-line text, which is drawn.
- Python floats are modelled as exact reals with explicit floor and truncation. Rounding of IEEE doubles is not modelled.
- `index()`, the `log_level` handling, the error handler's JSON shape and Flask's request and response objects are outside the model. Answers are datatypes.
- `int()` on strings is modelled for optional signs and decimal digits. Surrounding whitespace and `_` separators are not accepted.
- `str.lower`, `str.upper` and `str.isdigit` are modelled on ASCII letters and digits only.
- `os.walk`, `os.path.isdir`, `os.path.expanduser`, `os.path.join`, `TTFont` and the exception it may raise are one parameter. It yields each directory's files with their names, joined paths and name records, or no records when the font cannot be opened.
- `get_printer`, `get_status`, `create_label`, `send` and `ALL_MODELS` are parameters. So is `BrotherQLRaster(model)` (printer.py:59): the model treats it as unable to fail, though it can raise for an unknown model name, and the `model` field is otherwise unused. Logging is not modelled.
- `FONTS` is initialised lazily in `fill_first_line_fields`; the app configuration's defaults are a parameter.
- `JSON.parse` is a parameter. It is required never to return a value larger than its input text, which bounds the recursion of `dig`.
- JavaScript numbers are modelled as integers.
- `json.loads` of the `text` field is modelled only for lists of dictionaries with string keys, over None, booleans, integers, strings and lists. A float such as `12.5` and a nested object cannot be expressed; a float size would be refused with "Font size is required", since `str(12.5).isdigit()` is false. A top-level value other than a list cannot be expressed either.
- The messages of errors raised by PIL, pdf2image, python-barcode and the QR generator are parameters. The model states only that they are raised and that they are the answer. The one exception is the message of PIL's `resize` for a side of 0, which the model spells out.
- `===` on objects compares identity. It only ever meets flattened leaves, which are not objects.
- `flattenObject` on a primitive string yields its characters, as `Object.entries` does. Other primitives yield nothing.
- The key order of the three diff results is not stated; only their contents are.
- The DOM, jQuery and `localStorage` are parameters or fields:
  - the text area, caret, controls, selected line and sync box are parameters;
  - the stored history and current settings are fields holding their JSON text;
  - a history that fails to parse, which the page resets to empty, is not modelled.
- `restoreAllSettingsFromLocalStorage`, the `console.debug` diff and the undo button's DOM update are not modelled. The button's counter and disabled state are `Editor.UndoSteps`.
- Editor.SplitLinesLength: stated only for text without carriage returns. With `\r\n` line ends the caret offsets the page computes are shifted by one per line, and the model does not state by how much.
- The repository's tests were written against a different revision of the routes. They informed the reading of the code but are not restated.
