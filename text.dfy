/**
 * The text block of a label (`SimpleLabel._draw_text` and `_compute_bbox`
 * in app/labeldesigner/label.py).  A first pass measures every line with
 * a running `y`; a second pass places every line according to its
 * alignment.  Font metrics come from the imaging library and are a
 * parameter of the model.
 */
module LabelText {
  import opened Wrappers
  import opened PyValues
  import opened LabelLayout

  /** One text line as the request sends it: a dictionary of JSON values. */
  type TextLine = PyDict

  datatype Font = Font(path: PyValue, size: int)

  /** A bounding box `(x0, y0, x1, y1)` as the imaging library reports it. */
  datatype Box = Box(x0: int, y0: int, x1: int, y1: int)

  /** What the imaging library answers about fonts and text. */
  datatype Metrics = Metrics(
    /** `ImageFont.truetype(path, size)` succeeds. */
    loads: Font -> bool,
    /** `textbbox((0, y), text, font, align)`. */
    textBox: (Font, int, PyValue, PyValue) -> Box,
    /** The bottom of `textbbox((0, 0), "§", font)`, the height of a line. */
    refBottom: Font -> int)

  /** What a line contributes to the layout once its dictionary is read. */
  datatype Style = Style(text: PyValue, spacing: int, font: Font, align: PyValue)

  /** One measured line: its box and the `y` it was measured at. */
  datatype Measured = Measured(box: Box, y: int)

  /** The `anchor` argument of `draw.text`; `NoAnchor` is `None`. */
  datatype Anchor = LeftTop | MiddleTop | RightTop | NoAnchor

  /** One `draw.text` call. */
  datatype TextOp = TextOp(at: Point, text: PyValue, font: Font, anchor: Anchor, spacing: int)

  // ---------------------------------------------------------------------------
  // Reading a line (label.py:331-339, 343)

  /** `int(size * ((line_spacing - 100) / 100))`: the extra space a line gets. */
  function Spacing(size: int, lineSpacing: int): int {
    Trunc(size as real * ((lineSpacing - 100) as real / 100.0))
  }

  /**
   * The spacing is zero at 100 %, has the sign of the excess over 100 % for
   * a positive size, and never exceeds that excess in size.
   */
  lemma SpacingBounds(size: int, lineSpacing: int)
    requires size > 0
    ensures lineSpacing == 100 ==> Spacing(size, lineSpacing) == 0
    ensures lineSpacing >= 100 ==> 0 <= Spacing(size, lineSpacing) * 100 <= size * (lineSpacing - 100)
    ensures lineSpacing <= 100 ==> size * (lineSpacing - 100) <= Spacing(size, lineSpacing) * 100 <= 0
  {
    var x := size as real * ((lineSpacing - 100) as real / 100.0);
    assert x * 100.0 == (size * (lineSpacing - 100)) as real;
    if lineSpacing >= 100 {
      assert x >= 0.0;
    } else {
      assert x < 0.0;
    }
  }

  /** The spacing a line gets: none unless it carries `line_spacing`. */
  function LineSpacing(line: TextLine): Result<int> {
    if "line_spacing" in line then
      var sizeValue :- Index(line, "font_size");
      var size :- Int(sizeValue);
      var spacingValue :- Index(line, "line_spacing");
      var lineSpacing :- Int(spacingValue);
      Ok(Spacing(size, lineSpacing))
    else Ok(0)
  }

  /**
   * Reads one line in the order the code does: its text (an empty text is
   * measured and drawn as a single space), its spacing, its font and its
   * alignment.  A missing key is a KeyError, a font that does not load an
   * OSError.
   */
  function ReadLine(line: TextLine, m: Metrics): Result<Style> {
    var raw :- Index(line, "text");
    var n :- Len(raw);
    var spacing :- LineSpacing(line);
    var path :- Index(line, "font_path");
    var sizeValue :- Index(line, "font_size");
    var size :- Int(sizeValue);
    var font := Font(path, size);
    if !m.loads(font) then Err("cannot open resource")
    else
      var align :- Index(line, "align");
      Ok(Style(if n == 0 then PStr(" ") else raw, spacing, font, align))
  }

  /**
   * A line is readable only when it carries its text, font path, font size
   * and alignment; its empty text becomes a space, and without a
   * `line_spacing` key (or at 100 %) it gets no extra spacing.
   */
  lemma ReadLineFacts(line: TextLine, m: Metrics)
    requires ReadLine(line, m).Ok?
    ensures "text" in line && "font_path" in line && "font_size" in line && "align" in line
    ensures line["text"] == PStr("") ==> ReadLine(line, m).value.text == PStr(" ")
    ensures line["text"].PStr? && line["text"] != PStr("") ==> ReadLine(line, m).value.text == line["text"]
    ensures ReadLine(line, m).value.align == line["align"]
    ensures "line_spacing" !in line ==> ReadLine(line, m).value.spacing == 0
    ensures "line_spacing" in line && line["line_spacing"] == PInt(100) ==> ReadLine(line, m).value.spacing == 0
  {
  }

  // ---------------------------------------------------------------------------
  // The measuring pass (label.py:328-346)

  /** Every line read in order; the first line that cannot be read decides the error. */
  function ReadLines(lines: seq<TextLine>, m: Metrics): (r: Result<seq<Style>>)
    ensures r.Ok? ==> |r.value| == |lines|
  {
    if |lines| == 0 then Ok([])
    else
      var front :- ReadLines(lines[..|lines| - 1], m);
      var last :- ReadLine(lines[|lines| - 1], m);
      Ok(front + [last])
  }

  /** The lines read one by one are the lines read together. */
  lemma {:induction false} ReadLinesPointwise(lines: seq<TextLine>, m: Metrics)
    ensures ReadLines(lines, m).Ok? <==> forall i :: 0 <= i < |lines| ==> ReadLine(lines[i], m).Ok?
    ensures ReadLines(lines, m).Ok? ==>
      forall i :: 0 <= i < |lines| ==> ReadLines(lines, m).value[i] == ReadLine(lines[i], m).value
  {
    if |lines| > 0 {
      var front := lines[..|lines| - 1];
      ReadLinesPointwise(front, m);
      assert forall i :: 0 <= i < |front| ==> front[i] == lines[i];
    }
  }

  /** A line that cannot be read stops the whole pass with its error. */
  lemma {:induction false} ReadLinesErrExtends(lines: seq<TextLine>, k: nat, m: Metrics)
    requires k <= |lines| && ReadLines(lines[..k], m).Err?
    ensures ReadLines(lines, m) == ReadLines(lines[..k], m)
    decreases |lines| - k
  {
    if k < |lines| {
      assert lines[..k + 1][..k] == lines[..k];
      ReadLinesErrExtends(lines, k + 1, m);
    } else {
      assert lines[..k] == lines;
    }
  }

  /** How far `y` moves past a line that is not the last one. */
  function Advance(s: Style, m: Metrics): int {
    m.refBottom(s.font) + 2 * s.spacing
  }

  /** The `y` at which the line after `styles` is measured. */
  function Y(styles: seq<Style>, m: Metrics): int {
    if |styles| == 0 then 0 else Y(styles[..|styles| - 1], m) + Advance(styles[|styles| - 1], m)
  }

  function MeasureAt(s: Style, y: int, m: Metrics): Measured {
    Measured(m.textBox(s.font, y, s.text, s.align), y)
  }

  /** The boxes of the measuring pass, one per line. */
  function Layout(styles: seq<Style>, m: Metrics): (r: seq<Measured>)
    ensures |r| == |styles|
  {
    seq(|styles|, i requires 0 <= i < |styles| => MeasureAt(styles[i], Y(styles[..i], m), m))
  }

  /** What the measuring pass returns (`bboxes`). */
  function Measure(lines: seq<TextLine>, m: Metrics): Result<seq<Measured>> {
    var styles :- ReadLines(lines, m);
    Ok(Layout(styles, m))
  }

  lemma ReadLinesSnoc(lines: seq<TextLine>, i: nat, styles: seq<Style>, s: Style, m: Metrics)
    requires i < |lines| && ReadLines(lines[..i], m) == Ok(styles) && ReadLine(lines[i], m) == Ok(s)
    ensures ReadLines(lines[..i + 1], m) == Ok(styles + [s])
  {
    assert lines[..i + 1][..i] == lines[..i];
  }

  lemma YSnoc(styles: seq<Style>, s: Style, m: Metrics)
    ensures Y(styles + [s], m) == Y(styles, m) + Advance(s, m)
  {
    assert (styles + [s])[..|styles|] == styles;
  }

  lemma LayoutSnoc(styles: seq<Style>, s: Style, m: Metrics)
    ensures Layout(styles + [s], m) == Layout(styles, m) + [MeasureAt(s, Y(styles, m), m)]
  {
    var all := styles + [s];
    forall i | 0 <= i < |styles|
      ensures all[..i] == styles[..i]
    {
    }
    assert all[..|styles|] == styles;
  }

  /**
   * The measuring pass: the first line is measured at `y = 0` and each
   * following line one reference height plus twice its predecessor's
   * spacing further down; every box is the metric of the line's own text,
   * font and alignment at its `y`.
   */
  lemma {:induction false} MeasureRecurrence(lines: seq<TextLine>, m: Metrics)
    requires ReadLines(lines, m).Ok?
    ensures var styles := ReadLines(lines, m).value;
      var r := Measure(lines, m).value;
      && |r| == |lines|
      && (|r| > 0 ==> r[0].y == 0)
      && (forall i :: 0 <= i < |r| - 1 ==> r[i + 1].y == r[i].y + m.refBottom(styles[i].font) + 2 * styles[i].spacing)
      && (forall i :: 0 <= i < |r| ==> r[i].box == m.textBox(styles[i].font, r[i].y, styles[i].text, styles[i].align))
  {
    var styles := ReadLines(lines, m).value;
    var r := Measure(lines, m).value;
    forall i | 0 <= i < |r| - 1
      ensures r[i + 1].y == r[i].y + m.refBottom(styles[i].font) + 2 * styles[i].spacing
    {
      assert styles[..i + 1][..i] == styles[..i];
    }
  }

  /** The measuring pass as the code runs it: a loop with a running `y`. */
  method MeasureText(lines: seq<TextLine>, m: Metrics) returns (r: Result<seq<Measured>>)
    ensures r == Measure(lines, m)
  {
    var bboxes: seq<Measured> := [];
    var y := 0;
    var i := 0;
    ghost var styles: seq<Style> := [];
    while i < |lines|
      invariant 0 <= i <= |lines|
      invariant ReadLines(lines[..i], m) == Ok(styles)
      invariant bboxes == Layout(styles, m)
      invariant i < |lines| ==> y == Y(styles, m)
    {
      var read := ReadLine(lines[i], m);
      if read.Err? {
        assert lines[..i + 1][..i] == lines[..i];
        ReadLinesErrExtends(lines, i + 1, m);
        return Err(read.msg);
      }
      var s := read.value;
      var box := m.textBox(s.font, y, s.text, s.align);
      var lineHeight := m.refBottom(s.font) + s.spacing;
      ReadLinesSnoc(lines, i, styles, s, m);
      LayoutSnoc(styles, s, m);
      YSnoc(styles, s, m);
      bboxes := bboxes + [Measured(box, y)];
      y := y + lineHeight + (if i < |lines| - 1 then s.spacing else 0);
      styles := styles + [s];
      i := i + 1;
    }
    assert lines[..i] == lines;
    r := Ok(bboxes);
  }

  // ---------------------------------------------------------------------------
  // The text extent (label.py:382-386)

  /** The largest right edge. */
  function MaxRight(ms: seq<Measured>): (r: int)
    requires |ms| > 0
    ensures forall i :: 0 <= i < |ms| ==> ms[i].box.x1 <= r
    ensures exists i :: 0 <= i < |ms| && ms[i].box.x1 == r
  {
    if |ms| == 1 then ms[0].box.x1
    else
      var rest := MaxRight(ms[1..]);
      if ms[0].box.x1 >= rest then ms[0].box.x1 else rest
  }

  /** The smallest left edge. */
  function MinLeft(ms: seq<Measured>): (r: int)
    requires |ms| > 0
    ensures forall i :: 0 <= i < |ms| ==> r <= ms[i].box.x0
    ensures exists i :: 0 <= i < |ms| && ms[i].box.x0 == r
  {
    if |ms| == 1 then ms[0].box.x0
    else
      var rest := MinLeft(ms[1..]);
      if ms[0].box.x0 <= rest then ms[0].box.x0 else rest
  }

  /**
   * The text extent: the first box's top-left corner, the widest right
   * edge, and the last box's bottom stretched by 10 %.
   */
  function ComputeBbox(ms: seq<Measured>): (r: Extent)
    requires |ms| > 0
    ensures r.left == ms[0].box.x0 as real && r.top == ms[0].box.y0 as real
    ensures r.right == MaxRight(ms) as real
    ensures forall i :: 0 <= i < |ms| ==> ms[i].box.x1 as real <= r.right
    ensures exists i :: 0 <= i < |ms| && ms[i].box.x1 as real == r.right
    ensures r.bottom == ms[|ms| - 1].box.y1 as real * 1.1
    ensures ms[|ms| - 1].box.y1 >= 0 ==> r.bottom >= ms[|ms| - 1].box.y1 as real
  {
    Extent(ms[0].box.x0 as real, ms[0].box.y0 as real, MaxRight(ms) as real,
           ms[|ms| - 1].box.y1 as real * 1.1)
  }

  // ---------------------------------------------------------------------------
  // The drawing pass (label.py:347-376)

  /** The horizontal position and anchor for one alignment; `None` for an
      alignment the code does not know, which it only logs. */
  function AlignX(align: PyValue, left: int, right: int, dx: real): Option<(real, Anchor)> {
    if align == PStr("left") then Some((left as real + dx, LeftTop))
    else if align == PStr("center") then Some((FloorHalf((right - left) as real) + left as real + dx, MiddleTop))
    else if align == PStr("right") then Some((right as real + dx, RightTop))
    else None
  }

  /** The error Python raises when `x` is read before any line assigned it. */
  const UnboundX := "cannot access local variable 'x' where it is not associated with a value"

  /**
   * The draw call for one line, read as `s` and measured at `y`, between
   * the block's edges.
   * `prev` is where the previous line was drawn: a line with an unknown
   * alignment is drawn there again, without an anchor, and on the first
   * line there is no such position.
   */
  function DrawLine(s: Style, left: int, right: int, y: int, offset: Point, prev: Option<Point>): Result<TextOp> {
    match AlignX(s.align, left, right, offset.x)
    case Some(xa) => Ok(TextOp(Point(xa.0, y as real + offset.y), s.text, s.font, xa.1, s.spacing))
    case None =>
      if prev.None? then Err(UnboundX)
      else Ok(TextOp(prev.value, s.text, s.font, NoAnchor, s.spacing))
  }

  /** Where the line before line `i` was drawn, if there is one. */
  function PrevAt(ops: seq<TextOp>, i: nat): Option<Point>
    requires i <= |ops|
  {
    if i == 0 then None else Some(ops[i - 1].at)
  }

  /** The draw calls for the first `k` lines, or the first error. */
  function DrawOps(lines: seq<TextLine>, k: nat, m: Metrics, ms: seq<Measured>, offset: Point): (r: Result<seq<TextOp>>)
    requires k <= |lines| == |ms| && |ms| > 0
    ensures r.Ok? ==> |r.value| == k
  {
    if k == 0 then Ok([])
    else
      var front :- DrawOps(lines, k - 1, m, ms, offset);
      var s :- ReadLine(lines[k - 1], m);
      var op :- DrawLine(s, MinLeft(ms), MaxRight(ms), ms[k - 1].y, offset, PrevAt(front, k - 1));
      Ok(front + [op])
  }

  /** Once a line fails, the remaining lines do not change the outcome. */
  lemma {:induction false} DrawOpsErrExtends(lines: seq<TextLine>, k: nat, m: Metrics, ms: seq<Measured>, offset: Point)
    requires k <= |lines| == |ms| && |ms| > 0 && DrawOps(lines, k, m, ms, offset).Err?
    ensures DrawOps(lines, |lines|, m, ms, offset) == DrawOps(lines, k, m, ms, offset)
    decreases |lines| - k
  {
    if k < |lines| {
      DrawOpsErrExtends(lines, k + 1, m, ms, offset);
    }
  }

  /** Left text starts at `left`, right text ends at `right`, centred text lies between. */
  lemma AlignXBounds(align: PyValue, left: int, right: int, dx: real)
    requires left <= right
    ensures AlignX(align, left, right, dx).Some? <==> align in {PStr("left"), PStr("center"), PStr("right")}
    ensures AlignX(align, left, right, dx).Some? ==>
      var xa := AlignX(align, left, right, dx).value;
      && left as real + dx <= xa.0 <= right as real + dx
      && (align == PStr("left") ==> xa == (left as real + dx, LeftTop))
      && (align == PStr("right") ==> xa == (right as real + dx, RightTop))
      && (align == PStr("center") ==> xa.1 == MiddleTop)
  {
    var half := FloorHalf((right - left) as real);
    assert 0.0 <= half <= (right - left) as real;
  }

  /** Line `i` of `ops` is drawn as `DrawLine` places it at its measured
      `y`, after line `i - 1`. */
  predicate DrawnAs(lines: seq<TextLine>, m: Metrics, ms: seq<Measured>, offset: Point, ops: seq<TextOp>, i: nat)
    requires |lines| == |ms| && |ms| > 0 && i < |lines| && i < |ops|
  {
    && ReadLine(lines[i], m).Ok?
    && DrawLine(ReadLine(lines[i], m).value, MinLeft(ms), MaxRight(ms), ms[i].y, offset, PrevAt(ops, i)) == Ok(ops[i])
  }

  /** The draw call of each line, read off one line at a time. */
  lemma {:induction false} DrawOpsPointwise(lines: seq<TextLine>, k: nat, m: Metrics, ms: seq<Measured>, offset: Point)
    requires k <= |lines| == |ms| && |ms| > 0
    requires DrawOps(lines, k, m, ms, offset).Ok?
    ensures forall i {:trigger DrawnAs(lines, m, ms, offset, DrawOps(lines, k, m, ms, offset).value, i)} :: 0 <= i < k ==>
      DrawnAs(lines, m, ms, offset, DrawOps(lines, k, m, ms, offset).value, i)
    decreases k
  {
    if k > 0 {
      var front := DrawOps(lines, k - 1, m, ms, offset);
      var s := ReadLine(lines[k - 1], m);
      assert front.Ok? && s.Ok?;
      var op := DrawLine(s.value, MinLeft(ms), MaxRight(ms), ms[k - 1].y, offset, PrevAt(front.value, k - 1));
      assert op.Ok?;
      var ops := front.value + [op.value];
      assert DrawOps(lines, k, m, ms, offset) == Ok(ops);
      DrawOpsPointwise(lines, k - 1, m, ms, offset);
      forall i | 0 <= i < k
        ensures DrawnAs(lines, m, ms, offset, ops, i)
      {
        if i < k - 1 {
          assert DrawnAs(lines, m, ms, offset, front.value, i);
          assert ops[i] == front.value[i];
          assert PrevAt(ops, i) == PrevAt(front.value, i);
        } else {
          assert PrevAt(ops, i) == PrevAt(front.value, i);
        }
      }
    }
  }

  /** Whether the code knows the alignment of a line. */
  predicate KnownAlign(line: TextLine) {
    "align" in line && line["align"] in {PStr("left"), PStr("center"), PStr("right")}
  }

  /**
   * One line's draw call: a known alignment places it at its measured `y`
   * with the matching anchor between the block's edges; an unknown one
   * draws it again at the previous position without an anchor.
   */
  lemma DrawLineFacts(line: TextLine, m: Metrics, left: int, right: int, y: int, offset: Point, prev: Option<Point>)
    requires left <= right && ReadLine(line, m).Ok?
    requires DrawLine(ReadLine(line, m).value, left, right, y, offset, prev).Ok?
    ensures var op := DrawLine(ReadLine(line, m).value, left, right, y, offset, prev).value;
      && "align" in line
      && (KnownAlign(line) ==> op.at.y == y as real + offset.y && left as real + offset.x <= op.at.x <= right as real + offset.x)
      && (line["align"] == PStr("left") ==> op.anchor == LeftTop && op.at.x == left as real + offset.x)
      && (line["align"] == PStr("right") ==> op.anchor == RightTop && op.at.x == right as real + offset.x)
      && (line["align"] == PStr("center") ==> op.anchor == MiddleTop)
      && (!KnownAlign(line) ==> prev.Some? && op.at == prev.value && op.anchor == NoAnchor)
  {
    ReadLineFacts(line, m);
    AlignXBounds(ReadLine(line, m).value.align, left, right, offset.x);
  }

  /** Every line is drawn between the block's edges, whatever its alignment:
      a line with an unknown alignment reuses the previous line's position. */
  lemma {:induction false} DrawOpsWithin(lines: seq<TextLine>, k: nat, m: Metrics, ms: seq<Measured>, offset: Point)
    requires k <= |lines| == |ms| && |ms| > 0
    requires forall j :: 0 <= j < |ms| ==> ms[j].box.x0 <= ms[j].box.x1
    requires DrawOps(lines, k, m, ms, offset).Ok?
    ensures var ops := DrawOps(lines, k, m, ms, offset).value;
      forall i :: 0 <= i < k ==> MinLeft(ms) as real + offset.x <= ops[i].at.x <= MaxRight(ms) as real + offset.x
    decreases k
  {
    if k > 0 {
      var left, right := MinLeft(ms), MaxRight(ms);
      assert left <= ms[0].box.x0 <= ms[0].box.x1 <= right;
      var front := DrawOps(lines, k - 1, m, ms, offset);
      var s := ReadLine(lines[k - 1], m);
      assert front.Ok? && s.Ok?;
      var op := DrawLine(s.value, left, right, ms[k - 1].y, offset, PrevAt(front.value, k - 1));
      assert op.Ok?;
      assert DrawOps(lines, k, m, ms, offset) == Ok(front.value + [op.value]);
      DrawOpsWithin(lines, k - 1, m, ms, offset);
      DrawLineFacts(lines[k - 1], m, left, right, ms[k - 1].y, offset, PrevAt(front.value, k - 1));
    }
  }

  /**
   * Where line `i` of a drawing pass lands: with a known alignment at its
   * measured `y` shifted by the offset, left text at the leftmost box edge
   * and right text at the rightmost one, each with its anchor; with an
   * unknown alignment at the previous line's position without an anchor,
   * which the first line does not have.
   */
  predicate PlacedAsAligned(lines: seq<TextLine>, ms: seq<Measured>, offset: Point, ops: seq<TextOp>, i: nat)
    requires |lines| == |ms| == |ops| && |ms| > 0 && i < |lines|
  {
    && "align" in lines[i]
    && (KnownAlign(lines[i]) ==> ops[i].at.y == ms[i].y as real + offset.y)
    && (lines[i]["align"] == PStr("left") ==> ops[i].anchor == LeftTop && ops[i].at.x == MinLeft(ms) as real + offset.x)
    && (lines[i]["align"] == PStr("right") ==> ops[i].anchor == RightTop && ops[i].at.x == MaxRight(ms) as real + offset.x)
    && (lines[i]["align"] == PStr("center") ==> ops[i].anchor == MiddleTop)
    && (!KnownAlign(lines[i]) ==> i > 0 && ops[i].at == ops[i - 1].at && ops[i].anchor == NoAnchor)
  }

  /** Line `i` of the whole pass is placed as its alignment says. */
  lemma DrawnLine(lines: seq<TextLine>, m: Metrics, ms: seq<Measured>, offset: Point, i: nat)
    requires |lines| == |ms| && |ms| > 0 && i < |lines|
    requires forall j :: 0 <= j < |ms| ==> ms[j].box.x0 <= ms[j].box.x1
    requires DrawOps(lines, |lines|, m, ms, offset).Ok?
    ensures PlacedAsAligned(lines, ms, offset, DrawOps(lines, |lines|, m, ms, offset).value, i)
  {
    var ops := DrawOps(lines, |lines|, m, ms, offset).value;
    var left, right := MinLeft(ms), MaxRight(ms);
    assert left <= ms[0].box.x0 <= ms[0].box.x1 <= right;
    DrawOpsPointwise(lines, |lines|, m, ms, offset);
    assert DrawnAs(lines, m, ms, offset, ops, i);
    DrawLineFacts(lines[i], m, left, right, ms[i].y, offset, PrevAt(ops, i));
  }

  /** Every line of the pass is drawn between the block's edges and placed
      as its alignment says. */
  lemma DrawPositions(lines: seq<TextLine>, m: Metrics, ms: seq<Measured>, offset: Point)
    requires |lines| == |ms| && |ms| > 0
    requires forall i :: 0 <= i < |ms| ==> ms[i].box.x0 <= ms[i].box.x1
    requires DrawOps(lines, |lines|, m, ms, offset).Ok?
    ensures var ops := DrawOps(lines, |lines|, m, ms, offset).value;
      forall i :: 0 <= i < |lines| ==>
        && MinLeft(ms) as real + offset.x <= ops[i].at.x <= MaxRight(ms) as real + offset.x
        && PlacedAsAligned(lines, ms, offset, ops, i)
  {
    DrawOpsWithin(lines, |lines|, m, ms, offset);
    forall i | 0 <= i < |lines| {
      DrawnLine(lines, m, ms, offset, i);
    }
  }

  /** A first line whose alignment the code does not know stops the pass:
      `x` has not been assigned yet. */
  lemma UnknownFirstAlignment(lines: seq<TextLine>, m: Metrics, ms: seq<Measured>, offset: Point)
    requires |lines| == |ms| && |ms| > 0
    requires ReadLine(lines[0], m).Ok? && !KnownAlign(lines[0])
    ensures DrawOps(lines, |lines|, m, ms, offset) == Err(UnboundX)
  {
    ReadLineFacts(lines[0], m);
    assert DrawOps(lines, 1, m, ms, offset) == Err(UnboundX);
    DrawOpsErrExtends(lines, 1, m, ms, offset);
  }

  /** The drawing pass as the code runs it: a loop over the lines that keeps
      the last position drawn at. */
  method DrawText(lines: seq<TextLine>, m: Metrics, ms: seq<Measured>, offset: Point) returns (r: Result<seq<TextOp>>)
    requires |lines| == |ms| && |ms| > 0
    ensures r == DrawOps(lines, |lines|, m, ms, offset)
  {
    var left := MinLeft(ms);
    var right := MaxRight(ms);
    var ops: seq<TextOp> := [];
    var at: Option<Point> := None;
    var i := 0;
    while i < |lines|
      invariant 0 <= i <= |lines|
      invariant DrawOps(lines, i, m, ms, offset) == Ok(ops)
      invariant at == PrevAt(ops, i)
    {
      var read := ReadLine(lines[i], m);
      if read.Err? {
        DrawOpsErrExtends(lines, i + 1, m, ms, offset);
        return Err(read.msg);
      }
      var s := read.value;
      var placed := AlignX(s.align, left, right, offset.x);
      var op: TextOp;
      if placed.Some? {
        op := TextOp(Point(placed.value.0, ms[i].y as real + offset.y), s.text, s.font, placed.value.1, s.spacing);
      } else if at.None? {
        DrawOpsErrExtends(lines, i + 1, m, ms, offset);
        return Err(UnboundX);
      } else {
        op := TextOp(at.value, s.text, s.font, NoAnchor, s.spacing);
      }
      ops := ops + [op];
      at := Some(op.at);
      i := i + 1;
    }
    r := Ok(ops);
  }
}
