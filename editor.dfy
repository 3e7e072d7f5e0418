/**
 * The label designer's editor state in the browser (app/static/js/main.js
 * and its older copy app/labeldesigner/templates/main.js): the font settings
 * kept for each line of the label text, the line the caret is on, and the
 * bounded undo history of saved settings.
 *
 * The DOM is not modelled: the text area's value, the caret offset, the
 * current font controls, the selected line and the sync checkbox are
 * parameters. The font controls form a record whose fields differ between
 * the two copies, so it is a type parameter `C`.
 */
module Editor {
  import opened Wrappers
  import opened Strings

  // ---------------------------------------------------------------------------
  // Lines of the label text

  /** `text.split(/\r?\n/)`: split at each line feed, dropping a carriage
      return just before it. */
  function SplitLines(text: string): (r: seq<string>)
    ensures |r| >= 1
    decreases |text|
  {
    if '\n' !in text then [text]
    else
      var i := IndexOf(text, '\n');
      var line := text[..i];
      [if |line| > 0 && line[|line| - 1] == '\r' then line[..|line| - 1] else line] + SplitLines(text[i + 1..])
  }

  /** The offset just past line `n - 1` and its line feed: the sum of the
      first `n` line lengths plus one each. */
  function Offset(lines: seq<string>, n: nat): nat
    requires n <= |lines|
  {
    if n == 0 then 0 else Offset(lines, n - 1) + |lines[n - 1]| + 1
  }

  /** The offset just past line `i` and its line feed. */
  function LineEnd(lines: seq<string>, i: nat): nat
    requires i < |lines|
  {
    Offset(lines, i + 1)
  }

  lemma {:induction false} OffsetMonotone(lines: seq<string>, m: nat, n: nat)
    requires m <= n <= |lines|
    ensures Offset(lines, m) + (n - m) <= Offset(lines, n)
    decreases n
  {
    if m < n {
      OffsetMonotone(lines, m, n - 1);
    }
  }

  lemma {:induction false} OffsetCons(line: string, rest: seq<string>, n: nat)
    requires n <= |rest|
    ensures Offset([line] + rest, n + 1) == |line| + 1 + Offset(rest, n)
  {
    var all := [line] + rest;
    if n > 0 {
      OffsetCons(line, rest, n - 1);
      assert all[n] == rest[n - 1];
    }
  }

  /** Without carriage returns the lines and their line feeds account for
      every character of the text, plus one: a caret anywhere in the text
      lies before the end of the last line. */
  lemma {:induction false} SplitLinesLength(text: string)
    requires '\r' !in text
    ensures Offset(SplitLines(text), |SplitLines(text)|) == |text| + 1
    decreases |text|
  {
    var lines := SplitLines(text);
    if '\n' in text {
      var i := IndexOf(text, '\n');
      var rest := text[i + 1..];
      assert '\r' !in text[..i] by {
        forall k | 0 <= k < i ensures text[..i][k] != '\r' {
          assert text[..i][k] == text[k];
        }
      }
      assert '\r' !in rest by {
        forall k | 0 <= k < |rest| ensures rest[k] != '\r' {
          assert rest[k] == text[i + 1 + k];
        }
      }
      SplitLinesLength(rest);
      assert lines == [text[..i]] + SplitLines(rest);
      OffsetCons(text[..i], SplitLines(rest), |SplitLines(rest)|);
    }
  }

  /** The caret loop (main.js:116-131): the first line whose end, line feed
      included, lies beyond the caret, or line 0 when there is none. */
  method CaretLine(caret: int, lines: seq<string>) returns (lineIdx: nat)
    ensures (exists i | 0 <= i < |lines| :: caret < LineEnd(lines, i)) ==>
      && lineIdx < |lines|
      && caret < Offset(lines, lineIdx + 1)
      && (forall k | 0 <= k < lineIdx :: LineEnd(lines, k) <= caret)
    ensures (forall i | 0 <= i < |lines| :: LineEnd(lines, i) <= caret) ==> lineIdx == 0
  {
    var charCount := 0;
    lineIdx := 0;
    var i := 0;
    while i < |lines|
      invariant 0 <= i <= |lines|
      invariant charCount == Offset(lines, i)
      invariant forall k | 0 <= k < i :: LineEnd(lines, k) <= caret
      invariant lineIdx == 0
    {
      var nextCount := charCount + |lines[i]| + 1;
      assert nextCount == LineEnd(lines, i);
      if caret < nextCount {
        lineIdx := i;
        return;
      }
      charCount := nextCount;
      i := i + 1;
    }
  }

  /** A caret inside the text is on the line that contains it: at or after
      that line's start and before the start of the next. */
  lemma CaretWithinLine(text: string, caret: int, lineIdx: nat)
    requires '\r' !in text && 0 <= caret <= |text|
    requires var lines := SplitLines(text);
      && lineIdx < |lines| && caret < Offset(lines, lineIdx + 1)
      && (forall k | 0 <= k < lineIdx :: LineEnd(lines, k) <= caret)
    ensures Offset(SplitLines(text), lineIdx) <= caret < Offset(SplitLines(text), lineIdx + 1)
    ensures exists i | 0 <= i < |SplitLines(text)| :: caret < LineEnd(SplitLines(text), i)
  {
    var lines := SplitLines(text);
    SplitLinesLength(text);
    if lineIdx > 0 {
      assert LineEnd(lines, lineIdx - 1) <= caret;
    }
    assert caret < LineEnd(lines, |lines| - 1);
  }

  // ---------------------------------------------------------------------------
  // Font settings per line (main.js:16-88, templates/main.js:14-85)

  /** One entry of `fontSettingsPerLine`: a copy of some font controls (none
      when it was copied from `undefined`) and the line's text. */
  datatype LineFont<C> = LineFont(controls: Option<C>, text: Option<string>)

  /** The controls a line ends up with when the settings are not synced.
      The selected line takes the current controls; an existing line keeps
      its own; a new line copies the line before it, so it takes the
      current controls when no line is selected or when it follows a new
      selected line, and otherwise those of the last existing line
      (`undefined` when there was none). */
  function UnsyncedControls<C>(prev: seq<LineFont<C>>, current: C, selected: Option<nat>, i: nat): Option<C> {
    if selected == Some(i) then Some(current)
    else if i < |prev| then prev[i].controls
    else Grown(prev, current, selected, i)
  }

  /** The controls of line `i`, not the selected one, added by the growing
      loop. */
  function Grown<C>(prev: seq<LineFont<C>>, current: C, selected: Option<nat>, i: nat): Option<C> {
    if selected.None? || |prev| <= selected.value < i then Some(current)
    else if |prev| == 0 then None
    else prev[|prev| - 1].controls
  }

  /** What `setFontSettingsPerLine` leaves: one entry per line holding the
      line's text, with the current controls everywhere when synced. */
  function Reconciled<C>(prev: seq<LineFont<C>>, lines: seq<string>, current: C, selected: Option<nat>, synced: bool):
    (r: seq<LineFont<C>>)
    ensures |r| == |lines|
  {
    seq(|lines|, i requires 0 <= i < |lines| =>
      LineFont(if synced then Some(current) else UnsyncedControls(prev, current, selected, i), Some(lines[i])))
  }

  /** Every new line other than the selected one has the controls of the
      line above it, as the editor promises. */
  lemma NewLinesInherit<C>(prev: seq<LineFont<C>>, lines: seq<string>, current: C, selected: Option<nat>, synced: bool, i: int)
    requires |prev| < i < |lines| && selected != Some(i)
    ensures Reconciled(prev, lines, current, selected, synced)[i].controls ==
      Reconciled(prev, lines, current, selected, synced)[i - 1].controls
  {
  }

  /** The controls as written: `i === selectedLine` compares a number with
      the line selector's string value and never holds, so a new line always
      copies the line before it as that line was pushed, and the selected
      line takes the current controls only after the growing loop. */
  function UnsyncedControlsAsWritten<C>(prev: seq<LineFont<C>>, current: C, selected: Option<nat>, i: nat): Option<C> {
    if selected == Some(i) then Some(current)
    else if i < |prev| then prev[i].controls
    else if selected.None? then Some(current)
    else if |prev| == 0 then None
    else prev[|prev| - 1].controls
  }

  /** With the comparison as written, a line added below a new selected line
      keeps the controls of the last old line instead of the selected line's:
      one old line, three lines of text, the second selected. */
  lemma SelectedNewLineNotInherited<C>(old0: C, current: C)
    requires old0 != current
    ensures var prev := [LineFont(Some(old0), None)];
      && UnsyncedControlsAsWritten(prev, current, Some(1), 1) == Some(current)
      && UnsyncedControlsAsWritten(prev, current, Some(1), 2) == Some(old0)
      && UnsyncedControls(prev, current, Some(1), 2) == Some(current)
  {
  }

  /** Reconciling again with the same text and controls changes nothing. */
  lemma ReconciledIdempotent<C>(prev: seq<LineFont<C>>, lines: seq<string>, current: C, selected: Option<nat>, synced: bool)
    ensures var once := Reconciled(prev, lines, current, selected, synced);
      Reconciled(once, lines, current, selected, synced) == once
  {
    var once := Reconciled(prev, lines, current, selected, synced);
    var twice := Reconciled(once, lines, current, selected, synced);
    forall i | 0 <= i < |lines| ensures twice[i] == once[i] {
      if !synced && selected != Some(i) {
        assert i < |once|;
      }
    }
  }

  /** Editing a line's text alone (same number of lines, nothing selected,
      not synced) keeps every line's controls. */
  lemma ReconciledKeepsControls<C>(prev: seq<LineFont<C>>, lines: seq<string>, current: C, i: int)
    requires |prev| == |lines| && 0 <= i < |lines|
    ensures Reconciled(prev, lines, current, None, false)[i] == LineFont(prev[i].controls, Some(lines[i]))
  {
  }

  /** Adding a line below the last one copies the controls of the last line
      when another line is selected, and takes the current controls when none
      is. */
  lemma ReconciledNewLine<C>(prev: seq<LineFont<C>>, lines: seq<string>, current: C, selected: Option<nat>)
    requires |lines| == |prev| + 1 && |prev| > 0
    requires selected != Some(|prev|)
    ensures Reconciled(prev, lines, current, selected, false)[|prev|].controls ==
      if selected.None? then Some(current) else prev[|prev| - 1].controls
  {
  }

  /** The page's `fontSettingsPerLine` array. */
  class LineFonts<C> {
    var perLine: seq<LineFont<C>>

    constructor()
      ensures perLine == []
    {
      perLine := [];
    }

    /** The synced case: a fresh copy of the current controls per line. */
    method SyncAll(lines: seq<string>, current: C)
      modifies this
      ensures |perLine| == |lines|
      ensures forall k | 0 <= k < |lines| :: perLine[k] == LineFont(Some(current), Some(lines[k]))
    {
      var built: seq<LineFont<C>> := [];
      var i := 0;
      while i < |lines|
        invariant 0 <= i <= |lines| && |built| == i
        invariant forall k | 0 <= k < i :: built[k] == LineFont(Some(current), Some(lines[k]))
      {
        built := built + [LineFont(Some(current), None)];
        built := built[i := built[i].(text := Some(lines[i]))];
        i := i + 1;
      }
      perLine := built;
    }

    /** The growing loop: new lines up to `n`, each a copy of the current
        controls or of the line before it. */
    method Grow(n: nat, current: C, selected: Option<nat>)
      requires |perLine| <= n
      modifies this
      ensures |perLine| == n
      ensures forall k | 0 <= k < n ::
        perLine[k].controls == if k < |old(perLine)| then old(perLine)[k].controls else UnsyncedControls(old(perLine), current, selected, k)
    {
      ghost var prev := perLine;
      var i := |perLine|;
      while i < n
        invariant |prev| <= i <= n && |perLine| == i
        invariant forall k | 0 <= k < i :: perLine[k].controls == if k < |prev| then prev[k].controls else UnsyncedControls(prev, current, selected, k)
      {
        if selected.None? || selected.value == i {
          perLine := perLine + [LineFont(Some(current), None)];
        } else {
          var inherited := if i > 0 then perLine[i - 1] else LineFont(None, None);
          perLine := perLine + [inherited];
        }
        i := i + 1;
      }
    }

    /** `setFontSettingsPerLine()`. `selected` is the index the line
        selector names, compared with the loop index as a number. */
    method SetFontSettingsPerLine(text: string, current: C, selected: Option<nat>, synced: bool)
      modifies this
      ensures perLine == Reconciled(old(perLine), SplitLines(text), current, selected, synced)
    {
      var lines := SplitLines(text);
      if synced {
        SyncAll(lines, current);
        return;
      }
      ghost var prev := perLine;
      if |perLine| < |lines| {
        Grow(|lines|, current, selected);
      }
      while |perLine| > |lines|
        invariant |lines| <= |perLine| && (|perLine| == |lines| || |perLine| <= |prev|)
        invariant forall k | 0 <= k < |perLine| :: perLine[k].controls == if k < |prev| then prev[k].controls else UnsyncedControls(prev, current, selected, k)
        decreases |perLine|
      {
        perLine := perLine[..|perLine| - 1];
      }
      if selected.Some? && selected.value < |perLine| {
        perLine := perLine[selected.value := LineFont(Some(current), None)];
      }
      var i := 0;
      while i < |lines|
        invariant 0 <= i <= |lines| && |perLine| == |lines|
        invariant forall k | 0 <= k < |lines| :: perLine[k].controls == UnsyncedControls(prev, current, selected, k)
        invariant forall k | 0 <= k < i :: perLine[k].text == Some(lines[k])
      {
        perLine := perLine[i := perLine[i].(text := Some(lines[i]))];
        i := i + 1;
      }
    }
  }

  // ---------------------------------------------------------------------------
  // Undo history (main.js:520-591)

  const MaxHistory: nat := 40

  /** The newest `MaxHistory` entries. */
  function Capped(h: seq<string>): (r: seq<string>)
    ensures |r| <= MaxHistory || r == h
  {
    if |h| > MaxHistory then h[|h| - MaxHistory..] else h
  }

  /** The history after saving `settings`: pushed only when the history is
      empty or its newest entry differs, then capped. */
  function Saved(h: seq<string>, settings: string): seq<string> {
    if |h| == 0 || h[|h| - 1] != settings then Capped(h + [settings]) else h
  }

  /** The history and current settings after an undo, or `None` when there
      is nothing to undo. */
  function Undone(h: seq<string>): Option<(seq<string>, string)> {
    if |h| < 2 then None else Some((h[..|h| - 1], h[|h| - 2]))
  }

  /** `Math.max(0, history.length - 1)`: the counter on the undo button,
      which is disabled when it is 0. */
  function UndoSteps(h: seq<string>): nat {
    if |h| > 0 then |h| - 1 else 0
  }

  /** No entry repeats the one before it. */
  predicate NoRepeats(h: seq<string>) {
    forall i | 0 < i < |h| :: h[i] != h[i - 1]
  }

  /** After a save the newest entry is the saved settings, the history is a
      suffix of the old one plus the new entry, and a push never leaves more
      than `MaxHistory` entries. */
  lemma SavedSpec(h: seq<string>, settings: string)
    ensures var r := Saved(h, settings);
      && |r| > 0 && r[|r| - 1] == settings
      && (|h| <= MaxHistory ==> |r| <= MaxHistory)
      && (r == h || (|r| <= MaxHistory && r == (h + [settings])[|h| + 1 - |r|..]))
  {
    var r := Saved(h, settings);
    if r != h {
      var full := h + [settings];
      if |full| > MaxHistory {
        assert |r| <= |full|;
      } else {
        assert |r| <= |full|;
      }
    }
  }

  /** Saving keeps consecutive entries distinct. */
  lemma SavedNoRepeats(h: seq<string>, settings: string)
    requires NoRepeats(h)
    ensures NoRepeats(Saved(h, settings))
  {
    var full := h + [settings];
    if |full| > MaxHistory && (|h| == 0 || h[|h| - 1] != settings) {
      var r := full[|full| - MaxHistory..];
      forall i | 0 < i < |r| ensures r[i] != r[i - 1] {
        assert r[i] == full[|full| - MaxHistory + i] && r[i - 1] == full[|full| - MaxHistory + i - 1];
      }
    }
  }

  /** Undoing right after saving new settings restores the history and the
      settings that were current before, as long as the cap dropped
      nothing. */
  lemma UndoAfterSave(h: seq<string>, settings: string)
    requires 0 < |h| < MaxHistory && h[|h| - 1] != settings
    ensures Undone(Saved(h, settings)) == Some((h, h[|h| - 1]))
  {
    assert (h + [settings])[..|h|] == h;
  }

  /** The undo button is enabled exactly when an undo would do something,
      and every undo takes one step off the counter. */
  lemma UndoStepsSpec(h: seq<string>)
    ensures UndoSteps(h) > 0 <==> Undone(h).Some?
    ensures Undone(h).Some? ==> UndoSteps(Undone(h).value.0) == UndoSteps(h) - 1
  {
  }

  /** The page's local storage: the history of saved settings and the
      settings restored on load, each as its JSON text. */
  class SettingsStore {
    var history: seq<string>
    var current: string

    constructor(history: seq<string>, current: string)
      ensures this.history == history && this.current == current
    {
      this.history := history;
      this.current := current;
    }

    /** The saving part of `saveAllSettingsToLocalStorage()`. */
    method SaveSettings(settings: string)
      modifies this
      ensures current == settings
      ensures history == Saved(old(history), settings)
    {
      current := settings;
      if |history| == 0 || history[|history| - 1] != settings {
        history := history + [settings];
        if |history| > MaxHistory {
          history := history[|history| - MaxHistory..];
        }
      }
    }

    /** `undoSettings()`: drop the newest entry and make the one before it
        current; nothing happens with fewer than two entries. */
    method UndoSettings()
      modifies this
      ensures Undone(old(history)).None? ==> history == old(history) && current == old(current)
      ensures Undone(old(history)).Some? ==> (history, current) == Undone(old(history)).value
    {
      if |history| < 2 {
        return;
      }
      history := history[..|history| - 1];
      var prev := history[|history| - 1];
      current := prev;
    }
  }
}
