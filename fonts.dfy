/** The font registry of app/fonts.py: family name -> style name -> font file.
    Scanning records one entry per readable font file from its name table, then
    consolidates "child" families such as "DejaVu Sans Condensed" into their
    "parent" "DejaVu Sans" as extra styles. The filesystem walk and the font
    file parser are parameters: a walk maps each search directory to the files
    found below it, each with its name records, or none when the file could not
    be read. */
module FontRegistry {
  import opened Wrappers
  import opened Strings
  import opened OrderedDict

  /** Style name -> font file path. */
  type Styles = ODict<string>

  /** Family name -> its styles (`self.fonts`, a `defaultdict(dict)`). */
  type Registry = ODict<Styles>

  /** Every family lists its styles once and has at least one: a style is only
      ever written together with its family. */
  ghost predicate ValidRegistry(r: Registry) {
    Valid(r) && forall f | f in r.vals :: Valid(r.vals[f]) && |r.vals[f].keys| > 0
  }

  /** A record of a font's `name` table: its name ID and its text. */
  datatype NameRecord = NameRecord(nameID: int, text: string)

  /** A file the walk found: its name, its joined path, and its name records
      when it could be opened as a font. */
  datatype FontFile = FontFile(name: string, path: string, names: Option<seq<NameRecord>>)

  // ---------------------------------------------------------------------------
  // Where to look (fonts.py:16-22)

  /** The system font directories, `home` standing for the expanded `~`. */
  function SystemFontPaths(home: string): seq<string> {
    ["/usr/share/fonts", "/usr/local/share/fonts", home + "/.fonts", home + "/.local/share/fonts",
     "/Library/Fonts", "/System/Library/Fonts", "C:\\Windows\\Fonts"]
  }

  /** The list as written: `list.extend` with a string adds each of its
      characters as a directory of its own. */
  function SearchPathsAsWritten(home: string, additional: string): (r: seq<string>)
    ensures |r| >= 7 && r[..7] == SystemFontPaths(home)
  {
    SystemFontPaths(home) + (if |additional| > 0 then seq(|additional|, i requires 0 <= i < |additional| => [additional[i]]) else [])
  }

  /** With the list as written, an additional directory whose name is longer
      than one character is never an entry of the list itself: what is added
      are one-character names (an absolute directory is then reached only
      through the walk of "/"). */
  lemma ExtendSplitsDirectory(home: string, additional: string)
    requires |additional| >= 2
    ensures var r := SearchPathsAsWritten(home, additional);
      && |r| == 7 + |additional|
      && forall i | 7 <= i < |r| :: |r[i]| == 1 && r[i] != additional
  {
  }

  /** The search list with the additional directory appended as one entry. */
  function SearchPaths(home: string, additional: string): (r: seq<string>)
    ensures |r| >= 7 && r[..7] == SystemFontPaths(home)
    ensures |additional| > 0 <==> |r| == 8
    ensures |additional| > 0 ==> additional in r
  {
    SystemFontPaths(home) + (if |additional| > 0 then [additional] else [])
  }

  /** Every file below the search directories, directory by directory. */
  function Walked(paths: seq<string>, walk: string -> seq<FontFile>): seq<FontFile> {
    if paths == [] then [] else Walked(paths[..|paths| - 1], walk) + walk(paths[|paths| - 1])
  }

  // ---------------------------------------------------------------------------
  // Family and style from the name table (fonts.py:30-45)

  /** `.ttf` or `.otf`, in any case. */
  predicate IsFontFile(name: string) {
    IsSuffix(".ttf", Lower(name)) || IsSuffix(".otf", Lower(name))
  }

  /** The first non-empty text among the records with this name ID, or "" when
      there is none: an empty text leaves the variable falsy, so a later record
      may still set it. */
  function FirstName(names: seq<NameRecord>, id: int): string {
    if names == [] then ""
    else if names[0].nameID == id && names[0].text != "" then names[0].text
    else FirstName(names[1..], id)
  }

  lemma {:induction false} FirstNameSpec(names: seq<NameRecord>, id: int)
    ensures var r := FirstName(names, id);
      && (r == "" <==> forall i | 0 <= i < |names| && names[i].nameID == id :: names[i].text == "")
      && (r != "" ==> exists i | 0 <= i < |names| ::
            && names[i].nameID == id && names[i].text == r
            && forall j | 0 <= j < i && names[j].nameID == id :: names[j].text == "")
  {
    if names != [] {
      FirstNameSpec(names[1..], id);
      var r := FirstName(names, id);
      if !(names[0].nameID == id && names[0].text != "") {
        if r != "" {
          var i :| 0 <= i < |names[1..]| && names[1..][i].nameID == id && names[1..][i].text == r
                   && forall j | 0 <= j < i && names[1..][j].nameID == id :: names[1..][j].text == "";
          assert names[i + 1] == names[1..][i];
          forall j | 0 <= j < i + 1 && names[j].nameID == id ensures names[j].text == "" {
            if j > 0 {
              assert names[j] == names[1..][j - 1];
            }
          }
        } else {
          forall i | 0 <= i < |names| && names[i].nameID == id ensures names[i].text == "" {
            if i > 0 {
              assert names[i] == names[1..][i - 1];
            }
          }
        }
      }
    }
  }

  /** The family and style under which a file is recorded, if it is. */
  function Accepted(f: FontFile): Option<(string, string)> {
    if !IsFontFile(f.name) || f.names.None? then None
    else
      var family := FirstName(f.names.value, 1);
      var style := FirstName(f.names.value, 2);
      if family == "" || style == "" then None else Some((family, style))
  }

  /** `self.fonts[family][style] = font_path` for one file that is recorded. */
  function RecordFile(r: Registry, f: FontFile): (res: Registry)
  {
    match Accepted(f)
    case None => r
    case Some((family, style)) => Put(r, family, Put(Get(r, family, Empty()), style, f.path))
  }

  /** The files recorded one after the other. */
  function RecordAll(r: Registry, files: seq<FontFile>): (res: Registry)
  {
    if files == [] then r else RecordFile(RecordAll(r, files[..|files| - 1]), files[|files| - 1])
  }

  /** A recorded file's path survives unless a later file has the same family
      and style, in which case that later path wins. */
  lemma {:induction false} RecordLatest(r: Registry, files: seq<FontFile>, i: int)
    requires 0 <= i < |files| && Accepted(files[i]).Some?
    requires forall j | i < j < |files| :: Accepted(files[j]) != Accepted(files[i])
    ensures var (family, style) := Accepted(files[i]).value;
      var res := RecordAll(r, files);
      && family in res.vals && style in res.vals[family].vals
      && res.vals[family].vals[style] == files[i].path
  {
    var (family, style) := Accepted(files[i]).value;
    var prefix := files[..|files| - 1];
    var last := files[|files| - 1];
    if i < |files| - 1 {
      RecordLatest(r, prefix, i);
      var prev := RecordAll(r, prefix);
      match Accepted(last)
      case None =>
      case Some((f2, s2)) =>
        assert f2 != family || s2 != style;
    }
  }

  /** Every recorded entry was there before or comes from a file recorded
      under that family and style with that path. */
  lemma {:induction false} RecordOnlyAccepted(r: Registry, files: seq<FontFile>, family: string, style: string)
    requires family in RecordAll(r, files).vals && style in RecordAll(r, files).vals[family].vals
    ensures var p := RecordAll(r, files).vals[family].vals[style];
      || (family in r.vals && style in r.vals[family].vals && r.vals[family].vals[style] == p)
      || exists i | 0 <= i < |files| :: Accepted(files[i]) == Some((family, style)) && files[i].path == p
  {
    if files != [] {
      var prefix := files[..|files| - 1];
      var last := files[|files| - 1];
      var prev := RecordAll(r, prefix);
      var p := RecordAll(r, files).vals[family].vals[style];
      if Accepted(last) == Some((family, style)) {
        assert files[|files| - 1] == last;
      } else {
        assert family in prev.vals && style in prev.vals[family].vals && prev.vals[family].vals[style] == p;
        RecordOnlyAccepted(r, prefix, family, style);
        if !(family in r.vals && style in r.vals[family].vals && r.vals[family].vals[style] == p) {
          var i :| 0 <= i < |prefix| && Accepted(prefix[i]) == Some((family, style)) && prefix[i].path == p;
          assert files[i] == prefix[i];
        }
      }
    }
  }

  // ---------------------------------------------------------------------------
  // Consolidation (fonts.py:52-61)

  /** The style a child family's style takes under its parent. */
  function NewStyle(extra: string, style: string): string {
    if style == "Regular" then extra else extra + " / " + style
  }

  /** Distinct styles of a child stay distinct under the parent. */
  lemma NewStyleInjective(extra: string, s: string, t: string)
    requires NewStyle(extra, s) == NewStyle(extra, t)
    ensures s == t
  {
    if s != "Regular" && t != "Regular" {
      assert NewStyle(extra, s)[|extra| + 3..] == s;
      assert NewStyle(extra, t)[|extra| + 3..] == t;
    }
  }

  /** `other_family.replace(family + ' ', '')`. */
  function ExtraStyle(family: string, other: string): string {
    ReplaceAll(other, family + " ", "")
  }

  /** `self.fonts[family][new_style] = self.fonts[other][style]` for the styles
      `ks` of the child, in order; `family` is created if it is missing. */
  function MoveStyles(r: Registry, family: string, child: Styles, extra: string, ks: seq<string>): Registry {
    if ks == [] then r
    else
      var prev := MoveStyles(r, family, child, extra, ks[..|ks| - 1]);
      var s := ks[|ks| - 1];
      Put(prev, family, Put(Get(prev, family, Empty()), NewStyle(extra, s), Get(child, s, "")))
  }

  /** Moving the child family `other` under `family` and deleting it. */
  function Absorb(r: Registry, family: string, other: string): (res: Registry)
  {
    var child := Get(r, other, Empty());
    Remove(MoveStyles(r, family, child, ExtraStyle(family, other), child.keys), other)
  }

  /** One pass of the inner loop. */
  function AbsorbIfChild(r: Registry, family: string, other: string): (res: Registry)
  {
    if family != other && Contains(other, family) then Absorb(r, family, other) else r
  }

  /** The inner loop: `family` against each name of `others`, the keys as they
      were when the loop began. */
  function AbsorbChildren(r: Registry, family: string, others: seq<string>): (res: Registry)
  {
    if others == [] then r
    else AbsorbIfChild(AbsorbChildren(r, family, others[..|others| - 1]), family, others[|others| - 1])
  }

  /** The outer loop over `families`, the keys as they were when consolidation began. */
  function ConsolidateOver(r: Registry, families: seq<string>): (res: Registry)
  {
    if families == [] then r
    else
      var prev := ConsolidateOver(r, families[..|families| - 1]);
      AbsorbChildren(prev, families[|families| - 1], prev.keys)
  }

  function Consolidated(r: Registry): (res: Registry)
  {
    ConsolidateOver(r, r.keys)
  }

  // ---------------------------------------------------------------------------
  // Every step keeps the registry well formed

  /** Writing one style of a family. */
  lemma PutStyleValid(r: Registry, family: string, style: string, path: string)
    requires ValidRegistry(r)
    ensures ValidRegistry(Put(r, family, Put(Get(r, family, Empty()), style, path)))
  {
    var styles := Get(r, family, Empty());
    PutValid(styles, style, path);
    PutValid(r, family, Put(styles, style, path));
  }

  lemma {:induction false} RecordAllValid(r: Registry, files: seq<FontFile>)
    requires ValidRegistry(r)
    ensures ValidRegistry(RecordAll(r, files))
  {
    if files != [] {
      RecordAllValid(r, files[..|files| - 1]);
      var prev := RecordAll(r, files[..|files| - 1]);
      match Accepted(files[|files| - 1])
      case None =>
      case Some((family, style)) => PutStyleValid(prev, family, style, files[|files| - 1].path);
    }
  }

  lemma {:induction false} MoveStylesValid(r: Registry, family: string, child: Styles, extra: string, ks: seq<string>)
    requires ValidRegistry(r)
    ensures ValidRegistry(MoveStyles(r, family, child, extra, ks))
  {
    if ks != [] {
      MoveStylesValid(r, family, child, extra, ks[..|ks| - 1]);
      var prev := MoveStyles(r, family, child, extra, ks[..|ks| - 1]);
      var s := ks[|ks| - 1];
      PutStyleValid(prev, family, NewStyle(extra, s), Get(child, s, ""));
    }
  }

  lemma AbsorbIfChildValid(r: Registry, family: string, other: string)
    requires ValidRegistry(r)
    ensures ValidRegistry(AbsorbIfChild(r, family, other))
  {
    if family != other && Contains(other, family) {
      var child := Get(r, other, Empty());
      MoveStylesValid(r, family, child, ExtraStyle(family, other), child.keys);
      RemoveValid(MoveStyles(r, family, child, ExtraStyle(family, other), child.keys), other);
    }
  }

  lemma {:induction false} AbsorbChildrenValid(r: Registry, family: string, others: seq<string>)
    requires ValidRegistry(r)
    ensures ValidRegistry(AbsorbChildren(r, family, others))
  {
    if others != [] {
      AbsorbChildrenValid(r, family, others[..|others| - 1]);
      AbsorbIfChildValid(AbsorbChildren(r, family, others[..|others| - 1]), family, others[|others| - 1]);
    }
  }

  lemma {:induction false} ConsolidateOverValid(r: Registry, families: seq<string>)
    requires ValidRegistry(r)
    ensures ValidRegistry(ConsolidateOver(r, families))
  {
    if families != [] {
      ConsolidateOverValid(r, families[..|families| - 1]);
      var prev := ConsolidateOver(r, families[..|families| - 1]);
      AbsorbChildrenValid(prev, families[|families| - 1], prev.keys);
    }
  }

  // ---------------------------------------------------------------------------
  // What consolidation does

  /** Some style of `ks` is renamed to `t` under the parent. */
  predicate Renamed(extra: string, ks: seq<string>, t: string) {
    exists s | s in ks :: NewStyle(extra, s) == t
  }

  /** Moving styles creates the parent when there is a style to move and leaves
      every other family as it was. */
  lemma {:induction false} MoveStylesKeys(r: Registry, family: string, child: Styles, extra: string, ks: seq<string>)
    ensures var res := MoveStyles(r, family, child, extra, ks);
      && res.vals.Keys == r.vals.Keys + (if ks == [] then {} else {family})
      && forall h | h in r.vals && h != family :: res.vals[h] == r.vals[h]
  {
    if ks != [] {
      MoveStylesKeys(r, family, child, extra, ks[..|ks| - 1]);
    }
  }

  /** The last write under the parent: moving one more style puts the parent
      first and sets that style alone among the parent's styles. */
  lemma MoveStylesLast(r: Registry, family: string, child: Styles, extra: string, ks: seq<string>)
    requires ks != []
    ensures var prev := MoveStyles(r, family, child, extra, ks[..|ks| - 1]);
      var res := MoveStyles(r, family, child, extra, ks);
      var last := ks[|ks| - 1];
      && family in res.vals
      && res.vals[family].vals == Get(prev, family, Empty()).vals[NewStyle(extra, last) := Get(child, last, "")]
  {
  }

  /** A moved style is under the parent with the child's path. */
  lemma {:induction false} MovedStyle(r: Registry, family: string, child: Styles, extra: string, ks: seq<string>, s: string)
    requires s in ks
    ensures var res := MoveStyles(r, family, child, extra, ks);
      && family in res.vals && NewStyle(extra, s) in res.vals[family].vals
      && res.vals[family].vals[NewStyle(extra, s)] == Get(child, s, "")
  {
    var init := ks[..|ks| - 1];
    var last := ks[|ks| - 1];
    MoveStylesLast(r, family, child, extra, ks);
    if s != last {
      assert ks == init + [last];
      MovedStyle(r, family, child, extra, init, s);
      if NewStyle(extra, s) == NewStyle(extra, last) {
        NewStyleInjective(extra, s, last);
      }
    }
  }

  /** A style of the parent that no moved style is renamed to keeps its path. */
  lemma {:induction false} KeptStyle(r: Registry, family: string, child: Styles, extra: string, ks: seq<string>, t: string)
    requires family in r.vals && t in r.vals[family].vals && !Renamed(extra, ks, t)
    ensures var res := MoveStyles(r, family, child, extra, ks);
      && family in res.vals && t in res.vals[family].vals
      && res.vals[family].vals[t] == r.vals[family].vals[t]
  {
    if ks != [] {
      var init := ks[..|ks| - 1];
      var last := ks[|ks| - 1];
      assert ks == init + [last];
      MoveStylesLast(r, family, child, extra, ks);
      assert !Renamed(extra, init, t) && NewStyle(extra, last) != t;
      KeptStyle(r, family, child, extra, init, t);
    }
  }

  /** The name a child's regular style takes: what follows "parent " in
      "parent rest", when `rest` does not repeat it. */
  lemma ExtraStyleOfChild(family: string, rest: string)
    requires !Contains(rest, family + " ")
    ensures ExtraStyle(family, family + " " + rest) == rest
    ensures NewStyle(ExtraStyle(family, family + " " + rest), "Regular") == rest
  {
    ReplaceLeading(family + " ", rest);
  }

  /** Absorbing a child family: the child is gone, the parent exists, each of
      the child's styles is under the parent renamed and with the same path,
      the parent's other styles and all other families are as they were. */
  lemma AbsorbSpec(r: Registry, family: string, other: string)
    requires ValidRegistry(r) && family != other && other in r.vals
    ensures var res := Absorb(r, family, other);
      var child := r.vals[other];
      var extra := ExtraStyle(family, other);
      && family in res.vals
      && res.vals.Keys == r.vals.Keys - {other} + {family}
      && (forall s | s in child.vals ::
            NewStyle(extra, s) in res.vals[family].vals && res.vals[family].vals[NewStyle(extra, s)] == child.vals[s])
      && (forall h | h in r.vals && h != family && h != other :: res.vals[h] == r.vals[h])
      && (family in r.vals ==>
            forall t | t in r.vals[family].vals && !Renamed(extra, child.keys, t) ::
              t in res.vals[family].vals && res.vals[family].vals[t] == r.vals[family].vals[t])
  {
    var child := r.vals[other];
    var extra := ExtraStyle(family, other);
    MoveStylesKeys(r, family, child, extra, child.keys);
    assert child.keys != [];
    forall s | s in child.vals
      ensures var moved := MoveStyles(r, family, child, extra, child.keys);
        NewStyle(extra, s) in moved.vals[family].vals && moved.vals[family].vals[NewStyle(extra, s)] == child.vals[s]
    {
      MovedStyle(r, family, child, extra, child.keys, s);
    }
    if family in r.vals {
      forall t | t in r.vals[family].vals && !Renamed(extra, child.keys, t)
        ensures var moved := MoveStyles(r, family, child, extra, child.keys);
          t in moved.vals[family].vals && moved.vals[family].vals[t] == r.vals[family].vals[t]
      {
        KeptStyle(r, family, child, extra, child.keys, t);
      }
    }
  }

  /** What one pass of the inner loop does to the families. */
  lemma AbsorbIfChildKeys(r: Registry, family: string, other: string)
    requires ValidRegistry(r)
    ensures var res := AbsorbIfChild(r, family, other);
      && res.vals.Keys <= r.vals.Keys + {family}
      && (family != other && Contains(other, family) ==> other !in res.vals)
      && (!(family != other && Contains(other, family)) ==> res == r)
      && (forall k | k in r.vals && k !in res.vals :: k == other && family in res.vals)
      && (family in r.vals ==> family in res.vals)
  {
    if family != other && Contains(other, family) {
      var child := Get(r, other, Empty());
      MoveStylesKeys(r, family, child, ExtraStyle(family, other), child.keys);
      assert other in r.vals ==> child.keys != [];
    }
  }

  /** What one inner loop does to the families. */
  lemma {:induction false} AbsorbChildrenFacts(r: Registry, family: string, others: seq<string>)
    requires ValidRegistry(r)
    ensures var res := AbsorbChildren(r, family, others);
      && res.vals.Keys <= r.vals.Keys + {family}
      && (forall k | k in others && k != family && Contains(k, family) :: k !in res.vals)
      && ((forall k | k in others :: !(k != family && Contains(k, family))) ==> res == r)
      && (forall k | k in r.vals && k !in res.vals :: k != family && Contains(k, family) && family in res.vals)
  {
    if others != [] {
      var init := others[..|others| - 1];
      var o := others[|others| - 1];
      AbsorbChildrenFacts(r, family, init);
      AbsorbChildrenValid(r, family, init);
      var prev := AbsorbChildren(r, family, init);
      AbsorbIfChildKeys(prev, family, o);
      assert others == init + [o];
    }
  }

  /** A string inside another, different one is shorter. */
  lemma StrictlyInside(a: string, b: string)
    requires Contains(a, b) && a != b
    ensures |b| < |a|
  {
    ContainsLength(a, b);
    if |a| == |b| {
      ContainsSameLength(a, b);
    }
  }

  /** The state after the outer loop has taken the first `i` of the families
      `fams` it began with: only those families remain, none that was taken
      occurs inside another remaining family, and every family that is gone
      contains one that was taken and remains. */
  ghost predicate Settled(res: Registry, fams: seq<string>, i: int)
    requires 0 <= i <= |fams|
  {
    && (forall k | k in res.vals :: k in fams)
    && (forall p, k | p in fams[..i] && k in res.vals && k != p :: !Contains(k, p))
    && (forall x | x in fams && x !in res.vals :: exists p | p in fams[..i] :: p in res.vals && p != x && Contains(x, p))
  }

  /** One pass of the outer loop keeps the state settled, one family further. */
  lemma SettledStep(prev: Registry, res: Registry, fams: seq<string>, i: int)
    requires 0 < i <= |fams| && Valid(prev)
    requires Settled(prev, fams, i - 1)
    requires var f := fams[i - 1];
      && res.vals.Keys <= prev.vals.Keys + {f}
      && (forall k | k in prev.keys && k != f && Contains(k, f) :: k !in res.vals)
      && ((forall k | k in prev.keys :: !(k != f && Contains(k, f))) ==> res == prev)
      && (forall k | k in prev.vals && k !in res.vals :: k != f && Contains(k, f) && f in res.vals)
    ensures Settled(res, fams, i)
  {
    var f := fams[i - 1];
    assert fams[..i] == fams[..i - 1] + [f];
    if f !in prev.vals {
      var p :| p in fams[..i - 1] && p in prev.vals && p != f && Contains(f, p);
      forall k | k in prev.keys ensures !(k != f && Contains(k, f)) {
        if k != f && Contains(k, f) {
          ContainsTransitive(k, f, p);
          StrictlyInside(f, p);
          ContainsLength(k, f);
        }
      }
      assert res == prev;
    }
    forall p, k | p in fams[..i] && k in res.vals && k != p ensures !Contains(k, p) {
      if p == f {
        assert k in prev.keys;
      }
    }
    forall x | x in fams && x !in res.vals
      ensures exists p | p in fams[..i] :: p in res.vals && p != x && Contains(x, p)
    {
      if x in prev.vals {
        assert f in res.vals && Contains(x, f);
      } else {
        var p :| p in fams[..i - 1] && p in prev.vals && p != x && Contains(x, p);
        if p !in res.vals {
          ContainsTransitive(x, p, f);
          assert f in res.vals;
        }
      }
    }
  }

  lemma {:induction false} ConsolidateSettled(r: Registry, i: int)
    requires ValidRegistry(r) && 0 <= i <= |r.keys|
    ensures Settled(ConsolidateOver(r, r.keys[..i]), r.keys, i)
  {
    var fams := r.keys;
    if i == 0 {
      assert fams[..0] == [];
    } else {
      ConsolidateSettled(r, i - 1);
      assert fams[..i][..i - 1] == fams[..i - 1];
      var prev := ConsolidateOver(r, fams[..i - 1]);
      ConsolidateOverValid(r, fams[..i - 1]);
      AbsorbChildrenFacts(prev, fams[i - 1], prev.keys);
      SettledStep(prev, ConsolidateOver(r, fams[..i]), fams, i);
    }
  }

  /** After consolidation no remaining family name occurs inside another, no
      family is new, and a registry with a family keeps at least one. */
  lemma ConsolidatedNoNesting(r: Registry)
    requires ValidRegistry(r)
    ensures var res := Consolidated(r);
      && res.vals.Keys <= r.vals.Keys
      && (|r.keys| > 0 ==> |res.keys| > 0)
      && forall f, g | f in res.vals && g in res.vals && f != g :: !Contains(g, f)
  {
    var res := Consolidated(r);
    ConsolidateSettled(r, |r.keys|);
    ConsolidateOverValid(r, r.keys);
    assert r.keys[..|r.keys|] == r.keys;
    if |r.keys| > 0 {
      var x := r.keys[0];
      if x !in res.vals {
        var p :| p in r.keys && p in res.vals && p != x && Contains(x, p);
        assert p in res.keys;
      } else {
        assert x in res.keys;
      }
    }
  }

  /** A family recorded from a file stays: recording never drops a family. */
  lemma {:induction false} RecordedFamily(r: Registry, files: seq<FontFile>, i: int)
    requires 0 <= i < |files| && Accepted(files[i]).Some?
    ensures Accepted(files[i]).value.0 in RecordAll(r, files).vals
  {
    var prefix := files[..|files| - 1];
    if i < |files| - 1 {
      assert files[i] == prefix[i];
      RecordedFamily(r, prefix, i);
    }
  }

  /** After a scan that recorded at least one file, the registry is well
      formed, has a family, and no family name occurs inside another. */
  lemma ScanSettles(r: Registry, files: seq<FontFile>, i: int)
    requires ValidRegistry(r) && 0 <= i < |files| && Accepted(files[i]).Some?
    ensures var res := Consolidated(RecordAll(r, files));
      && ValidRegistry(res)
      && |res.keys| > 0
      && forall f, g | f in res.vals && g in res.vals && f != g :: !Contains(g, f)
  {
    RecordAllValid(r, files);
    RecordedFamily(r, files, i);
    var recorded := RecordAll(r, files);
    assert Accepted(files[i]).value.0 in recorded.keys;
    ConsolidatedNoNesting(recorded);
    ConsolidateOverValid(recorded, recorded.keys);
  }

  // ---------------------------------------------------------------------------
  // Listing (fonts.py:63-84)

  /** 'book' and 'regular', in any case, come first. */
  predicate Preferred(style: string) {
    Lower(style) == "book" || Lower(style) == "regular"
  }

  /** `[s for s in style_keys if s.lower() in ('book', 'regular')]`. */
  function PreferredStyles(ks: seq<string>): seq<string> {
    if ks == [] then []
    else (if Preferred(ks[0]) then [ks[0]] else []) + PreferredStyles(ks[1..])
  }

  /** `[s for s in style_keys if s.lower() not in ('book', 'regular')]`. */
  function OtherStyles(ks: seq<string>): seq<string> {
    if ks == [] then []
    else (if Preferred(ks[0]) then [] else [ks[0]]) + OtherStyles(ks[1..])
  }

  /** The preferred styles first, then the others sorted case-insensitively. */
  function OrderStyles(ks: seq<string>): seq<string> {
    PreferredStyles(ks) + SortByLower(OtherStyles(ks))
  }

  /** The two filters split the styles: each keeps its kind, in order, and
      together they hold every style once. */
  lemma {:induction false} SplitStyles(ks: seq<string>)
    ensures multiset(PreferredStyles(ks)) + multiset(OtherStyles(ks)) == multiset(ks)
    ensures forall s | s in PreferredStyles(ks) :: Preferred(s)
    ensures forall s | s in OtherStyles(ks) :: !Preferred(s)
  {
    if ks != [] {
      SplitStyles(ks[1..]);
      assert ks == [ks[0]] + ks[1..];
    }
  }

  /** The preferred filter keeps the order of the styles: filtering a
      concatenation is concatenating the filtered parts. */
  lemma {:induction false} PreferredStylesAppend(a: seq<string>, b: seq<string>)
    ensures PreferredStyles(a + b) == PreferredStyles(a) + PreferredStyles(b)
  {
    if a != [] {
      assert (a + b)[0] == a[0] && (a + b)[1..] == a[1..] + b;
      PreferredStylesAppend(a[1..], b);
    } else {
      assert a + b == b;
    }
  }

  /** The preferred styles keep their registry order: a preferred style
      comes right after the preferred styles registered before it, and
      before those registered after it. */
  lemma {:induction false} PreferredStylesInOrder(ks: seq<string>, i: nat)
    requires i < |ks| && Preferred(ks[i])
    ensures PreferredStyles(ks) == PreferredStyles(ks[..i]) + [ks[i]] + PreferredStyles(ks[i + 1..])
  {
    assert ks == ks[..i] + ([ks[i]] + ks[i + 1..]);
    PreferredStylesAppend(ks[..i], [ks[i]] + ks[i + 1..]);
    assert ([ks[i]] + ks[i + 1..])[1..] == ks[i + 1..];
  }

  /** A family's styles as listed: a permutation of its styles with the
      preferred ones first, in their registry order, and the rest in
      case-insensitive order. */
  lemma OrderStylesSpec(ks: seq<string>)
    ensures var r := OrderStyles(ks);
      var n := |PreferredStyles(ks)|;
      && multiset(r) == multiset(ks)
      && r[..n] == PreferredStyles(ks)
      && (forall i | 0 <= i < n :: Preferred(r[i]))
      && (forall i | n <= i < |r| :: !Preferred(r[i]))
      && SortedByLower(r[n..])
  {
    SplitStyles(ks);
    SortByLowerCorrect(OtherStyles(ks));
    var r := OrderStyles(ks);
    var n := |PreferredStyles(ks)|;
    assert r[n..] == SortByLower(OtherStyles(ks));
    forall i | n <= i < |r| ensures !Preferred(r[i]) {
      assert r[i] in multiset(SortByLower(OtherStyles(ks)));
    }
    forall i | 0 <= i < n ensures Preferred(r[i]) {
      assert r[i] == PreferredStyles(ks)[i];
    }
  }

  /** One entry of `fontlist()`. */
  datatype FamilyStyles = FamilyStyles(family: string, styles: seq<string>)

  /** A family name read while scanning the name table (fonts.py:37-43):
      the loop stops as soon as both names are set. */
  method SelectNames(names: seq<NameRecord>) returns (family: string, style: string)
    ensures family == FirstName(names, 1) && style == FirstName(names, 2)
  {
    family, style := "", "";
    var i := 0;
    while i < |names|
      invariant 0 <= i <= |names|
      invariant family != "" ==> family == FirstName(names, 1)
      invariant family == "" ==> FirstName(names, 1) == FirstName(names[i..], 1)
      invariant style != "" ==> style == FirstName(names, 2)
      invariant style == "" ==> FirstName(names, 2) == FirstName(names[i..], 2)
    {
      var record := names[i];
      assert names[i..][1..] == names[i + 1..];
      if record.nameID == 1 && family == "" {
        family := record.text;
      }
      if record.nameID == 2 && style == "" {
        style := record.text;
      }
      if family != "" && style != "" {
        break;
      }
      i := i + 1;
    }
  }

  lemma RecordAllStep(r: Registry, walked: seq<FontFile>, files: seq<FontFile>, j: int)
    requires 0 <= j < |files|
    ensures RecordAll(r, walked + files[..j + 1]) == RecordFile(RecordAll(r, walked + files[..j]), files[j])
  {
    assert (walked + files[..j + 1])[..|walked| + j] == walked + files[..j];
  }

  lemma WalkedStep(paths: seq<string>, walk: string -> seq<FontFile>, i: int)
    requires 0 <= i < |paths|
    ensures Walked(paths[..i + 1], walk) == Walked(paths[..i], walk) + walk(paths[i])
  {
    assert paths[..i + 1][..i] == paths[..i];
  }

  /** `Fonts`: the registry, filled by a scan. */
  class Fonts {
    var fonts: Registry

    constructor()
      ensures fonts == Empty() && !FontsAvailable()
    {
      fonts := Empty();
    }

    /** `scan_global_fonts`: record every font file below the search
        directories, then consolidate. */
    method ScanGlobalFonts(home: string, additional: string, walk: string -> seq<FontFile>)
      modifies this
      ensures fonts == Consolidated(RecordAll(old(fonts), Walked(SearchPaths(home, additional), walk)))
    {
      var paths := SearchPaths(home, additional);
      var i := 0;
      while i < |paths|
        invariant 0 <= i <= |paths|
        invariant fonts == RecordAll(old(fonts), Walked(paths[..i], walk))
      {
        var files := walk(paths[i]);
        ghost var walked := Walked(paths[..i], walk);
        assert walked + files[..0] == walked;
        var j := 0;
        while j < |files|
          invariant 0 <= j <= |files|
          invariant fonts == RecordAll(old(fonts), walked + files[..j])
        {
          RecordAllStep(old(fonts), walked, files, j);
          RecordFont(files[j]);
          j := j + 1;
        }
        WalkedStep(paths, walk, i);
        assert files[..j] == files;
        i := i + 1;
      }
      assert paths[..i] == paths;
      Consolidate();
    }

    /** The body of the scan for one file (fonts.py:30-45): a font file whose
        name table gives both names is recorded under them. */
    method RecordFont(file: FontFile)
      modifies this
      ensures fonts == RecordFile(old(fonts), file)
    {
      if IsFontFile(file.name) && file.names.Some? {
        var family, style := SelectNames(file.names.value);
        if family != "" && style != "" {
          fonts := Put(fonts, family, Put(Get(fonts, family, Empty()), style, file.path));
        }
      }
    }

    /** The consolidation loops (fonts.py:52-61). */
    method Consolidate()
      modifies this
      ensures fonts == Consolidated(old(fonts))
    {
      var families := fonts.keys;
      var i := 0;
      while i < |families|
        invariant 0 <= i <= |families|
        invariant fonts == ConsolidateOver(old(fonts), families[..i])
      {
        AbsorbChildrenOf(families[i]);
        assert families[..i + 1][..i] == families[..i];
        i := i + 1;
      }
      assert families[..i] == families;
    }

    /** One pass of the middle loop: `family` against every family name
        registered when the pass began. */
    method AbsorbChildrenOf(family: string)
      modifies this
      ensures fonts == AbsorbChildren(old(fonts), family, old(fonts).keys)
    {
      var others := fonts.keys;
      var j := 0;
      while j < |others|
        invariant 0 <= j <= |others|
        invariant fonts == AbsorbChildren(old(fonts), family, others[..j])
      {
        assert others[..j + 1][..j] == others[..j];
        AbsorbChild(family, others[j]);
        j := j + 1;
      }
      assert others[..j] == others;
    }

    /** The body of the middle loop: when `other` is a child of `family`, its
        styles move under `family` (the innermost loop) and it is deleted. */
    method AbsorbChild(family: string, other: string)
      modifies this
      ensures fonts == AbsorbIfChild(old(fonts), family, other)
    {
      if family != other && Contains(other, family) {
        var extra := ReplaceAll(other, family + " ", "");
        var child := Get(fonts, other, Empty());
        var styles := child.keys;
        var k := 0;
        while k < |styles|
          invariant 0 <= k <= |styles|
          invariant fonts == MoveStyles(old(fonts), family, child, extra, styles[..k])
        {
          var style := styles[k];
          assert styles[..k + 1][..k] == styles[..k];
          fonts := Put(fonts, family, Put(Get(fonts, family, Empty()), NewStyle(extra, style), Get(child, style, "")));
          k := k + 1;
        }
        assert styles[..k] == styles;
        fonts := Remove(fonts, other);
      }
    }

    /** `fontfamilies()`. */
    function FontFamilies(): seq<string>
      reads this
    {
      SortByLower(fonts.keys)
    }

    /** `fontlist()`: one entry per family, in registry order. */
    function FontList(): seq<FamilyStyles>
      reads this
    {
      seq(|fonts.keys|, i requires 0 <= i < |fonts.keys| reads this =>
        FamilyStyles(fonts.keys[i], OrderStyles(Get(fonts, fonts.keys[i], Empty()).keys)))
    }

    /** `fonts_available()`: `bool` of the dictionary. */
    predicate FontsAvailable()
      reads this
    {
      |fonts.keys| > 0
    }
  }

  /** The families are listed case-insensitively sorted, each once. */
  lemma FontFamiliesSpec(f: Fonts)
    requires Valid(f.fonts)
    ensures SortedByLower(f.FontFamilies())
    ensures multiset(f.FontFamilies()) == multiset(f.fonts.keys)
    ensures forall name :: name in f.FontFamilies() <==> name in f.fonts.vals
  {
    SortByLowerCorrect(f.fonts.keys);
    forall name ensures name in f.FontFamilies() <==> name in f.fonts.keys {
      assert name in f.FontFamilies() <==> name in multiset(f.FontFamilies());
    }
  }

  /** Each entry of the font list is a family, in order, with its styles
      ordered by `OrderStyles`. */
  lemma FontListSpec(f: Fonts, i: int)
    requires ValidRegistry(f.fonts) && 0 <= i < |f.fonts.keys|
    ensures |f.FontList()| == |f.fonts.keys|
    ensures var e := f.FontList()[i];
      var ks := f.fonts.vals[f.fonts.keys[i]].keys;
      var n := |PreferredStyles(ks)|;
      && e.family == f.fonts.keys[i]
      && multiset(e.styles) == multiset(ks)
      && (forall j | 0 <= j < n :: Preferred(e.styles[j]))
      && (forall j | n <= j < |e.styles| :: !Preferred(e.styles[j]))
      && SortedByLower(e.styles[n..])
  {
    OrderStylesSpec(f.fonts.vals[f.fonts.keys[i]].keys);
  }

  /** Fonts are available exactly when some family is registered. */
  lemma AvailableIffRegistered(f: Fonts)
    requires Valid(f.fonts)
    ensures f.FontsAvailable() <==> f.fonts.vals != map[]
  {
    if f.fonts.vals != map[] {
      var k :| k in f.fonts.vals;
      assert k in f.fonts.keys;
    }
    if f.FontsAvailable() {
      assert f.fonts.keys[0] in f.fonts.vals;
    }
  }
}
