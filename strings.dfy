/** String operations the source relies on, written out over `seq<char>`:
    Python's `in`, `str.replace`, `str.lower`/`str.upper`, `str.isdigit`, `int()`,
    `str()` of an integer, `sorted(..., key=str.lower)`, `str.split`, and JavaScript's
    `Array.prototype.join`. Case mapping covers ASCII letters only. */
module Strings {
  import opened Wrappers

  // ---------------------------------------------------------------------------
  // Substrings (Python `t in s`)

  predicate IsPrefix(p: string, s: string) {
    |p| <= |s| && s[..|p|] == p
  }

  predicate IsSuffix(p: string, s: string) {
    |p| <= |s| && s[|s| - |p|..] == p
  }

  /** `t` occurs in `s` starting at index `i`. */
  predicate OccursAt(s: string, t: string, i: int) {
    0 <= i <= |s| - |t| && s[i..i + |t|] == t
  }

  /** `t in s` for Python strings. */
  predicate Contains(s: string, t: string) {
    exists i | 0 <= i <= |s| - |t| :: OccursAt(s, t, i)
  }

  lemma ContainsSelf(s: string)
    ensures Contains(s, s)
  {
    assert OccursAt(s, s, 0);
  }

  lemma ContainsLength(s: string, t: string)
    requires Contains(s, t)
    ensures |t| <= |s|
  {
  }

  /** A string contained in another of the same length is that string. */
  lemma ContainsSameLength(s: string, t: string)
    requires Contains(s, t) && |s| == |t|
    ensures s == t
  {
    var i :| OccursAt(s, t, i);
    assert s[0..|s|] == s;
  }

  /** An occurrence of c inside an occurrence of b inside a is an occurrence of c in a. */
  lemma OccursCompose(a: string, b: string, c: string, i: int, j: int)
    requires OccursAt(a, b, i) && OccursAt(b, c, j)
    ensures OccursAt(a, c, i + j)
  {
    forall k | 0 <= k < |c|
      ensures a[i + j + k] == c[k]
    {
      assert c[k] == b[j + k];
      assert b[j + k] == a[i + j + k];
    }
  }

  lemma ContainsTransitive(a: string, b: string, c: string)
    requires Contains(a, b) && Contains(b, c)
    ensures Contains(a, c)
  {
    var i :| 0 <= i <= |a| - |b| && OccursAt(a, b, i);
    var j :| 0 <= j <= |b| - |c| && OccursAt(b, c, j);
    OccursCompose(a, b, c, i, j);
  }

  lemma PrefixContained(p: string, s: string)
    requires IsPrefix(p, s)
    ensures Contains(s, p)
  {
    assert OccursAt(s, p, 0);
  }

  // ---------------------------------------------------------------------------
  // str.replace(pat, rep): every non-overlapping occurrence, left to right

  function ReplaceAll(s: string, pat: string, rep: string): string
    requires |pat| > 0
    decreases |s|
  {
    if |s| < |pat| then s
    else if s[..|pat|] == pat then rep + ReplaceAll(s[|pat|..], pat, rep)
    else [s[0]] + ReplaceAll(s[1..], pat, rep)
  }

  /** Replacing a pattern that does not occur changes nothing. */
  lemma {:induction false} ReplaceAbsent(s: string, pat: string, rep: string)
    requires |pat| > 0 && !Contains(s, pat)
    ensures ReplaceAll(s, pat, rep) == s
    decreases |s|
  {
    if |s| >= |pat| {
      assert !OccursAt(s, pat, 0);
      assert s[0..|pat|] == s[..|pat|];
      assert !Contains(s[1..], pat) by {
        forall i | OccursAt(s[1..], pat, i)
          ensures OccursAt(s, pat, i + 1)
        {
          assert s[i + 1..i + 1 + |pat|] == s[1..][i..i + |pat|];
        }
      }
      ReplaceAbsent(s[1..], pat, rep);
      assert [s[0]] + s[1..] == s;
    }
  }

  /** Removing a leading "F " from "F X" leaves X when X holds no further "F ". */
  lemma ReplaceLeading(pat: string, rest: string)
    requires |pat| > 0 && !Contains(rest, pat)
    ensures ReplaceAll(pat + rest, pat, "") == rest
  {
    assert (pat + rest)[..|pat|] == pat;
    assert (pat + rest)[|pat|..] == rest;
    ReplaceAbsent(rest, pat, "");
  }

  // ---------------------------------------------------------------------------
  // ASCII case mapping (str.lower / str.upper / String.prototype.toUpperCase)

  function LowerChar(c: char): char {
    if 'A' <= c <= 'Z' then (c as int + 32) as char else c
  }

  function UpperChar(c: char): char {
    if 'a' <= c <= 'z' then (c as int - 32) as char else c
  }

  function Lower(s: string): (r: string)
    ensures |r| == |s|
    ensures forall i :: 0 <= i < |s| ==> r[i] == LowerChar(s[i])
  {
    seq(|s|, i requires 0 <= i < |s| => LowerChar(s[i]))
  }

  function Upper(s: string): (r: string)
    ensures |r| == |s|
    ensures forall i :: 0 <= i < |s| ==> r[i] == UpperChar(s[i])
  {
    seq(|s|, i requires 0 <= i < |s| => UpperChar(s[i]))
  }

  /** Upper-casing never leaves a lower-case ASCII letter behind. */
  lemma UpperHasNoLowerLetter(s: string, i: int)
    requires 0 <= i < |s|
    ensures !('a' <= Upper(s)[i] <= 'z')
  {
  }

  // ---------------------------------------------------------------------------
  // Digits and integers

  predicate IsDigit(c: char) {
    '0' <= c <= '9'
  }

  /** Python `str.isdigit()` on ASCII text: non-empty and every character a digit. */
  predicate IsDigits(s: string) {
    |s| > 0 && forall i :: 0 <= i < |s| ==> IsDigit(s[i])
  }

  function DigitValue(c: char): (d: nat)
    requires IsDigit(c)
    ensures d < 10
  {
    assert c as int >= '0' as int;
    c as int - '0' as int
  }

  function DigitChar(d: nat): (c: char)
    requires d < 10
    ensures IsDigit(c) && DigitValue(c) == d
  {
    ('0' as int + d) as char
  }

  function DigitsValue(s: string): nat
    requires forall i :: 0 <= i < |s| ==> IsDigit(s[i])
  {
    if |s| == 0 then 0 else 10 * DigitsValue(s[..|s| - 1]) + DigitValue(s[|s| - 1])
  }

  /** `str(n)` for a non-negative integer. */
  function NatToString(n: nat): (r: string)
    ensures IsDigits(r)
    decreases n
  {
    if n < 10 then [DigitChar(n)] else NatToString(n / 10) + [DigitChar(n % 10)]
  }

  /** `str(i)` for any integer. */
  function IntToString(i: int): string {
    if i < 0 then "-" + NatToString(-i) else NatToString(i)
  }

  lemma {:induction false} NatToStringValue(n: nat)
    ensures DigitsValue(NatToString(n)) == n
    decreases n
  {
    if n >= 10 {
      NatToStringValue(n / 10);
      var s := NatToString(n);
      assert s[..|s| - 1] == NatToString(n / 10);
    }
  }

  /** `int(s)` for a string: an optional sign followed by ASCII digits. */
  function ParseInt(s: string): (r: Result<int>)
    ensures r.Ok? ==> |s| > 0
  {
    if |s| > 0 && (s[0] == '-' || s[0] == '+') && IsDigits(s[1..]) then
      var v: int := DigitsValue(s[1..]);
      Ok(if s[0] == '-' then -v else v)
    else if IsDigits(s) then Ok(DigitsValue(s))
    else Err("invalid literal for int() with base 10: '" + s + "'")
  }

  /** `int(str(i)) == i`: printing an integer and parsing it back is the identity. */
  lemma IntRoundTrip(i: int)
    ensures ParseInt(IntToString(i)) == Ok(i)
  {
    if i < 0 {
      NatToStringValue(-i);
      assert IntToString(i)[1..] == NatToString(-i);
    } else {
      NatToStringValue(i);
    }
  }

  // ---------------------------------------------------------------------------
  // Joining and splitting

  /** `parts.join(sep)` in JavaScript, `sep.join(parts)` in Python. */
  function Join(parts: seq<string>, sep: string): string
    decreases |parts|
  {
    if |parts| == 0 then ""
    else if |parts| == 1 then parts[0]
    else parts[0] + sep + Join(parts[1..], sep)
  }

  function IndexOf(s: string, c: char): (i: nat)
    requires c in s
    ensures i < |s| && s[i] == c && c !in s[..i]
  {
    if s[0] == c then 0 else 1 + IndexOf(s[1..], c)
  }

  /** `s.split(c)` for a one-character separator: always at least one piece. */
  function SplitOn(s: string, c: char): (r: seq<string>)
    ensures |r| >= 1
    decreases |s|
  {
    if c !in s then [s]
    else
      var i := IndexOf(s, c);
      [s[..i]] + SplitOn(s[i + 1..], c)
  }

  lemma {:induction false} IndexOfAfter(t: string, c: char, rest: string)
    requires c !in t
    ensures c in t + [c] + rest && IndexOf(t + [c] + rest, c) == |t|
  {
    var s := t + [c] + rest;
    assert s[|t|] == c;
    if t != [] {
      assert s[1..] == t[1..] + [c] + rest;
      IndexOfAfter(t[1..], c, rest);
    }
  }

  /** Splitting `t + [c] + rest` at `c` when `t` holds no `c` yields `t` first. */
  lemma SplitOnFirst(t: string, c: char, rest: string)
    requires c !in t
    ensures SplitOn(t + [c] + rest, c) == [t] + SplitOn(rest, c)
  {
    var s := t + [c] + rest;
    IndexOfAfter(t, c, rest);
    assert s[..|t|] == t;
    assert s[|t| + 1..] == rest;
  }

  // ---------------------------------------------------------------------------
  // Python string ordering and sorted(..., key=str.lower)

  /** `a <= b` for Python strings: lexicographic by code point. */
  predicate LexLe(a: string, b: string)
    decreases |a|
  {
    |a| == 0 || (|b| > 0 && (a[0] < b[0] || (a[0] == b[0] && LexLe(a[1..], b[1..]))))
  }

  lemma {:induction false} LexLeTotal(a: string, b: string)
    ensures LexLe(a, b) || LexLe(b, a)
    decreases |a|
  {
    if |a| > 0 && |b| > 0 && a[0] == b[0] {
      LexLeTotal(a[1..], b[1..]);
    }
  }

  lemma {:induction false} LexLeTransitive(a: string, b: string, c: string)
    requires LexLe(a, b) && LexLe(b, c)
    ensures LexLe(a, c)
    decreases |a|
  {
    if |a| > 0 && a[0] == b[0] && b[0] == c[0] {
      LexLeTransitive(a[1..], b[1..], c[1..]);
    }
  }

  /** The order `sorted(..., key=str.lower)` uses. */
  predicate KeyLe(a: string, b: string) {
    LexLe(Lower(a), Lower(b))
  }

  predicate SortedByLower(s: seq<string>) {
    forall i, j :: 0 <= i < j < |s| ==> KeyLe(s[i], s[j])
  }

  /** Insert `x` before the first element whose key is not below its own, so that
      of two equal keys the one inserted later (earlier in the input) comes first. */
  function InsertByLower(x: string, s: seq<string>): seq<string>
  {
    if s == [] then [x]
    else if KeyLe(x, s[0]) then [x] + s
    else [s[0]] + InsertByLower(x, s[1..])
  }

  /** `sorted(xs, key=str.lower)`: a stable insertion sort. */
  function SortByLower(xs: seq<string>): seq<string>
  {
    if xs == [] then [] else InsertByLower(xs[0], SortByLower(xs[1..]))
  }

  lemma KeyLeTotal(a: string, b: string)
    ensures KeyLe(a, b) || KeyLe(b, a)
  {
    LexLeTotal(Lower(a), Lower(b));
  }

  lemma KeyLeTransitive(a: string, b: string, c: string)
    requires KeyLe(a, b) && KeyLe(b, c)
    ensures KeyLe(a, c)
  {
    LexLeTransitive(Lower(a), Lower(b), Lower(c));
  }

  lemma {:induction false} LexLeReflexive(a: string)
    ensures LexLe(a, a)
    decreases |a|
  {
    if |a| > 0 {
      LexLeReflexive(a[1..]);
    }
  }

  /** The names of `xs` that equal `key` once lower-cased, in their order. */
  function WithKey(xs: seq<string>, key: string): seq<string>
  {
    if xs == [] then []
    else (if Lower(xs[0]) == key then [xs[0]] else []) + WithKey(xs[1..], key)
  }

  /** Inserting a name puts it before every name with the same key. */
  lemma {:induction false} InsertByLowerTies(x: string, s: seq<string>, key: string)
    ensures WithKey(InsertByLower(x, s), key) == (if Lower(x) == key then [x] else []) + WithKey(s, key)
  {
    if s == [] {
      assert WithKey([x], key) == (if Lower(x) == key then [x] else []) + WithKey([], key);
    } else if KeyLe(x, s[0]) {
      assert ([x] + s)[1..] == s;
    } else {
      LexLeReflexive(Lower(x));
      assert Lower(s[0]) != Lower(x);
      InsertByLowerTies(x, s[1..], key);
      assert ([s[0]] + InsertByLower(x, s[1..]))[1..] == InsertByLower(x, s[1..]);
    }
  }

  /** `sorted` is stable: names that differ only in case keep their order. */
  lemma {:induction false} SortByLowerStable(xs: seq<string>, key: string)
    ensures WithKey(SortByLower(xs), key) == WithKey(xs, key)
  {
    if xs != [] {
      SortByLowerStable(xs[1..], key);
      InsertByLowerTies(xs[0], SortByLower(xs[1..]), key);
    }
  }

  lemma {:induction false} InsertByLowerPermutes(x: string, s: seq<string>)
    ensures multiset(InsertByLower(x, s)) == multiset(s) + multiset{x}
    ensures forall y :: y in InsertByLower(x, s) ==> y == x || y in s
  {
    if s != [] && !KeyLe(x, s[0]) {
      InsertByLowerPermutes(x, s[1..]);
      assert s == [s[0]] + s[1..];
    }
  }

  lemma SortedTail(s: seq<string>)
    requires SortedByLower(s) && s != []
    ensures SortedByLower(s[1..])
  {
    var tail := s[1..];
    forall i, j | 0 <= i < j < |tail|
      ensures KeyLe(tail[i], tail[j])
    {
      assert tail[i] == s[i + 1] && tail[j] == s[j + 1];
    }
  }

  /** A sequence is sorted when its head is below everything in a sorted tail. */
  lemma SortedCons(h: string, t: seq<string>)
    requires SortedByLower(t)
    requires forall y :: y in t ==> KeyLe(h, y)
    ensures SortedByLower([h] + t)
  {
    var r := [h] + t;
    forall i, j | 0 <= i < j < |r|
      ensures KeyLe(r[i], r[j])
    {
      if i == 0 {
        assert r[j] in t;
      } else {
        assert r[i] == t[i - 1] && r[j] == t[j - 1];
      }
    }
  }

  lemma {:induction false} InsertByLowerSorted(x: string, s: seq<string>)
    requires SortedByLower(s)
    ensures SortedByLower(InsertByLower(x, s))
  {
    if s == [] {
    } else if KeyLe(x, s[0]) {
      forall y | y in s
        ensures KeyLe(x, y)
      {
        var j :| 0 <= j < |s| && s[j] == y;
        if j > 0 {
          KeyLeTransitive(x, s[0], s[j]);
        }
      }
      SortedCons(x, s);
    } else {
      SortedTail(s);
      InsertByLowerSorted(x, s[1..]);
      InsertByLowerPermutes(x, s[1..]);
      KeyLeTotal(x, s[0]);
      forall y | y in InsertByLower(x, s[1..])
        ensures KeyLe(s[0], y)
      {
        if y != x {
          var j :| 0 <= j < |s[1..]| && s[1..][j] == y;
          assert s[j + 1] == y;
        }
      }
      SortedCons(s[0], InsertByLower(x, s[1..]));
    }
  }

  /** sorted(xs, key=str.lower) is ordered case-insensitively and is a permutation of xs. */
  lemma {:induction false} SortByLowerCorrect(xs: seq<string>)
    ensures SortedByLower(SortByLower(xs))
    ensures multiset(SortByLower(xs)) == multiset(xs)
  {
    if xs != [] {
      SortByLowerCorrect(xs[1..]);
      InsertByLowerSorted(xs[0], SortByLower(xs[1..]));
      InsertByLowerPermutes(xs[0], SortByLower(xs[1..]));
      assert xs == [xs[0]] + xs[1..];
    }
  }
}
