/** The string operations the lookup relies on, with Python's meaning:
    prefix tests (re.match with a ^-anchored literal), str.replace, and the
    code-point order used by list.sort() on strings. */
module Strings {

  predicate StartsWith(s: string, prefix: string) {
    |prefix| <= |s| && s[..|prefix|] == prefix
  }

  predicate EndsWith(s: string, suffix: string) {
    |suffix| <= |s| && s[|s| - |suffix|..] == suffix
  }

  /** s.replace(from, to) for one-character strings: every occurrence of
      `from` becomes `to`, every other character stays where it was. */
  function ReplaceChar(s: string, from: char, to: char): (r: string)
    ensures |r| == |s|
    ensures forall i :: 0 <= i < |s| ==> r[i] == (if s[i] == from then to else s[i])
  {
    if |s| == 0 then [] else [if s[0] == from then to else s[0]] + ReplaceChar(s[1..], from, to)
  }

  /** `pat` occurs somewhere in `s`. */
  predicate Occurs(s: string, pat: string)
    decreases |s|
  {
    |pat| <= |s| && (s[..|pat|] == pat || (|s| > 0 && Occurs(s[1..], pat)))
  }

  /** s.replace(pat, rep) for a non-empty pattern: occurrences are found from
      the left and replaced without overlapping. */
  function ReplaceAll(s: string, pat: string, rep: string): string
    requires |pat| > 0
    decreases |s|
  {
    if |s| < |pat| then s
    else if s[..|pat|] == pat then rep + ReplaceAll(s[|pat|..], pat, rep)
    else [s[0]] + ReplaceAll(s[1..], pat, rep)
  }

  /** A string in which the pattern does not occur is left as it is. */
  lemma {:induction false} ReplaceAllAbsent(s: string, pat: string, rep: string)
    requires |pat| > 0 && !Occurs(s, pat)
    ensures ReplaceAll(s, pat, rep) == s
    decreases |s|
  {
    if |s| >= |pat| {
      ReplaceAllAbsent(s[1..], pat, rep);
      assert s == [s[0]] + s[1..];
    }
  }

  /** A string that starts with the pattern: the replacement, then the rest. */
  lemma ReplaceAllAtMatch(pat: string, rep: string, rest: string)
    requires |pat| > 0
    ensures ReplaceAll(pat + rest, pat, rep) == rep + ReplaceAll(rest, pat, rep)
  {
    var s := pat + rest;
    assert s[..|pat|] == pat;
    assert s[|pat|..] == rest;
  }

  /** A string whose first character cannot start the pattern keeps it. */
  lemma ReplaceAllAtOther(c: char, pat: string, rep: string, rest: string)
    requires |pat| > 0 && c != pat[0]
    ensures ReplaceAll([c] + rest, pat, rep) == [c] + ReplaceAll(rest, pat, rep)
  {
    var s := [c] + rest;
    if |s| >= |pat| {
      assert s[..|pat|][0] == c;
      assert s[1..] == rest;
    }
    else {
      ReplaceAllShort(rest, pat, rep);
    }
  }

  lemma ReplaceAllShort(s: string, pat: string, rep: string)
    requires 0 < |pat| && |s| < |pat|
    ensures ReplaceAll(s, pat, rep) == s
  {
  }

  /** Text that cannot start an occurrence (it holds no copy of the pattern's
      first character), followed by the pattern: the text is kept, the
      pattern becomes the replacement, and the rest is replaced in turn. */
  lemma {:induction false} ReplaceAllStep(left: string, pat: string, rep: string, rest: string)
    requires |pat| > 0
    requires forall i :: 0 <= i < |left| ==> left[i] != pat[0]
    ensures ReplaceAll(left + pat + rest, pat, rep) == left + rep + ReplaceAll(rest, pat, rep)
    decreases |left|
  {
    if |left| == 0 {
      assert left + pat + rest == pat + rest;
      ReplaceAllAtMatch(pat, rep, rest);
    } else {
      var tail := left[1..] + pat + rest;
      assert left + pat + rest == [left[0]] + tail;
      ReplaceAllAtOther(left[0], pat, rep, tail);
      ReplaceAllStep(left[1..], pat, rep, rest);
      assert left + rep + ReplaceAll(rest, pat, rep) == [left[0]] + (left[1..] + rep + ReplaceAll(rest, pat, rep));
    }
  }

  /** A template with a single placeholder, where the text on either side
      cannot start an occurrence, becomes the same text with the replacement
      in its place. */
  lemma ReplaceSinglePlaceholder(left: string, pat: string, rep: string, right: string)
    requires |pat| > 0
    requires forall i :: 0 <= i < |left| ==> left[i] != pat[0]
    requires forall i :: 0 <= i < |right| ==> right[i] != pat[0]
    ensures ReplaceAll(left + pat + right, pat, rep) == left + rep + right
  {
    ReplaceAllStep(left, pat, rep, right);
    NoFirstCharNoOccurrence(right, pat);
    ReplaceAllAbsent(right, pat, rep);
  }

  /** sep.join(parts) */
  function Join(parts: seq<string>, sep: string): string
    decreases |parts|
  {
    if |parts| == 0 then ""
    else if |parts| == 1 then parts[0]
    else parts[0] + sep + Join(parts[1..], sep)
  }

  /** Every occurrence is replaced: pieces that cannot start an occurrence,
      joined by the pattern, become the same pieces joined by the
      replacement. */
  lemma {:induction false} ReplaceAllJoin(parts: seq<string>, pat: string, rep: string)
    requires |pat| > 0
    requires forall i, k :: 0 <= i < |parts| && 0 <= k < |parts[i]| ==> parts[i][k] != pat[0]
    ensures ReplaceAll(Join(parts, pat), pat, rep) == Join(parts, rep)
    decreases |parts|
  {
    if |parts| == 0 {
    } else if |parts| == 1 {
      NoFirstCharNoOccurrence(parts[0], pat);
      ReplaceAllAbsent(parts[0], pat, rep);
    } else {
      assert forall k :: 0 <= k < |parts[0]| ==> parts[0][k] != pat[0];
      ReplaceAllStep(parts[0], pat, rep, Join(parts[1..], pat));
      assert forall i :: 0 <= i < |parts| - 1 ==> parts[1..][i] == parts[i + 1];
      ReplaceAllJoin(parts[1..], pat, rep);
    }
  }

  lemma {:induction false} NoFirstCharNoOccurrence(s: string, pat: string)
    requires |pat| > 0
    requires forall i :: 0 <= i < |s| ==> s[i] != pat[0]
    ensures !Occurs(s, pat)
    decreases |s|
  {
    if |pat| <= |s| {
      assert s[..|pat|][0] == s[0];
      NoFirstCharNoOccurrence(s[1..], pat);
    }
  }

  /** Python's ordering of str values: characters compared by code point,
      and a proper prefix sorts before the longer string. */
  predicate LexLe(a: string, b: string)
    decreases |a|
  {
    |a| == 0 || (|b| > 0 && (a[0] < b[0] || (a[0] == b[0] && LexLe(a[1..], b[1..]))))
  }

  lemma {:induction false} LexLeTotal(a: string, b: string)
    ensures LexLe(a, b) || LexLe(b, a)
    decreases |a|
  {
    if |a| > 0 && |b| > 0 && a[0] == b[0] {
      LexLeTotal(a[1..], b[1..]);
    }
  }

  lemma {:induction false} LexLeAntisymmetric(a: string, b: string)
    requires LexLe(a, b) && LexLe(b, a)
    ensures a == b
    decreases |a|
  {
    if |a| > 0 && |b| > 0 {
      LexLeAntisymmetric(a[1..], b[1..]);
      assert a == [a[0]] + a[1..];
      assert b == [b[0]] + b[1..];
    }
  }

  lemma {:induction false} LexLeTransitive(a: string, b: string, c: string)
    requires LexLe(a, b) && LexLe(b, c)
    ensures LexLe(a, c)
    decreases |a|
  {
    if |a| > 0 && |b| > 0 && |c| > 0 && a[0] == b[0] && b[0] == c[0] {
      LexLeTransitive(a[1..], b[1..], c[1..]);
    }
  }

  predicate Sorted(s: seq<string>) {
    forall i, j :: 0 <= i < j < |s| ==> LexLe(s[i], s[j])
  }

  /** Places x before the first element it does not exceed. */
  function Insert(x: string, s: seq<string>): seq<string> {
    if s == [] then [x]
    else if LexLe(x, s[0]) then [x] + s
    else [s[0]] + Insert(x, s[1..])
  }

  /** list.sort() on a list of str, as a value: insertion into a sorted list. */
  function SortStrings(s: seq<string>): seq<string> {
    if s == [] then [] else Insert(s[0], SortStrings(s[1..]))
  }

  /** Prepending a string that does not exceed any element keeps a list sorted. */
  lemma PrependSorted(y: string, t: seq<string>)
    requires Sorted(t)
    requires forall j :: 0 <= j < |t| ==> LexLe(y, t[j])
    ensures Sorted([y] + t)
  {
    var r := [y] + t;
    forall i, j | 0 <= i < j < |r| ensures LexLe(r[i], r[j]) {
      assert r[j] == t[j - 1];
      if i > 0 { assert r[i] == t[i - 1]; }
    }
  }

  lemma {:induction false} InsertPermutes(x: string, s: seq<string>)
    ensures multiset(Insert(x, s)) == multiset(s) + multiset{x}
    decreases |s|
  {
    if s != [] && !LexLe(x, s[0]) {
      InsertPermutes(x, s[1..]);
      assert s == [s[0]] + s[1..];
    }
  }

  lemma {:induction false} InsertSorted(x: string, s: seq<string>)
    requires Sorted(s)
    ensures Sorted(Insert(x, s))
    decreases |s|
  {
    if s == [] {
    } else if LexLe(x, s[0]) {
      forall j | 0 <= j < |s| ensures LexLe(x, s[j]) {
        if j > 0 { LexLeTransitive(x, s[0], s[j]); }
      }
      PrependSorted(x, s);
    } else {
      LexLeTotal(x, s[0]);
      var t := Insert(x, s[1..]);
      InsertSorted(x, s[1..]);
      InsertPermutes(x, s[1..]);
      forall j | 0 <= j < |t| ensures LexLe(s[0], t[j]) {
        assert t[j] in multiset(t);
        if t[j] != x {
          assert t[j] in multiset(s[1..]);
          var k :| 0 <= k < |s[1..]| && s[1..][k] == t[j];
          assert s[k + 1] == t[j];
        }
      }
      PrependSorted(s[0], t);
    }
  }

  /** The sort returns the same strings, in code-point order. */
  lemma {:induction false} SortStringsCorrect(s: seq<string>)
    ensures Sorted(SortStrings(s))
    ensures multiset(SortStrings(s)) == multiset(s)
    decreases |s|
  {
    if s != [] {
      SortStringsCorrect(s[1..]);
      InsertSorted(s[0], SortStrings(s[1..]));
      InsertPermutes(s[0], SortStrings(s[1..]));
      assert s == [s[0]] + s[1..];
    }
  }
}
