/**
 * The Python `str` operations the credential files and the insert check rely on:
 * `strip()`, `splitlines()`, `split(sep, 1)`, `count(sub)`, `startswith`, `endswith`
 * and substring `in`, each with the character classes CPython uses.
 */
module PyStr {

  /** `c.isspace()`: the characters `str.strip()` removes when given no argument. */
  predicate IsSpace(c: char) {
    || ('\t' <= c <= '\r')
    || ('\U{001C}' <= c <= ' ')
    || c == '\U{0085}' || c == '\U{00A0}' || c == '\U{1680}'
    || ('\U{2000}' <= c <= '\U{200A}')
    || c == '\U{2028}' || c == '\U{2029}' || c == '\U{202F}' || c == '\U{205F}' || c == '\U{3000}'
  }

  /** The characters at which `str.splitlines()` ends a line ("\r\n" counts as one boundary). */
  predicate IsLineBreak(c: char) {
    || ('\n' <= c <= '\r')
    || ('\U{001C}' <= c <= '\U{001E}')
    || c == '\U{0085}' || c == '\U{2028}' || c == '\U{2029}'
  }

  predicate AllSpace(s: string) {
    forall i :: 0 <= i < |s| ==> IsSpace(s[i])
  }

  predicate NoLineBreak(s: string) {
    forall i :: 0 <= i < |s| ==> !IsLineBreak(s[i])
  }

  /** Neither end of `s` is whitespace: what `strip()` leaves. */
  predicate Trimmed(s: string) {
    s == [] || (!IsSpace(s[0]) && !IsSpace(s[|s| - 1]))
  }

  /** `s.lstrip()` */
  function LStrip(s: string): (r: string)
    ensures |r| <= |s| && r == s[|s| - |r|..]
    ensures AllSpace(s[..|s| - |r|])
    ensures r == [] || !IsSpace(r[0])
  {
    if s != [] && IsSpace(s[0]) then LStrip(s[1..]) else s
  }

  /** `s.rstrip()` */
  function RStrip(s: string): (r: string)
    ensures |r| <= |s| && r == s[..|r|]
    ensures AllSpace(s[|r|..])
    ensures r == [] || !IsSpace(r[|r| - 1])
  {
    if s != [] && IsSpace(s[|s| - 1]) then
      var r := RStrip(s[..|s| - 1]);
      assert s[|r|..] == s[..|s| - 1][|r|..] + [s[|s| - 1]];
      r
    else s
  }

  /** `r` sits in `s` at index `i` with only whitespace before and after it. */
  predicate PaddedAt(s: string, r: string, i: nat) {
    i + |r| <= |s| && s[i..i + |r|] == r && AllSpace(s[..i]) && AllSpace(s[i + |r|..])
  }

  /** `s.strip()`: the infix of `s` left once the whitespace at both ends is removed. */
  function Strip(s: string): (r: string)
    ensures Trimmed(r)
    ensures exists i: nat :: PaddedAt(s, r, i)
  {
    var l := LStrip(s);
    var r := RStrip(l);
    StripSteps(s, l, r);
    r
  }

  lemma StripSteps(s: string, l: string, r: string)
    requires |l| <= |s| && l == s[|s| - |l|..] && AllSpace(s[..|s| - |l|]) && (l == [] || !IsSpace(l[0]))
    requires |r| <= |l| && r == l[..|r|] && AllSpace(l[|r|..]) && (r == [] || !IsSpace(r[|r| - 1]))
    ensures Trimmed(r) && PaddedAt(s, r, |s| - |l|)
  {
    SliceOfSuffix(s, l, r);
  }

  /** A prefix `r` of a suffix `l` of `s` is the infix of `s` at `|s| - |l|`. */
  lemma SliceOfSuffix(s: string, l: string, r: string)
    requires |l| <= |s| && l == s[|s| - |l|..] && |r| <= |l| && r == l[..|r|]
    ensures s[|s| - |l|..|s| - |l| + |r|] == r && s[|s| - |l| + |r|..] == l[|r|..]
  {
  }

  lemma {:induction false} LStripPadded(pre: string, x: string)
    requires AllSpace(pre)
    requires x == [] || !IsSpace(x[0])
    ensures LStrip(pre + x) == x
    decreases |pre|
  {
    if pre != [] {
      assert (pre + x)[1..] == pre[1..] + x;
      LStripPadded(pre[1..], x);
    }
  }

  lemma {:induction false} RStripPadded(x: string, post: string)
    requires AllSpace(post)
    requires x == [] || !IsSpace(x[|x| - 1])
    ensures RStrip(x + post) == x
    decreases |post|
  {
    if post != [] {
      assert (x + post)[..|x + post| - 1] == x + post[..|post| - 1];
      RStripPadded(x, post[..|post| - 1]);
    }
  }

  /** Whitespace around a trimmed text is exactly what `strip()` removes. */
  lemma StripPadded(pre: string, k: string, post: string)
    requires AllSpace(pre) && AllSpace(post) && Trimmed(k)
    ensures Strip(pre + k + post) == k
  {
    if k == [] {
      assert pre + k + post == pre + post;
      assert AllSpace(pre + post);
      LStripPadded(pre + post, []);
      assert pre + post + [] == pre + post;
    } else {
      assert pre + k + post == pre + (k + post);
      LStripPadded(pre, k + post);
      RStripPadded(k, post);
    }
  }

  /** Every line boundary is also whitespace. */
  lemma LineBreakIsSpace(c: char)
    ensures IsLineBreak(c) ==> IsSpace(c)
  {
  }

  /** Index of the first line boundary in `s`, or `|s|` when there is none. */
  function LineEnd(s: string): (i: nat)
    ensures i <= |s|
    ensures NoLineBreak(s[..i])
    ensures i < |s| ==> IsLineBreak(s[i])
  {
    if s == [] || IsLineBreak(s[0]) then 0
    else
      var j := LineEnd(s[1..]);
      assert s[..1 + j] == [s[0]] + s[1..][..j];
      1 + j
  }

  /** `s.splitlines()`: the lines of `s` without their boundaries; no empty last line after a final boundary. */
  function SplitLines(s: string): seq<string>
    decreases |s|
  {
    if s == [] then []
    else
      var i := LineEnd(s);
      if i == |s| then [s]
      else
        var next := if s[i] == '\r' && i + 1 < |s| && s[i + 1] == '\n' then i + 2 else i + 1;
        [s[..i]] + SplitLines(s[next..])
  }

  /** The text of `lines`, each followed by a newline. */
  function JoinLines(lines: seq<string>): string {
    if lines == [] then [] else lines[0] + "\n" + JoinLines(lines[1..])
  }

  /** `splitlines()` undoes writing lines that hold no boundary, one per line. */
  lemma {:induction false} SplitLinesJoin(lines: seq<string>)
    requires forall k :: 0 <= k < |lines| ==> NoLineBreak(lines[k])
    ensures SplitLines(JoinLines(lines)) == lines
  {
    if lines != [] {
      var l := lines[0];
      var rest := JoinLines(lines[1..]);
      var s := JoinLines(lines);
      assert s == l + "\n" + rest;
      LineThenRest(s, l, rest);
      assert NoLineBreak(l);
      LineEndAt(s, |l|);
      assert forall k :: 0 <= k < |lines[1..]| ==> NoLineBreak(lines[1..][k]) by {
        forall k | 0 <= k < |lines[1..]| ensures NoLineBreak(lines[1..][k]) {
          assert lines[1..][k] == lines[k + 1];
        }
      }
      SplitLinesJoin(lines[1..]);
      assert SplitLines(s) == [s[..|l|]] + SplitLines(s[|l| + 1..]);
      assert lines == [l] + lines[1..];
    }
  }

  /** The line endings a text file commonly uses; `splitlines()` takes each as one boundary. */
  predicate Ending(e: string) {
    e == "\n" || e == "\r\n"
  }

  /**
   * Every line has one of those endings, except that a non-empty last line may have none
   * (a file without a final newline).
   */
  predicate WellEnded(lines: seq<string>, ends: seq<string>) {
    |lines| == |ends| &&
    forall k :: 0 <= k < |ends| ==> Ending(ends[k]) || (k == |ends| - 1 && ends[k] == [] && lines[k] != [])
  }

  /** The text of `lines`, each followed by its own ending. */
  function Written(lines: seq<string>, ends: seq<string>): string
    requires |lines| == |ends|
  {
    if lines == [] then [] else lines[0] + ends[0] + Written(lines[1..], ends[1..])
  }

  /**
   * `splitlines()` recovers the lines of a text however its lines end: with a newline, with a
   * carriage return and a newline, or, on the last line, with nothing.
   */
  lemma {:induction false} SplitLinesWritten(lines: seq<string>, ends: seq<string>)
    requires forall k :: 0 <= k < |lines| ==> NoLineBreak(lines[k])
    requires WellEnded(lines, ends)
    ensures SplitLines(Written(lines, ends)) == lines
  {
    if lines != [] {
      var l, e := lines[0], ends[0];
      var rest := Written(lines[1..], ends[1..]);
      var s := Written(lines, ends);
      assert s == l + e + rest;
      assert NoLineBreak(l);
      if e == [] {
        assert |lines| == 1;
        assert rest == [];
        assert s == l;
        OneLine(l);
      } else {
        EndedLineThenRest(s, l, e, rest);
        assert forall k :: 0 <= k < |lines[1..]| ==> NoLineBreak(lines[1..][k]) by {
          forall k | 0 <= k < |lines[1..]| ensures NoLineBreak(lines[1..][k]) {
            assert lines[1..][k] == lines[k + 1];
          }
        }
        assert WellEnded(lines[1..], ends[1..]) by {
          forall k | 0 <= k < |ends[1..]|
            ensures Ending(ends[1..][k]) || (k == |ends[1..]| - 1 && ends[1..][k] == [] && lines[1..][k] != [])
          {
            assert ends[1..][k] == ends[k + 1] && lines[1..][k] == lines[k + 1];
          }
        }
        SplitLinesWritten(lines[1..], ends[1..]);
        assert lines == [l] + lines[1..];
      }
    }
  }

  /** A line with its ending splits off the front of a text. */
  lemma EndedLineThenRest(s: string, l: string, e: string, rest: string)
    requires s == l + e + rest && NoLineBreak(l) && Ending(e)
    ensures SplitLines(s) == [l] + SplitLines(rest)
  {
    assert s[..|l|] == l && s[|l|] == e[0];
    LineEndAt(s, |l|);
    assert s[|l| + |e|..] == rest;
  }

  /** The pieces of a line followed by a newline and the rest. */
  lemma LineThenRest(s: string, l: string, rest: string)
    requires s == l + "\n" + rest
    ensures |l| < |s| && s[..|l|] == l && s[|l|] == '\n' && s[|l| + 1..] == rest
  {
  }

  lemma {:induction false} LineEndAt(s: string, i: nat)
    requires i < |s| && IsLineBreak(s[i]) && NoLineBreak(s[..i])
    ensures LineEnd(s) == i
    decreases i
  {
    if i > 0 {
      assert s[..i][0] == s[0];
      assert s[1..][..i - 1] == s[..i][1..];
      LineEndAt(s[1..], i - 1);
    }
  }

  lemma {:induction false} LineEndFirst(s: string, k: nat)
    requires k < |s| && IsLineBreak(s[k])
    ensures LineEnd(s) <= k
    decreases k
  {
    if k > 0 && !IsLineBreak(s[0]) {
      LineEndFirst(s[1..], k - 1);
    }
  }

  /** A non-empty text without boundaries is one line. */
  lemma OneLine(s: string)
    requires s != [] && NoLineBreak(s)
    ensures SplitLines(s) == [s]
  {
    assert s[..|s|] == s;
  }

  /** A text with a boundary before its last character has at least two lines. */
  lemma TwoLines(s: string, k: nat)
    requires k < |s| - 1 && IsLineBreak(s[k]) && !IsLineBreak(s[|s| - 1])
    ensures |SplitLines(s)| >= 2
  {
    LineEndFirst(s, k);
  }

  /** A stripped text is one line exactly when it is non-empty and holds no boundary. */
  lemma TrimmedOneLine(t: string)
    requires Trimmed(t)
    ensures |SplitLines(t)| == 1 <==> t != [] && NoLineBreak(t)
  {
    if t == [] {
    } else if NoLineBreak(t) {
      OneLine(t);
    } else {
      var i :| 0 <= i < |t| && IsLineBreak(t[i]);
      LineBreakIsSpace(t[i]);
      LineBreakIsSpace(t[|t| - 1]);
      TwoLines(t, i);
    }
  }

  /** Index of the first `c` in `s`, or `|s|`. */
  function Find(s: string, c: char): (i: nat)
    ensures i <= |s|
    ensures c !in s[..i]
    ensures i < |s| <==> c in s
    ensures i < |s| ==> s[i] == c
  {
    if s == [] then 0
    else if s[0] == c then 0
    else
      var j := Find(s[1..], c);
      assert s[..1 + j] == [s[0]] + s[1..][..j];
      assert s == [s[0]] + s[1..];
      1 + j
  }

  /** The first `c` of `a + [c] + b` is the one after `a` when `a` holds none. */
  lemma {:induction false} FindAfter(a: string, c: char, b: string)
    requires c !in a
    ensures Find(a + [c] + b, c) == |a|
    decreases |a|
  {
    if a == [] {
      assert (a + [c] + b)[0] == c;
    } else {
      assert a[0] in a;
      assert forall x :: x in a[1..] ==> x in a;
      assert (a + [c] + b)[1..] == a[1..] + [c] + b;
      FindAfter(a[1..], c, b);
    }
  }

  /** `s.split(sep, 1)`: the parts before and after the first `sep`, or `[s]` when there is none. */
  function SplitOnce(s: string, sep: char): (parts: seq<string>)
    ensures sep in s <==> |parts| == 2
    ensures sep !in s ==> parts == [s]
    ensures sep in s ==> sep !in parts[0] && s == parts[0] + [sep] + parts[1]
  {
    var i := Find(s, sep);
    if i == |s| then [s]
    else
      assert s == s[..i] + [sep] + s[i + 1..];
      [s[..i], s[i + 1..]]
  }

  /** `s.startswith(p)` */
  predicate StartsWith(s: string, p: string) {
    |p| <= |s| && s[..|p|] == p
  }

  /** `s.endswith(p)` */
  predicate EndsWith(s: string, p: string) {
    |p| <= |s| && s[|s| - |p|..] == p
  }

  /** `sub` occurs in `s` starting at index `i`. */
  predicate OccursAt(s: string, sub: string, i: nat) {
    i + |sub| <= |s| && s[i..i + |sub|] == sub
  }

  /** `sub in s` */
  predicate Contains(s: string, sub: string) {
    exists i: nat | i <= |s| :: OccursAt(s, sub, i)
  }

  /** `s.count(sub)`: non-overlapping occurrences, scanning left to right. */
  function Count(s: string, sub: string): (n: nat)
    decreases |s|
  {
    if sub == [] then |s| + 1
    else if |s| < |sub| then 0
    else if s[..|sub|] == sub then 1 + Count(s[|sub|..], sub)
    else Count(s[1..], sub)
  }

  lemma OccursShift(s: string, sub: string, i: nat)
    requires s != []
    ensures OccursAt(s, sub, i + 1) <==> OccursAt(s[1..], sub, i)
  {
    if i + 1 + |sub| <= |s| {
      assert s[1..][i..i + |sub|] == s[i + 1..i + 1 + |sub|];
    }
  }

  /** `count` finds nothing exactly when the text does not occur. */
  lemma {:induction false} CountZeroIffAbsent(s: string, sub: string)
    requires sub != []
    ensures Count(s, sub) == 0 <==> !Contains(s, sub)
    decreases |s|
  {
    if |s| < |sub| {
    } else if s[..|sub|] == sub {
      assert OccursAt(s, sub, 0);
    } else {
      CountZeroIffAbsent(s[1..], sub);
      if Contains(s, sub) {
        var i: nat :| i <= |s| && OccursAt(s, sub, i);
        assert s[0..|sub|] == s[..|sub|];
        assert i != 0;
        OccursShift(s, sub, i - 1);
        assert OccursAt(s[1..], sub, i - 1);
      }
      if Contains(s[1..], sub) {
        var i: nat :| i <= |s[1..]| && OccursAt(s[1..], sub, i);
        OccursShift(s, sub, i);
        assert OccursAt(s, sub, i + 1);
      }
    }
  }

  /** An occurrence `q` characters further on is one in the text with its first `q` characters dropped. */
  lemma OccursDrop(s: string, sub: string, q: nat, i: nat)
    requires q <= |s|
    ensures OccursAt(s, sub, q + i) <==> OccursAt(s[q..], sub, i)
  {
    if q + i + |sub| <= |s| {
      assert s[q..][i..i + |sub|] == s[q + i..q + i + |sub|];
    }
  }

  /** `sub` cannot overlap itself: its first character does not recur in it. */
  predicate NoSelfOverlap(sub: string) {
    sub != [] && sub[0] !in sub[1..]
  }

  /** `sub` occurs in `s` at position `i` and nowhere else. */
  predicate OccursOnlyAt(s: string, sub: string, i: nat) {
    OccursAt(s, sub, i) && forall k: nat | k <= |s| && k != i :: !OccursAt(s, sub, k)
  }

  /** Two occurrences of `sub` less than `|sub|` apart repeat its first character. */
  lemma OverlapRepeats(s: string, sub: string, j: nat)
    requires OccursAt(s, sub, 0) && OccursAt(s, sub, j) && 0 < j < |sub|
    ensures sub[0] in sub[1..]
  {
    assert s[j..j + |sub|][0] == sub[0];
    assert s[0..|sub|][j] == sub[j];
    assert sub[1..][j - 1] == sub[j];
  }

  /** A text holding `sub` at one position only counts it once. */
  lemma {:induction false} CountOnlyOccurrence(s: string, sub: string, i: nat)
    requires sub != [] && OccursOnlyAt(s, sub, i)
    ensures Count(s, sub) == 1
    decreases |s|
  {
    assert s[0..|sub|] == s[..|sub|];
    if s[..|sub|] == sub {
      assert OccursAt(s, sub, 0);
      var t := s[|sub|..];
      assert !Contains(t, sub) by {
        forall p: nat | p <= |t|
          ensures !OccursAt(t, sub, p)
        {
          OccursDrop(s, sub, |sub|, p);
        }
      }
      CountZeroIffAbsent(t, sub);
    } else {
      assert i > 0;
      OccursShift(s, sub, i - 1);
      forall k: nat | k <= |s[1..]| && k != i - 1
        ensures !OccursAt(s[1..], sub, k)
      {
        OccursShift(s, sub, k);
      }
      CountOnlyOccurrence(s[1..], sub, i - 1);
    }
  }

  /** Two occurrences of a `sub` that cannot overlap itself are both counted. */
  lemma {:induction false} CountTwoOccurrences(s: string, sub: string, i: nat, j: nat)
    requires NoSelfOverlap(sub)
    requires i < j && OccursAt(s, sub, i) && OccursAt(s, sub, j)
    ensures Count(s, sub) >= 2
    decreases |s|
  {
    assert s[0..|sub|] == s[..|sub|];
    if s[..|sub|] == sub {
      assert OccursAt(s, sub, 0);
      if j < |sub| {
        OverlapRepeats(s, sub, j);
        assert false;
      }
      var t := s[|sub|..];
      OccursDrop(s, sub, |sub|, j - |sub|);
      assert j - |sub| <= |t|;
      CountZeroIffAbsent(t, sub);
    } else {
      assert i > 0;
      OccursShift(s, sub, i - 1);
      OccursShift(s, sub, j - 1);
      CountTwoOccurrences(s[1..], sub, i - 1, j - 1);
    }
  }

  /** For a `sub` that cannot overlap itself, `count` is one exactly when `sub` occurs at one position only. */
  lemma CountOneIffOnlyOccurrence(s: string, sub: string)
    requires NoSelfOverlap(sub)
    ensures Count(s, sub) == 1 <==> exists i: nat :: OccursOnlyAt(s, sub, i)
  {
    if Count(s, sub) == 1 {
      CountZeroIffAbsent(s, sub);
      var i: nat :| i <= |s| && OccursAt(s, sub, i);
      forall k: nat | k <= |s| && k != i
        ensures !OccursAt(s, sub, k)
      {
        if OccursAt(s, sub, k) {
          if k < i {
            CountTwoOccurrences(s, sub, k, i);
          } else {
            CountTwoOccurrences(s, sub, i, k);
          }
        }
      }
      assert OccursOnlyAt(s, sub, i);
    }
    if exists i: nat :: OccursOnlyAt(s, sub, i) {
      var i: nat :| OccursOnlyAt(s, sub, i);
      CountOnlyOccurrence(s, sub, i);
    }
  }
}
