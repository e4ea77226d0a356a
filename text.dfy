/** The string operations of Python's `str` that the pipeline relies on:
    `upper`, `replace`, `startswith` and `join`. */
module Text {
  import opened Common

  /** `str.upper` on one character; only ASCII letters are modelled. */
  function UpperChar(c: char): char {
    if 'a' <= c <= 'z' then (c as int - 32) as char else c
  }

  function Upper(s: string): (r: string)
    ensures |r| == |s|
    ensures forall i :: 0 <= i < |s| ==> r[i] == UpperChar(s[i])
  {
    seq(|s|, i requires 0 <= i < |s| => UpperChar(s[i]))
  }

  /** Upper-casing twice is upper-casing once. */
  lemma UpperIdempotent(s: string)
    ensures Upper(Upper(s)) == Upper(s)
  {
  }

  function StartsWith(s: string, prefix: string): bool {
    |prefix| <= |s| && s[..|prefix|] == prefix
  }

  /** `pat` occurs in `s` at index `i`. */
  predicate MatchAt(s: string, pat: string, i: nat) {
    i + |pat| <= |s| && s[i..i + |pat|] == pat
  }

  /** `s.replace(pat, rep)`: every occurrence, scanning left to right, without
      overlaps. */
  function ReplaceAll(s: string, pat: string, rep: string): (r: string)
    requires |pat| > 0
    ensures |s| < |pat| ==> r == s
    decreases |s|
  {
    if |s| < |pat| then s
    else if s[..|pat|] == pat then rep + ReplaceAll(s[|pat|..], pat, rep)
    else [s[0]] + ReplaceAll(s[1..], pat, rep)
  }

  /** Replacing introduces no character beyond those of `s` and `rep`. */
  lemma {:induction false} ReplaceAllChars(s: string, pat: string, rep: string)
    requires |pat| > 0
    ensures forall c :: c in ReplaceAll(s, pat, rep) ==> c in s || c in rep
    decreases |s|
  {
    if |s| >= |pat| {
      if s[..|pat|] == pat {
        ReplaceAllChars(s[|pat|..], pat, rep);
      } else {
        ReplaceAllChars(s[1..], pat, rep);
      }
    }
  }

  /** Matching in the tail of `s` is matching in `s` one index later. */
  lemma MatchShift(s: string, pat: string, i: nat)
    requires |s| > 0
    ensures MatchAt(s[1..], pat, i) <==> MatchAt(s, pat, i + 1)
  {
    if i + 1 + |pat| <= |s| {
      assert s[1..][i..i + |pat|] == s[i + 1..i + 1 + |pat|];
    }
  }

  /** A string in which `pat` does not occur is left unchanged. */
  lemma {:induction false} ReplaceAbsent(s: string, pat: string, rep: string)
    requires |pat| > 0
    requires forall i: nat :: !MatchAt(s, pat, i)
    ensures ReplaceAll(s, pat, rep) == s
    decreases |s|
  {
    if |s| >= |pat| {
      assert !MatchAt(s, pat, 0);
      forall i: nat ensures !MatchAt(s[1..], pat, i) {
        MatchShift(s, pat, i);
      }
      ReplaceAbsent(s[1..], pat, rep);
    }
  }

  /** Where `pat` does not start `s`, the first character is copied and the scan
      moves on. */
  lemma ReplaceSkip(s: string, pat: string, rep: string)
    requires |pat| > 0 && |s| > 0 && !MatchAt(s, pat, 0)
    ensures ReplaceAll(s, pat, rep) == [s[0]] + ReplaceAll(s[1..], pat, rep)
  {
  }

  /** A prefix `x` in which no occurrence of `pat` starts is copied unchanged. */
  lemma {:induction false} ReplaceAfterPrefix(x: string, y: string, pat: string, rep: string)
    requires |pat| > 0
    requires forall i: nat :: i < |x| ==> !MatchAt(x + y, pat, i)
    ensures ReplaceAll(x + y, pat, rep) == x + ReplaceAll(y, pat, rep)
    decreases |x|
  {
    if |x| > 0 {
      var s, x' := x + y, x[1..];
      assert s[1..] == x' + y;
      forall i: nat | i < |x'| ensures !MatchAt(x' + y, pat, i) {
        MatchShift(s, pat, i);
      }
      calc {
        ReplaceAll(s, pat, rep);
        { ReplaceSkip(s, pat, rep); }
        [x[0]] + ReplaceAll(x' + y, pat, rep);
        { ReplaceAfterPrefix(x', y, pat, rep); }
        [x[0]] + (x' + ReplaceAll(y, pat, rep));
        ([x[0]] + x') + ReplaceAll(y, pat, rep);
        { assert [x[0]] + x' == x; }
        x + ReplaceAll(y, pat, rep);
      }
    } else {
      assert x + y == y;
      assert x + ReplaceAll(y, pat, rep) == ReplaceAll(y, pat, rep);
    }
  }

  /** An occurrence of `pat` at the start becomes `rep`. */
  lemma ReplaceAtStart(pat: string, y: string, rep: string)
    requires |pat| > 0
    ensures ReplaceAll(pat + y, pat, rep) == rep + ReplaceAll(y, pat, rep)
  {
    assert (pat + y)[..|pat|] == pat;
    assert (pat + y)[|pat|..] == y;
  }

  /** Concatenation regroups. */
  lemma AppendAssoc(a: string, b: string, c: string)
    ensures a + b + c == a + (b + c)
  {
  }

  /** A template holding one occurrence of `pat` becomes the text around it with
      `rep` in its place. */
  lemma SingleOccurrence(before: string, pat: string, after: string, rep: string)
    requires |pat| > 0
    requires forall i: nat :: i < |before| ==> !MatchAt(before + pat + after, pat, i)
    requires forall i: nat :: !MatchAt(after, pat, i)
    ensures ReplaceAll(before + pat + after, pat, rep) == before + rep + after
  {
    var rest := pat + after;
    AppendAssoc(before, pat, after);
    ReplaceAfterPrefix(before, rest, pat, rep);
    ReplaceAtStart(pat, after, rep);
    ReplaceAbsent(after, pat, rep);
    assert before + (rep + after) == before + rep + after;
  }

  /** `s` holds no `{`. */
  predicate NoBrace(s: string) {
    forall i :: 0 <= i < |s| ==> s[i] != '{'
  }

  /** `pat` occurs nowhere in `s`. */
  ghost predicate Absent(s: string, pat: string) {
    forall i: nat :: !MatchAt(s, pat, i)
  }

  /** A pattern starting with `{` cannot occur in text without braces. */
  lemma AbsentFromBraceFree(s: string, pat: string)
    requires |pat| > 0 && pat[0] == '{' && NoBrace(s)
    ensures Absent(s, pat)
  {
    forall i: nat ensures !MatchAt(s, pat, i) {
      if i + |pat| <= |s| {
        assert s[i..i + |pat|][0] == s[i];
      }
    }
  }

  /** When `pat` differs from `s` at index `k`, it does not occur at the start of `s`. */
  lemma DiffersAt(s: string, pat: string, k: nat)
    requires k < |pat| && (k < |s| ==> s[k] != pat[k])
    ensures !MatchAt(s, pat, 0)
  {
    if |pat| <= |s| {
      assert s[0..|pat|][k] == s[k];
    }
  }

  /** `p` has the form `{{...}}`: two opening braces and no other. */
  predicate Placeholder(p: string) {
    |p| >= 3 && p[0] == '{' && p[1] == '{' && NoBrace(p[2..])
  }

  /** A `{{...}}` placeholder `p` between brace-free text `x` and a text `y` free of
      `q` does not give rise to an occurrence of another placeholder `q`. */
  lemma AbsentAroundPlaceholder(x: string, p: string, y: string, q: string)
    requires NoBrace(x) && Absent(y, q) && Placeholder(p) && Placeholder(q)
    requires !MatchAt(p + y, q, 0)
    ensures Absent(x + p + y, q)
  {
    var s := x + p + y;
    forall i: nat ensures !MatchAt(s, q, i) {
      if i + |q| <= |s| {
        var w := s[i..i + |q|];
        assert w[0] == s[i] && w[1] == s[i + 1];
        if i < |x| {
          assert s[i] == x[i];
        } else if i == |x| {
          assert w == (p + y)[0..|q|];
        } else if i < |x| + |p| {
          if i - |x| >= 2 {
            assert s[i] == p[2..][i - |x| - 2];
          } else {
            assert s[i + 1] == p[2..][0];
          }
        } else {
          var k := i - |x| - |p|;
          assert w == y[k..k + |q|];
          assert !MatchAt(y, q, k);
        }
      }
    }
  }

  /** A single occurrence of `pat` after brace-free text `x`, in a text whose
      remainder `y` is free of `pat`, is replaced by `rep`. */
  lemma ReplaceAfterBraceFree(x: string, pat: string, y: string, rep: string)
    requires |pat| > 0 && pat[0] == '{' && NoBrace(x) && Absent(y, pat)
    ensures ReplaceAll(x + pat + y, pat, rep) == x + rep + y
  {
    forall i: nat | i < |x| ensures !MatchAt(x + pat + y, pat, i) {
      if i + |pat| <= |x + pat + y| {
        assert (x + pat + y)[i..i + |pat|][0] == x[i];
      }
    }
    SingleOccurrence(x, pat, y, rep);
  }

  /** Replacing a single character: each occurrence of `c` becomes `rep`, every
      other character is kept. */
  function MapChar(s: string, c: char, rep: string): (r: string)
    ensures |r| == |s| + (|rep| - 1) * Count(s, c)
  {
    if |s| == 0 then ""
    else (if s[0] == c then rep else [s[0]]) + MapChar(s[1..], c, rep)
  }

  function Count(s: string, c: char): nat {
    if |s| == 0 then 0 else (if s[0] == c then 1 else 0) + Count(s[1..], c)
  }

  lemma {:induction false} ReplaceCharIsMapChar(s: string, c: char, rep: string)
    ensures ReplaceAll(s, [c], rep) == MapChar(s, c, rep)
  {
    if |s| > 0 {
      ReplaceCharIsMapChar(s[1..], c, rep);
    }
  }

  /** The index of the first occurrence of `c` in `s`, if any. */
  function FirstIndex(s: string, c: char): (r: Option<nat>)
    ensures r.Some? ==> r.value < |s| && s[r.value] == c && forall i :: 0 <= i < r.value ==> s[i] != c
    ensures r.None? ==> forall i :: 0 <= i < |s| ==> s[i] != c
  {
    if |s| == 0 then None
    else if s[0] == c then Some(0)
    else match FirstIndex(s[1..], c)
      case Some(i) => Some(i + 1)
      case None => None
  }

  /** The index of the last occurrence of `c` in `s`, if any. */
  function LastIndex(s: string, c: char): (r: Option<nat>)
    ensures r.Some? ==> r.value < |s| && s[r.value] == c && forall i :: r.value < i < |s| ==> s[i] != c
    ensures r.None? ==> forall i :: 0 <= i < |s| ==> s[i] != c
  {
    if |s| == 0 then None
    else if s[|s| - 1] == c then Some(|s| - 1)
    else LastIndex(s[..|s| - 1], c)
  }

  /** `sep.join(parts)`. */
  function Join(parts: seq<string>, sep: string): string {
    if |parts| == 0 then ""
    else if |parts| == 1 then parts[0]
    else parts[0] + sep + Join(parts[1..], sep)
  }
}
