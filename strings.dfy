/** The string primitives the handlers rely on: `String.prototype.replace`
    with a string pattern (first occurrence only), the substring test behind an
    unanchored regular-expression alternation, `toLowerCase` and `lastIndexOf`. */
module Strings {
  import opened Values

  /** `pat` occurs in `s` starting at index `i`. */
  predicate OccursAt(s: string, pat: string, i: nat) {
    i + |pat| <= |s| && s[i..i + |pat|] == pat
  }

  /** The first index at or after `from` where `pat` occurs. */
  function IndexOfFrom(s: string, pat: string, from: nat): (r: Option<nat>)
    decreases |s| - from
    ensures r.Some? ==> from <= r.value && OccursAt(s, pat, r.value)
    ensures r.Some? ==> forall j :: from <= j < r.value ==> !OccursAt(s, pat, j)
    ensures r.None? ==> forall j :: from <= j ==> !OccursAt(s, pat, j)
  {
    if from + |pat| > |s| then None
    else if s[from..from + |pat|] == pat then Some(from)
    else IndexOfFrom(s, pat, from + 1)
  }

  /** `s.indexOf(pat)`, with `None` for -1. */
  function IndexOf(s: string, pat: string): (r: Option<nat>)
    ensures r.Some? ==> OccursAt(s, pat, r.value)
    ensures r.Some? ==> forall j: nat :: j < r.value ==> !OccursAt(s, pat, j)
    ensures r.None? ==> forall j :: !OccursAt(s, pat, j)
  {
    IndexOfFrom(s, pat, 0)
  }

  /** `pat` occurs somewhere in `s`: what an unanchored regular expression
      made of the literal `pat` tests. */
  predicate Contains(s: string, pat: string)
    ensures Contains(s, pat) <==> exists i :: OccursAt(s, pat, i)
  {
    IndexOf(s, pat).Some?
  }

  /** A pattern holding a character that `s` lacks does not occur in `s`. */
  lemma MissingCharNotContained(s: string, pat: string, t: nat)
    requires t < |pat| && pat[t] !in s
    ensures !Contains(s, pat)
  {
    forall i: nat
      ensures !OccursAt(s, pat, i)
    {
      if i + |pat| <= |s| {
        assert s[i..i + |pat|][t] == s[i + t];
      }
    }
  }

  /** `s.replace(pat, replacement)`: only the first occurrence of `pat` is replaced. */
  function ReplaceFirst(s: string, pat: string, replacement: string): (r: string)
    ensures IndexOf(s, pat).None? ==> r == s
    ensures IndexOf(s, pat).Some? ==>
              r == s[..IndexOf(s, pat).value] + replacement + s[IndexOf(s, pat).value + |pat|..]
  {
    match IndexOf(s, pat)
    case None => s
    case Some(i) => s[..i] + replacement + s[i + |pat|..]
  }

  /** Removing the first occurrence undoes inserting `pat` into `p + q`, provided
      `p` cannot hold an earlier occurrence (it lacks the first character of `pat`). */
  lemma ReplaceFirstUndoesInsert(p: string, pat: string, q: string)
    requires |pat| > 0 && pat[0] !in p
    ensures ReplaceFirst(p + pat + q, pat, "") == p + q
  {
    var s := p + pat + q;
    assert OccursAt(s, pat, |p|) by {
      assert s[|p|..|p| + |pat|] == pat;
    }
    forall j: nat | j < |p|
      ensures !OccursAt(s, pat, j)
    {
      assert s[j] == p[j];
    }
    assert IndexOf(s, pat) == Some(|p|);
    assert s[..|p|] == p;
    assert s[|p| + |pat|..] == q;
  }

  /** Conversely, what `s.replace(pat, "")` turns into `t` is `t` itself (when `pat`
      does not occur in it) or `t` with `pat` inserted at some position. */
  lemma ReplaceFirstRemovedOne(s: string, pat: string, t: string)
    requires ReplaceFirst(s, pat, "") == t
    ensures (IndexOf(s, pat).None? && s == t)
            || (exists k :: 0 <= k <= |t| && s == t[..k] + pat + t[k..])
  {
    if IndexOf(s, pat).Some? {
      var i := IndexOf(s, pat).value;
      assert t == s[..i] + s[i + |pat|..];
      assert t[..i] == s[..i];
      assert t[i..] == s[i + |pat|..];
      assert s == t[..i] + pat + t[i..] by {
        assert s == s[..i] + s[i..i + |pat|] + s[i + |pat|..];
      }
    }
  }

  /** `c.toLowerCase()` for a single character; only ASCII letters change. */
  function LowerChar(c: char): char {
    if 'A' <= c <= 'Z' then (c as int + 32) as char else c
  }

  /** `s.toLowerCase()`, restricted to ASCII letters: the result has the same
      length, keeps every non-letter and holds no upper-case ASCII letter. */
  function ToLowerCase(s: string): (r: string)
    ensures |r| == |s|
    ensures forall i :: 0 <= i < |s| ==> r[i] == LowerChar(s[i])
    ensures forall i :: 0 <= i < |r| ==> !('A' <= r[i] <= 'Z')
  {
    seq(|s|, i requires 0 <= i < |s| => LowerChar(s[i]))
  }

  /** Lower-casing text without upper-case ASCII letters changes nothing. */
  lemma ToLowerCaseOfLower(s: string)
    requires forall i :: 0 <= i < |s| ==> !('A' <= s[i] <= 'Z')
    ensures ToLowerCase(s) == s
  {
  }

  /** `s.lastIndexOf(c)` for a single character. */
  function LastIndexOf(s: string, c: char): (r: Option<nat>)
    ensures r.Some? ==> r.value < |s| && s[r.value] == c
    ensures r.Some? ==> forall j :: r.value < j < |s| ==> s[j] != c
    ensures r.None? ==> forall j :: 0 <= j < |s| ==> s[j] != c
  {
    if s == [] then None
    else if s[|s| - 1] == c then Some(|s| - 1)
    else LastIndexOf(s[..|s| - 1], c)
  }
}
