/**
 * The handful of Python string operations the search and scoring code relies on:
 * `strip`, `upper`, `lower`, `isupper`, `in` on substrings and `split(sep)[0]`.
 * Case mapping covers ASCII letters only.
 */
module Strings {

  /** Python's `str.isspace` for one character. */
  predicate IsSpace(c: char)
  {
    || ('\U{9}' <= c <= '\U{D}')
    || ('\U{1C}' <= c <= '\U{20}')
    || c == '\U{85}' || c == '\U{A0}' || c == '\U{1680}'
    || ('\U{2000}' <= c <= '\U{200A}')
    || c == '\U{2028}' || c == '\U{2029}' || c == '\U{202F}' || c == '\U{205F}' || c == '\U{3000}'
  }

  /** `s.lstrip()`: the longest suffix of `s` that does not start with white space. */
  function TrimStart(s: string): (r: string)
    ensures |r| <= |s| && r == s[|s| - |r|..]
    ensures r != [] ==> !IsSpace(r[0])
    ensures forall i :: 0 <= i < |s| - |r| ==> IsSpace(s[i])
  {
    if s != [] && IsSpace(s[0]) then TrimStart(s[1..]) else s
  }

  /** `s.rstrip()`: the longest prefix of `s` that does not end with white space. */
  function TrimEnd(s: string): (r: string)
    ensures |r| <= |s| && r == s[..|r|]
    ensures r != [] ==> !IsSpace(r[|r| - 1])
    ensures forall i :: |r| <= i < |s| ==> IsSpace(s[i])
  {
    if s != [] && IsSpace(s[|s| - 1]) then TrimEnd(s[..|s| - 1]) else s
  }

  /** `s.strip()`. */
  function Strip(s: string): (r: string)
    ensures |r| <= |s|
    ensures r != [] ==> !IsSpace(r[0]) && !IsSpace(r[|r| - 1])
  {
    TrimEnd(TrimStart(s))
  }

  /** A string that `strip` leaves alone neither starts nor ends with white space. */
  lemma StrippedHasNoOuterSpace(s: string)
    requires Strip(s) == s && s != []
    ensures !IsSpace(s[0]) && !IsSpace(s[|s| - 1])
  {
  }

  predicate IsLowerLetter(c: char) { 'a' <= c <= 'z' }

  predicate IsUpperLetter(c: char) { 'A' <= c <= 'Z' }

  function UpperChar(c: char): char
  {
    if IsLowerLetter(c) then (c as int - 32) as char else c
  }

  function LowerChar(c: char): char
  {
    if IsUpperLetter(c) then (c as int + 32) as char else c
  }

  /** `s.upper()` on ASCII letters. */
  function Upper(s: string): (r: string)
    ensures |r| == |s|
    ensures forall i :: 0 <= i < |s| ==> !IsLowerLetter(r[i])
  {
    seq(|s|, i requires 0 <= i < |s| => UpperChar(s[i]))
  }

  /** `s.lower()` on ASCII letters. */
  function Lower(s: string): (r: string)
    ensures |r| == |s|
    ensures forall i :: 0 <= i < |s| ==> !IsUpperLetter(r[i])
  {
    seq(|s|, i requires 0 <= i < |s| => LowerChar(s[i]))
  }

  /** `s.isupper()`: at least one cased character and no lower-case one. */
  predicate IsUpperCased(s: string)
  {
    (exists i | 0 <= i < |s| :: IsUpperLetter(s[i])) && (forall i | 0 <= i < |s| :: !IsLowerLetter(s[i]))
  }

  /** `pat` occurs in `s` starting at index `k`. */
  predicate OccursAt(s: string, pat: string, k: int)
  {
    0 <= k && k + |pat| <= |s| && s[k..k + |pat|] == pat
  }

  /** `pat in s`. */
  predicate Contains(s: string, pat: string)
  {
    exists k | 0 <= k <= |s| :: OccursAt(s, pat, k)
  }

  /** The first index at or after `i` where `pat` occurs, or `|s|` when there is none. */
  function FindFrom(s: string, pat: string, i: nat): (k: nat)
    requires i <= |s|
    decreases |s| - i
    ensures i <= k <= |s|
    ensures k < |s| ==> OccursAt(s, pat, k)
    ensures forall j :: i <= j < k ==> !OccursAt(s, pat, j)
  {
    if i == |s| then |s|
    else if OccursAt(s, pat, i) then i
    else FindFrom(s, pat, i + 1)
  }

  /** `s.split(pat)[0]`: everything before the first occurrence of `pat` (all of `s` when absent). */
  function Before(s: string, pat: string): (r: string)
    requires pat != []
    ensures |r| <= |s| && r == s[..|r|]
    ensures Contains(s, pat) <==> |r| < |s|
    ensures |r| < |s| ==> OccursAt(s, pat, |r|)
    ensures forall j :: 0 <= j < |r| ==> !OccursAt(s, pat, j)
  {
    var k := FindFrom(s, pat, 0);
    assert Contains(s, pat) ==> k < |s| by {
      if Contains(s, pat) {
        var j :| 0 <= j <= |s| && OccursAt(s, pat, j);
        assert j < |s|;
      }
    }
    s[..k]
  }

  /** `split` stops at the first occurrence: when `pat` first occurs at `k`, the head is `s[..k]`. */
  lemma BeforeFirst(s: string, pat: string, k: int)
    requires pat != [] && OccursAt(s, pat, k)
    requires forall j :: 0 <= j < k ==> !OccursAt(s, pat, j)
    ensures Contains(s, pat) && Before(s, pat) == s[..k]
  {
    assert 0 <= k <= |s|;
  }

  /** `strip` leaves alone a string that neither starts nor ends with white space. */
  lemma StripKeeps(s: string)
    requires s != [] ==> !IsSpace(s[0]) && !IsSpace(s[|s| - 1])
    ensures Strip(s) == s
  {
  }

  /** A pattern holding a character that `s` lacks does not occur in `s`. */
  lemma MissingCharExcludes(s: string, pat: string, i: int)
    requires 0 <= i < |pat| && pat[i] !in s
    ensures !Contains(s, pat)
  {
    forall k | 0 <= k <= |s| ensures !OccursAt(s, pat, k) {
      if k + |pat| <= |s| {
        assert s[k..k + |pat|][i] == s[k + i];
      }
    }
  }
}
