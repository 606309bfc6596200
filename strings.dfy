/** Ordinal substring search, the model of .NET's String.Contains(string) and
    String.IndexOf(string) as the startup code uses them. */
module Strings {

  /** Pattern `t` occurs in `s` starting at index `i`. */
  predicate OccursAt(s: string, t: string, i: int) {
    0 <= i && i + |t| <= |s| && s[i..i + |t|] == t
  }

  /** String.Contains: `t` occurs somewhere in `s`. */
  predicate Contains(s: string, t: string) {
    exists i :: 0 <= i <= |s| - |t| && OccursAt(s, t, i)
  }

  /** `k` is the first index at which `t` occurs in `s`. */
  predicate IsFirstOccurrence(s: string, t: string, k: int) {
    OccursAt(s, t, k) && forall j :: 0 <= j < k ==> !OccursAt(s, t, j)
  }

  /** Leftmost occurrence of `t` in `s` at or after `from`, or -1 when there is none. */
  function IndexFrom(s: string, t: string, from: nat): (r: int)
    ensures r == -1 || (from <= r && OccursAt(s, t, r))
    ensures forall j :: from <= j && (r == -1 || j < r) ==> !OccursAt(s, t, j)
    decreases |s| - from
  {
    if from + |t| > |s| then -1
    else if s[from..from + |t|] == t then from
    else IndexFrom(s, t, from + 1)
  }

  /** String.IndexOf: the first occurrence of `t` in `s`, or -1 when `t` does not occur. */
  function IndexOf(s: string, t: string): (r: int)
    ensures r == -1 <==> !Contains(s, t)
    ensures r != -1 ==> IsFirstOccurrence(s, t, r)
  {
    IndexFrom(s, t, 0)
  }

  /** A first occurrence is unique, so IndexOf finds exactly it. */
  lemma IndexOfIsFirst(s: string, t: string, k: int)
    requires IsFirstOccurrence(s, t, k)
    ensures IndexOf(s, t) == k
  {
    var r := IndexOf(s, t);
    assert r != -1 by { assert 0 <= k <= |s| - |t| && OccursAt(s, t, k); }
    assert !(r < k) && !(k < r);
  }

  /** An occurrence inside a prefix of `s` is an occurrence in `s`. */
  lemma OccursInPrefix(s: string, t: string, n: nat, j: int)
    requires n <= |s|
    requires OccursAt(s[..n], t, j)
    ensures OccursAt(s, t, j)
  {
    assert s[..n][j..j + |t|] == s[j..j + |t|];
  }

  /** A prefix of `s` that ends before the first occurrence of `t` does not contain `t`. */
  lemma PrefixBeforeFirstIsClean(s: string, t: string, k: int)
    requires |t| > 0
    requires IsFirstOccurrence(s, t, k)
    ensures !Contains(s[..k], t)
  {
    forall j | 0 <= j <= k - |t| && OccursAt(s[..k], t, j)
      ensures false
    {
      OccursInPrefix(s, t, k, j);
    }
  }

  /** A pattern placed between two strings occurs right after the first one. */
  lemma OccursBetween(a: string, t: string, b: string)
    ensures OccursAt(a + t + b, t, |a|)
  {
    assert (a + t + b)[|a|..|a| + |t|] == t;
  }
}
