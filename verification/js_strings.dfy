/**
 * The JavaScript string built-ins the filter compiler relies on
 * (`endsWith`, `indexOf`, `substring`), over strings as sequences of characters,
 * plus two counting/ordering notions used to state properties of the output.
 */
module JsStrings {

  /** `s.endsWith(t)` */
  predicate EndsWith(s: string, t: string) {
    |t| <= |s| && s[|s| - |t|..] == t
  }

  /** `s.endsWith(t)` holds exactly when `s` is some string followed by `t`. */
  lemma EndsWithIff(s: string, t: string)
    ensures EndsWith(s, t) <==> exists p :: s == p + t
  {
    if EndsWith(s, t) {
      assert s == s[..|s| - |t|] + t;
    }
  }

  /** `t` occurs in `s` starting at index `k`. */
  predicate OccursAt(s: string, t: string, k: int) {
    0 <= k && k + |t| <= |s| && s[k..k + |t|] == t
  }

  /** `s.indexOf(t, k)`: the first occurrence of `t` at or after `k`, or -1. */
  function IndexOfFrom(s: string, t: string, k: nat): (r: int)
    ensures r == -1 || (k <= r && OccursAt(s, t, r))
    ensures r == -1 ==> forall j :: k <= j ==> !OccursAt(s, t, j)
    ensures r != -1 ==> forall j :: k <= j < r ==> !OccursAt(s, t, j)
    decreases |s| - k
  {
    if k + |t| > |s| then -1
    else if s[k..k + |t|] == t then k
    else IndexOfFrom(s, t, k + 1)
  }

  /** `s.indexOf(t)`: the first occurrence of `t` in `s`, or -1 when there is none. */
  function IndexOf(s: string, t: string): (r: int)
    ensures r == -1 <==> forall j :: !OccursAt(s, t, j)
    ensures r != -1 ==> OccursAt(s, t, r) && forall j :: 0 <= j < r ==> !OccursAt(s, t, j)
  {
    IndexOfFrom(s, t, 0)
  }

  /** A string that ends with `t` contains `t`, first no later than at the suffix position. */
  lemma IndexOfSuffix(s: string, t: string)
    requires EndsWith(s, t)
    ensures 0 <= IndexOf(s, t) <= |s| - |t|
    ensures OccursAt(s, t, IndexOf(s, t))
  {
    assert OccursAt(s, t, |s| - |t|);
  }

  /**
   * `indexOf` scans left to right: when no position before `n` starts with
   * the first two characters of `t` and `t` occurs at `n`, the scan from `k` stops at `n`.
   */
  lemma {:induction false} IndexOfFromScan(s: string, t: string, k: nat, n: nat)
    requires |t| >= 2 && k <= n && OccursAt(s, t, n)
    requires forall j :: k <= j < n ==> s[j] != t[0] || s[j + 1] != t[1]
    ensures IndexOfFrom(s, t, k) == n
    decreases n - k
  {
    if k < n {
      assert s[k..k + |t|][0] == s[k] && s[k..k + |t|][1] == s[k + 1];
      IndexOfFromScan(s, t, k + 1, n);
    }
  }

  /** The clamping JavaScript applies to `substring` arguments. */
  function ClampIndex(x: int, len: nat): (r: nat)
    ensures r <= len
  {
    if x < 0 then 0 else if x > len then len else x
  }

  /**
   * `s.substring(start, end)`: both arguments are clamped to `[0, |s|]`,
   * and swapped when `start` exceeds `end`.
   */
  function Substring(s: string, start: int, end: int): (r: string)
    ensures |r| == if ClampIndex(start, |s|) <= ClampIndex(end, |s|)
                   then ClampIndex(end, |s|) - ClampIndex(start, |s|)
                   else ClampIndex(start, |s|) - ClampIndex(end, |s|)
    ensures OccursAt(s, r, if ClampIndex(start, |s|) <= ClampIndex(end, |s|)
                           then ClampIndex(start, |s|) else ClampIndex(end, |s|))
  {
    var a, b := ClampIndex(start, |s|), ClampIndex(end, |s|);
    if a <= b then s[a..b] else s[b..a]
  }

  /** `s.substring(0, end)` is the prefix of `s` up to the clamped end. */
  lemma SubstringPrefix(s: string, end: int)
    ensures Substring(s, 0, end) == s[..ClampIndex(end, |s|)]
    ensures Substring(s, 0, end) <= s
  {
  }

  /** Number of occurrences of the character `c` in `s`. */
  function Count(s: string, c: char): (n: nat)
    ensures n <= |s|
  {
    if s == [] then 0 else (if s[0] == c then 1 else 0) + Count(s[1..], c)
  }

  lemma {:induction false} CountConcat(a: string, b: string, c: char)
    ensures Count(a + b, c) == Count(a, c) + Count(b, c)
  {
    if a == [] {
      assert a + b == b;
    } else {
      assert (a + b)[1..] == a[1..] + b;
      CountConcat(a[1..], b, c);
    }
  }

  lemma {:induction false} CountAbsent(s: string, c: char)
    requires forall i :: 0 <= i < |s| ==> s[i] != c
    ensures Count(s, c) == 0
  {
    if s != [] {
      CountAbsent(s[1..], c);
    }
  }

  /** `a` is obtained from `b` by deleting characters, keeping the order of the rest. */
  predicate IsSubsequence(a: string, b: string)
    decreases |b|
  {
    if a == [] then true
    else if b == [] then false
    else if a[0] == b[0] then IsSubsequence(a[1..], b[1..])
    else IsSubsequence(a, b[1..])
  }
}
