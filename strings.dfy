/**
 * The literal string operations the organizer uses, with the meaning Python
 * gives them: `startswith`, `endswith`, `in`, slicing with negative bounds,
 * `lower` (ASCII letters only) and `os.path.splitext` on a bare name.
 */
module Strings {

  import opened Wrappers

  /** `s.startswith(prefix)` */
  predicate StartsWith(s: string, prefix: string) {
    |prefix| <= |s| && s[..|prefix|] == prefix
  }

  /** `s.endswith(suffix)` */
  predicate EndsWith(s: string, suffix: string) {
    |suffix| <= |s| && s[|s| - |suffix|..] == suffix
  }

  /** `sub` occurs in `s` starting at index `i`. */
  predicate OccursAt(s: string, sub: string, i: nat) {
    i + |sub| <= |s| && s[i..i + |sub|] == sub
  }

  /** `sub in s`; the empty string occurs in every string. */
  predicate Contains(s: string, sub: string) {
    exists i: nat :: i <= |s| && OccursAt(s, sub, i)
  }

  /** A Python slice bound: a negative one counts from the end, then it is clamped to `0..n`. */
  function Bound(i: int, n: nat): (b: nat)
    ensures b <= n
    ensures 0 <= i <= n ==> b == i
    ensures -(n as int) <= i < 0 ==> b == n + i
    ensures i > n ==> b == n
    ensures i < -(n as int) ==> b == 0
  {
    if i < 0 then (if n + i < 0 then 0 else n + i)
    else if i > n then n
    else i
  }

  /** `s[lo:hi]`: never fails; empty when the normalised bounds cross. */
  function PySlice(s: string, lo: int, hi: int): (r: string)
    ensures |r| <= |s|
    ensures 0 <= lo <= hi <= |s| ==> r == s[lo..hi]
  {
    var a, b := Bound(lo, |s|), Bound(hi, |s|);
    if a < b then s[a..b] else []
  }

  /** `p[1:-1]`, the text between a one-character opener and closer. */
  function Inner(p: string): (r: string)
    ensures |p| >= 2 ==> r == p[1..|p| - 1]
    ensures |p| < 2 ==> r == []
  {
    PySlice(p, 1, -1)
  }

  /** `p[1:]` */
  function DropFirst(p: string): (r: string)
    ensures |p| >= 1 ==> r == p[1..]
    ensures p == [] ==> r == []
  {
    PySlice(p, 1, |p|)
  }

  /** `p[:-1]` */
  function DropLast(p: string): (r: string)
    ensures |p| >= 1 ==> r == p[..|p| - 1]
    ensures p == [] ==> r == []
  {
    PySlice(p, 0, -1)
  }

  predicate IsUpper(c: char) {
    'A' <= c <= 'Z'
  }

  /** `c.lower()` for one character: a capital becomes its own small letter, 32 code points on. */
  function LowerChar(c: char): (d: char)
    ensures !IsUpper(d)
    ensures !IsUpper(c) ==> d == c
    ensures IsUpper(c) ==> d as int == c as int + 32
  {
    if IsUpper(c) then (c as int + 32) as char else c
  }

  /** `s.lower()`, folding the ASCII letters only. */
  function Lower(s: string): (r: string)
    ensures |r| == |s|
    ensures forall i :: 0 <= i < |r| ==> !IsUpper(r[i])
    ensures forall i :: 0 <= i < |s| ==> r[i] == LowerChar(s[i])
  {
    seq(|s|, i requires 0 <= i < |s| => LowerChar(s[i]))
  }

  lemma LowerIdempotent(s: string)
    ensures Lower(Lower(s)) == Lower(s)
  {
  }

  /** Two characters are the same letter in either case, or the same character. */
  predicate SameIgnoringCase(c: char, d: char) {
    c == d || (IsUpper(c) && d as int == c as int + 32) || (IsUpper(d) && c as int == d as int + 32)
  }

  /** Two characters lower-case alike exactly when they differ at most in letter case. */
  lemma LowerCharAlike(c: char, d: char)
    ensures LowerChar(c) == LowerChar(d) <==> SameIgnoringCase(c, d)
  {
  }

  /**
   * The comparison `ext.lower() == t.lower()` ignores ASCII case and nothing
   * else: the two strings have the same length and agree position by
   * position up to the case of a letter.
   */
  lemma LowerAlike(s: string, t: string)
    ensures Lower(s) == Lower(t) <==> |s| == |t| && forall i :: 0 <= i < |s| ==> SameIgnoringCase(s[i], t[i])
  {
    if |s| == |t| {
      if Lower(s) == Lower(t) {
        forall i | 0 <= i < |s|
          ensures SameIgnoringCase(s[i], t[i])
        {
          assert Lower(s)[i] == Lower(t)[i];
          LowerCharAlike(s[i], t[i]);
        }
      } else {
        var i :| 0 <= i < |s| && Lower(s)[i] != Lower(t)[i];
        LowerCharAlike(s[i], t[i]);
      }
    }
  }

  /** `s.rfind('.')`, as an option: the index of the last dot. */
  function LastDot(s: string): (r: Option<nat>)
    ensures r.Some? ==> r.value < |s| && s[r.value] == '.'
    ensures r.Some? ==> forall k :: r.value < k < |s| ==> s[k] != '.'
    ensures r.None? ==> forall k :: 0 <= k < |s| ==> s[k] != '.'
  {
    if s == [] then None
    else if s[|s| - 1] == '.' then Some(|s| - 1)
    else LastDot(s[..|s| - 1])
  }

  predicate OnlyDots(s: string) {
    forall k :: 0 <= k < |s| ==> s[k] == '.'
  }

  /** Some dot of `name` has a character other than a dot somewhere before it. */
  predicate HasExtension(name: string) {
    exists i, k :: 0 <= k < i < |name| && name[i] == '.' && name[k] != '.'
  }

  /**
   * `os.path.splitext(name)` for a name without separators: split just before
   * the last dot, unless every character before that dot is itself a dot
   * (so `.bashrc` and `..` have no extension, while `a.` has extension `.`).
   * The contract determines the result: the two parts rebuild the name, the
   * extension is empty or a dot followed by non-dots, and it is non-empty
   * exactly when the name has a dot with a non-dot before it.
   */
  function SplitExt(name: string): (r: (string, string))
    ensures r.0 + r.1 == name
    ensures r.1 == [] || (r.1[0] == '.' && forall k :: 0 < k < |r.1| ==> r.1[k] != '.')
    ensures r.1 != [] <==> HasExtension(name)
  {
    match LastDot(name)
    case None => (name, [])
    case Some(i) =>
      if OnlyDots(name[..i]) then (name, [])
      else
        assert name[..i] + name[i..] == name;
        (name[..i], name[i..])
  }

  /** A name whose last dot has a non-dot before it splits just before that dot. */
  lemma SplitAtLastDot(name: string, i: nat, k: nat)
    requires k < i < |name| && name[i] == '.' && name[k] != '.'
    requires forall j :: i < j < |name| ==> name[j] != '.'
    ensures SplitExt(name) == (name[..i], name[i..])
  {
    assert LastDot(name) == Some(i);
    assert name[..i][k] == name[k];
  }
}
