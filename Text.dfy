/**
 * String operations of the .NET base library that the modelled code relies on,
 * restricted to ordinal (culture-free) comparison.
 */
module Text {

  /** `p` occurs in `s` starting at index `k`. */
  predicate OccursAt(s: string, p: string, k: int) {
    0 <= k && k + |p| <= |s| && s[k..k + |p|] == p
  }

  /** `string.IndexOf(p)`: index of the first occurrence of `p` in `s`, or -1. */
  function IndexOf(s: string, p: string): (r: int)
    ensures -1 <= r <= |s|
    ensures r >= 0 ==> OccursAt(s, p, r)
    ensures forall k :: 0 <= k && (r < 0 || k < r) ==> !OccursAt(s, p, k)
    decreases |s|
  {
    if |s| < |p| then
      assert forall k :: 0 <= k ==> !OccursAt(s, p, k);
      -1
    else if p <= s then
      assert s[0..|p|] == p;
      0
    else
      var t := IndexOf(s[1..], p);
      assert forall k :: 1 <= k ==> (OccursAt(s, p, k) <==> OccursAt(s[1..], p, k - 1)) by {
        forall k | 1 <= k ensures OccursAt(s, p, k) <==> OccursAt(s[1..], p, k - 1) {
          if k + |p| <= |s| {
            assert s[1..][k - 1..k - 1 + |p|] == s[k..k + |p|];
          }
        }
      }
      assert s[0..|p|] == s[..|p|];
      assert !OccursAt(s, p, 0);
      if t < 0 then -1 else t + 1
  }

  /**
   * `s.Replace(p, "")`: every occurrence of `p` found by a left-to-right scan
   * is removed; the scan resumes after each removed occurrence.
   */
  function RemoveAll(s: string, p: string): (r: string)
    requires |p| > 0
    ensures |r| <= |s|
    ensures |r| == |s| <==> forall k :: 0 <= k ==> !OccursAt(s, p, k)
    decreases |s|
  {
    if |s| < |p| then s
    else if p <= s then
      assert OccursAt(s, p, 0);
      RemoveAll(s[|p|..], p)
    else
      assert forall k :: 1 <= k ==> (OccursAt(s, p, k) <==> OccursAt(s[1..], p, k - 1)) by {
        forall k | 1 <= k ensures OccursAt(s, p, k) <==> OccursAt(s[1..], p, k - 1) {
          if k + |p| <= |s| {
            assert s[1..][k - 1..k - 1 + |p|] == s[k..k + |p|];
          }
        }
      }
      assert s[0..|p|] == s[..|p|];
      assert !OccursAt(s, p, 0);
      assert (forall k :: 0 <= k ==> !OccursAt(s, p, k)) <==> (forall k :: 0 <= k ==> !OccursAt(s[1..], p, k)) by {
        if exists k :: 0 <= k && OccursAt(s, p, k) {
          var k :| 0 <= k && OccursAt(s, p, k);
          assert OccursAt(s[1..], p, k - 1);
        }
        if exists k :: 0 <= k && OccursAt(s[1..], p, k) {
          var k :| 0 <= k && OccursAt(s[1..], p, k);
          assert OccursAt(s, p, k + 1);
        }
      }
      [s[0]] + RemoveAll(s[1..], p)
  }

  /** A string in which `p` does not occur is left as it is. */
  lemma {:induction false} RemoveAllAbsent(s: string, p: string)
    requires |p| > 0
    requires forall k :: 0 <= k ==> !OccursAt(s, p, k)
    ensures RemoveAll(s, p) == s
    decreases |s|
  {
    if |s| < |p| {
    } else {
      assert !OccursAt(s, p, 0);
      assert s[..|p|] != p;
      forall k | 0 <= k ensures !OccursAt(s[1..], p, k) {
        if OccursAt(s[1..], p, k) {
          assert s[1..][k..k + |p|] == s[k + 1..k + 1 + |p|];
          assert OccursAt(s, p, k + 1);
        }
      }
      RemoveAllAbsent(s[1..], p);
      assert s == [s[0]] + s[1..];
    }
  }

  /** A leading occurrence is removed and the scan carries on after it. */
  lemma RemoveAllLeading(p: string, t: string)
    requires |p| > 0
    ensures RemoveAll(p + t, p) == RemoveAll(t, p)
  {
    assert p <= p + t;
    assert (p + t)[|p|..] == t;
  }

  /** Index of the last `c` in `s`, or -1. */
  function LastIndexOf(s: string, c: char): (r: int)
    ensures -1 <= r < |s|
    ensures r >= 0 ==> s[r] == c
    ensures forall k :: r < k < |s| ==> s[k] != c
  {
    if |s| == 0 then -1
    else if s[|s| - 1] == c then |s| - 1
    else LastIndexOf(s[..|s| - 1], c)
  }

  /** Index of the last '/' or '\\' in `s`, or -1. */
  function LastSeparator(s: string): (r: int)
    ensures -1 <= r < |s|
    ensures r >= 0 ==> IsSeparator(s[r])
    ensures forall k :: r < k < |s| ==> !IsSeparator(s[k])
  {
    if |s| == 0 then -1
    else if IsSeparator(s[|s| - 1]) then |s| - 1
    else LastSeparator(s[..|s| - 1])
  }

  /** The last separator of `s` is at `i` when `s[i]` is one and none follows it. */
  lemma LastSeparatorAt(s: string, i: int)
    requires 0 <= i < |s| && IsSeparator(s[i])
    requires forall k :: i < k < |s| ==> !IsSeparator(s[k])
    ensures LastSeparator(s) == i
  {
  }

  predicate IsSeparator(c: char) {
    c == '/' || c == '\\'
  }

  function LowerChar(c: char): char {
    if 'A' <= c <= 'Z' then (c as int + 32) as char else c
  }

  /** `string.ToLower()` on ASCII letters; every other character is kept. */
  function ToLower(s: string): (r: string)
    ensures |r| == |s|
    ensures forall k :: 0 <= k < |s| ==> r[k] == LowerChar(s[k])
  {
    seq(|s|, k requires 0 <= k < |s| => LowerChar(s[k]))
  }

  /**
   * `Path.Combine(directory, name)`: `directory` when `name` is empty; `name`
   * alone when it is rooted (starts with a separator) or `directory` is empty;
   * otherwise the two joined by '/', unless `directory` already ends with a
   * separator.
   */
  function CombinePath(directory: string, name: string): (path: string)
    ensures name == [] ==> path == directory
    ensures |path| >= |name| && path[|path| - |name|..] == name
    ensures name != [] && (IsSeparator(name[0]) || directory == []) ==> path == name
    ensures name != [] && !IsSeparator(name[0]) && directory != [] ==>
      && |path| == |directory| + |name| + (if IsSeparator(directory[|directory| - 1]) then 0 else 1)
      && path[..|directory|] == directory
      && IsSeparator(path[|path| - |name| - 1])
  {
    if name == [] then directory
    else if IsSeparator(name[0]) || directory == [] then name
    else if IsSeparator(directory[|directory| - 1]) then directory + name
    else directory + "/" + name
  }

  /** The length of the root of `path`: its leading separator, if any. */
  function RootLength(path: string): (n: nat)
    ensures n <= |path| && (n == 1 <==> |path| > 0 && IsSeparator(path[0]))
  {
    if |path| > 0 && IsSeparator(path[0]) then 1 else 0
  }

  /** `s` without the separators it ends with, never shorter than `keep`. */
  function TrimTrailingSeparators(s: string, keep: nat): (t: string)
    ensures t <= s && |t| >= (if keep <= |s| then keep else |s|)
    ensures |t| > keep ==> !IsSeparator(t[|t| - 1])
    ensures forall k :: |t| <= k < |s| ==> IsSeparator(s[k])
    decreases |s|
  {
    if |s| > keep && IsSeparator(s[|s| - 1]) then TrimTrailingSeparators(s[..|s| - 1], keep) else s
  }

  /**
   * `Path.GetDirectoryName`: what precedes the last separator, without the
   * separators it ends with, but keeping the root; "" when the path is no
   * more than its root or has no separator.
   */
  function GetDirectoryName(path: string): (directory: string)
    ensures directory <= path && (path != "" ==> |directory| < |path|)
    ensures |path| > RootLength(path) ==> |directory| >= RootLength(path)
    ensures |directory| > RootLength(path) ==> !IsSeparator(directory[|directory| - 1])
    ensures forall k :: |directory| <= k <= LastSeparator(path) ==> IsSeparator(path[k])
    ensures |directory| <= (if LastSeparator(path) < RootLength(path) then RootLength(path) else LastSeparator(path))
  {
    var root := RootLength(path);
    if |path| <= root then ""
    else
      var i := LastSeparator(path);
      TrimTrailingSeparators(path[..if i < root then root else i], root)
  }
}
