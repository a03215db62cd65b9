/**
 * The string operations the calendar sync relies on, with JavaScript's semantics:
 * `indexOf`, `lastIndexOf` (which answers -1 when the pattern is absent), the
 * capture of a regular expression `key=([^&]*)`, `Array.prototype.join(' ')`, and
 * the truthiness test the source applies to nullable strings.
 */
module Text {
  import opened Wrappers

  /** A nullable string is truthy in JavaScript when it is present and not empty. */
  predicate Truthy(s: Option<string>) {
    s.Some? && s.value != ""
  }

  /** `p` occurs in `s` starting at index `i`. */
  predicate OccursAt(s: string, p: string, i: int) {
    0 <= i && i + |p| <= |s| && s[i..i + |p|] == p
  }

  /** The first index at or after `k` where `p` occurs in `s`. */
  function FirstIndexFrom(s: string, p: string, k: nat): (r: Option<nat>)
    ensures r.Some? ==> k <= r.value && OccursAt(s, p, r.value)
    ensures r.Some? ==> forall j :: k <= j < r.value ==> !OccursAt(s, p, j)
    ensures r.None? ==> forall j :: k <= j ==> !OccursAt(s, p, j)
    decreases |s| - k
  {
    if k + |p| > |s| then None
    else if OccursAt(s, p, k) then Some(k)
    else FirstIndexFrom(s, p, k + 1)
  }

  /** `s.indexOf(p)`, with `None` for -1. */
  function FirstIndexOf(s: string, p: string): (r: Option<nat>)
    ensures r.Some? ==> OccursAt(s, p, r.value)
    ensures r.Some? ==> forall j :: 0 <= j < r.value ==> !OccursAt(s, p, j)
    ensures r.None? ==> forall j :: !OccursAt(s, p, j)
  {
    FirstIndexFrom(s, p, 0)
  }

  /** The last index at or before `k` where `p` occurs in `s`, or -1. */
  function LastIndexAtOrBefore(s: string, p: string, k: int): (r: int)
    ensures -1 <= r <= k || (k < 0 && r == -1)
    ensures r >= 0 ==> OccursAt(s, p, r)
    ensures r >= 0 ==> forall j :: r < j <= k ==> !OccursAt(s, p, j)
    ensures r == -1 ==> forall j :: j <= k ==> !OccursAt(s, p, j)
    decreases k + 1
  {
    if k < 0 then -1
    else if OccursAt(s, p, k) then k
    else LastIndexAtOrBefore(s, p, k - 1)
  }

  /** `s.lastIndexOf(p)`: the greatest index where `p` occurs, or -1 when it does not occur. */
  function LastIndexOf(s: string, p: string): (r: int)
    ensures -1 <= r <= |s|
    ensures r >= 0 ==> OccursAt(s, p, r) && forall j :: r < j ==> !OccursAt(s, p, j)
    ensures r == -1 <==> forall j :: !OccursAt(s, p, j)
  {
    LastIndexAtOrBefore(s, p, |s| - |p|)
  }

  /** `s.slice(k)` for a non-negative start: the suffix from `k`, empty past the end. */
  function Slice(s: string, k: nat): (r: string)
    ensures |r| == if k < |s| then |s| - k else 0
    ensures k <= |s| ==> s == s[..k] + r
  {
    if k < |s| then s[k..] else ""
  }

  /** The longest prefix of `s` free of `c`: what the regular expression `[^c]*` captures. */
  function TakeUntil(s: string, c: char): (r: string)
    ensures r <= s && c !in r
    ensures |r| == |s| || s[|r|] == c
  {
    if s == [] || s[0] == c then ""
    else [s[0]] + TakeUntil(s[1..], c)
  }

  lemma TakeUntilStopsAtSeparator(a: string, c: char, b: string)
    requires c !in a
    ensures TakeUntil(a + [c] + b, c) == a
  {
    var s := a + [c] + b;
    var r := TakeUntil(s, c);
    assert s[|a|] == c;
    assert forall i :: 0 <= i < |a| ==> s[i] == a[i] && a[i] in a;
    assert r == s[..|r|] == a;
  }

  /** `xs.join(' ')`. */
  function JoinWithSpaces(xs: seq<string>): (r: string)
    ensures |xs| >= 1 ==> xs[0] <= r
    ensures |xs| >= 2 ==> |xs[0]| < |r| && r[|xs[0]|] == ' '
  {
    if |xs| == 0 then ""
    else if |xs| == 1 then xs[0]
    else xs[0] + " " + JoinWithSpaces(xs[1..])
  }

  /**
   * Splitting at every space: how a reader of a space-delimited list (such as the
   * OAuth `scope` parameter, section 3.3 of RFC 6749) recovers its elements.
   */
  function SplitOnSpaces(s: string): (r: seq<string>)
    ensures |r| >= 1
    decreases |s|
  {
    var w := TakeUntil(s, ' ');
    if |w| == |s| then [s] else [w] + SplitOnSpaces(s[|w| + 1..])
  }

  /** Joining non-empty lists of space-free words with single spaces loses nothing. */
  lemma {:induction false} SplitJoinRoundTrip(xs: seq<string>)
    requires |xs| >= 1
    requires forall i :: 0 <= i < |xs| ==> ' ' !in xs[i]
    ensures SplitOnSpaces(JoinWithSpaces(xs)) == xs
  {
    if |xs| == 1 {
      assert TakeUntil(xs[0], ' ') == xs[0];
    } else {
      var rest := JoinWithSpaces(xs[1..]);
      var s := xs[0] + " " + rest;
      TakeUntilStopsAtSeparator(xs[0], ' ', rest);
      assert s == xs[0] + [' '] + rest;
      assert s[|xs[0]| + 1..] == rest;
      SplitJoinRoundTrip(xs[1..]);
      assert xs == [xs[0]] + xs[1..];
    }
  }
}
