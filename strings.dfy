/** The string primitives of JavaScript that the components rely on. */
module Strings {

  /** `pat` occurs in `s` starting at index `i`. */
  ghost predicate OccursAt(s: string, pat: string, i: int) {
    0 <= i && i + |pat| <= |s| && s[i..i + |pat|] == pat
  }

  /** Reference definition of substring containment: some index starts an occurrence. */
  ghost predicate Occurs(s: string, pat: string) {
    exists i :: OccursAt(s, pat, i)
  }

  /** A slice of the tail of `s` is the slice of `s` one position further on. */
  lemma TailSlice(s: string, a: int, b: int)
    requires 0 <= a <= b && b + 1 <= |s|
    ensures s[1..][a..b] == s[a + 1..b + 1]
  {
    assert |s[1..][a..b]| == |s[a + 1..b + 1]|;
    forall k | 0 <= k < b - a ensures s[1..][a..b][k] == s[a + 1..b + 1][k] {
      assert s[1..][a..b][k] == s[1..][a + k] == s[a + 1 + k];
    }
  }

  /** When `pat` is not a prefix of `s`, it occurs in `s` exactly when it occurs in its tail. */
  lemma OccursInTail(s: string, pat: string)
    requires |pat| <= |s| && s[..|pat|] != pat
    ensures Occurs(s, pat) <==> Occurs(s[1..], pat)
  {
    if Occurs(s[1..], pat) {
      var i :| OccursAt(s[1..], pat, i);
      TailSlice(s, i, i + |pat|);
      assert OccursAt(s, pat, i + 1);
    }
    if Occurs(s, pat) {
      var i :| OccursAt(s, pat, i);
      assert s[0..|pat|] == s[..|pat|];
      assert i != 0;
      TailSlice(s, i - 1, i - 1 + |pat|);
      assert OccursAt(s[1..], pat, i - 1);
    }
  }

  /**
   * `String.prototype.includes`: compare `pat` against each position, from
   * the left. It holds exactly when `pat` occurs somewhere in `s`.
   */
  function Includes(s: string, pat: string): (b: bool)
    ensures b <==> Occurs(s, pat)
    decreases |s|
  {
    if |s| < |pat| then
      assert forall i :: !OccursAt(s, pat, i);
      false
    else if s[..|pat|] == pat then
      assert OccursAt(s, pat, 0);
      true
    else
      OccursInTail(s, pat);
      Includes(s[1..], pat)
  }

  predicate IsUpper(c: char) {
    'A' <= c <= 'Z'
  }

  /** `toLowerCase` on one character, for the ASCII letters. */
  function ToLowerChar(c: char): (d: char)
    ensures !IsUpper(d)
    ensures !IsUpper(c) ==> d == c
    ensures IsUpper(c) ==> 'a' <= d <= 'z' && d as int - c as int == 'a' as int - 'A' as int
  {
    if IsUpper(c) then (c as int - 'A' as int + 'a' as int) as char else c
  }

  /** `String.prototype.toLowerCase`, character by character. */
  function ToLower(s: string): (r: string)
    ensures |r| == |s|
    ensures forall i :: 0 <= i < |s| ==> r[i] == ToLowerChar(s[i])
  {
    seq(|s|, i requires 0 <= i < |s| => ToLowerChar(s[i]))
  }

  /** Lower-casing twice is lower-casing once, and the empty string stays empty. */
  lemma ToLowerIdempotent(s: string)
    ensures ToLower(ToLower(s)) == ToLower(s)
    ensures ToLower(s) == "" <==> s == ""
  {
  }
}
