/**
 * The two string operations the error classifier relies on: lower-casing
 * (`str.lower`) and the substring test (`needle in haystack`).
 */
module Text {

  /** Lower-cases one ASCII capital letter; every other character is unchanged. */
  function LowerChar(c: char): char
  {
    if 'A' <= c <= 'Z' then (c as int - 'A' as int + 'a' as int) as char else c
  }

  /** `s.lower()`, character by character. */
  function Lower(s: string): (r: string)
    ensures |r| == |s|
    ensures forall i :: 0 <= i < |s| ==> r[i] == LowerChar(s[i])
  {
    seq(|s|, i requires 0 <= i < |s| => LowerChar(s[i]))
  }

  /** `needle` occurs in `s` starting at index `i`. */
  predicate OccursAt(s: string, needle: string, i: nat)
  {
    i + |needle| <= |s| && s[i..i + |needle|] == needle
  }

  /** Some window of `s` starting at `i`, lower-cased, is `needle`. */
  predicate OccursAtIgnoringCase(s: string, needle: string, i: nat)
  {
    i + |needle| <= |s| && Lower(s[i..i + |needle|]) == needle
  }

  /** `needle in s`: scans the start positions from left to right. */
  function Contains(s: string, needle: string): (b: bool)
    ensures b <==> exists i: nat :: OccursAt(s, needle, i)
  {
    if |needle| > |s| then
      false
    else if s[..|needle|] == needle then
      assert OccursAt(s, needle, 0);
      true
    else
      OccursShift(s, needle);
      Contains(s[1..], needle)
  }

  /** An occurrence in `s` past index 0 is an occurrence in `s[1..]`, one place earlier. */
  lemma OccursShift(s: string, needle: string)
    requires |s| > 0
    ensures forall i: nat :: OccursAt(s[1..], needle, i) ==> OccursAt(s, needle, i + 1)
    ensures forall i: nat :: 0 < i && OccursAt(s, needle, i) ==> OccursAt(s[1..], needle, i - 1)
  {
  }

  /** Lower-casing commutes with taking a slice. */
  lemma LowerSlice(s: string, i: nat, j: nat)
    requires i <= j <= |s|
    ensures Lower(s)[i..j] == Lower(s[i..j])
  {
  }

  /** A string without capital letters is its own lower-case form. */
  lemma LowerOfLowerCase(s: string)
    requires forall i :: 0 <= i < |s| ==> !('A' <= s[i] <= 'Z')
    ensures Lower(s) == s
  {
  }

  /**
   * For a needle that is already lower case, the test `needle in s.lower()`
   * holds exactly when some window of `s`, lower-cased, is the needle: the
   * test ignores case in `s`.
   */
  lemma {:induction false} ContainsIgnoringCase(s: string, needle: string)
    requires Lower(needle) == needle
    ensures Contains(Lower(s), needle) <==> exists i: nat :: OccursAtIgnoringCase(s, needle, i)
  {
    if Contains(Lower(s), needle) {
      var i: nat :| OccursAt(Lower(s), needle, i);
      LowerSlice(s, i, i + |needle|);
      assert OccursAtIgnoringCase(s, needle, i);
    }
    if exists i: nat :: OccursAtIgnoringCase(s, needle, i) {
      var i: nat :| OccursAtIgnoringCase(s, needle, i);
      LowerSlice(s, i, i + |needle|);
      assert OccursAt(Lower(s), needle, i);
    }
  }

  /** An exact occurrence of `needle` survives lower-casing of both sides. */
  lemma ContainsSurvivesLower(s: string, needle: string)
    requires Contains(s, needle)
    ensures Contains(Lower(s), Lower(needle))
  {
    var i: nat :| OccursAt(s, needle, i);
    LowerSlice(s, i, i + |needle|);
    assert OccursAt(Lower(s), Lower(needle), i);
  }
}
