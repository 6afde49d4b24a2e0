/** Small shared vocabulary: optional values, bytes, and the three string
    tests the portal's decisions are phrased in (prefix, suffix, substring). */
module Basics {

  /** A value that may be absent, standing for a C pointer that may be NULL. */
  datatype Option<+T> = None | Some(value: T)

  newtype byte = x: int | 0 <= x < 256

  /** `p` is a prefix of `s`. */
  predicate IsPrefix(p: string, s: string) {
    |p| <= |s| && s[..|p|] == p
  }

  /** `x` is a suffix of `s`. */
  predicate IsSuffix(x: string, s: string) {
    |x| <= |s| && s[|s| - |x|..] == x
  }

  /** `needle` occurs in `s` at position `i`. */
  predicate OccursAt(s: string, needle: string, i: int) {
    0 <= i && i + |needle| <= |s| && s[i..i + |needle|] == needle
  }

  /** `needle` occurs somewhere in `s`; the scan from the left mirrors
      `strstr`, which also finds the empty needle in every string. */
  predicate Contains(s: string, needle: string)
    decreases |s|
  {
    IsPrefix(needle, s) || (|s| > 0 && Contains(s[1..], needle))
  }

  /** An occurrence at any position is found by the scan. */
  lemma {:induction false} OccursThenContains(s: string, needle: string, i: int)
    requires OccursAt(s, needle, i)
    ensures Contains(s, needle)
    decreases i
  {
    if i == 0 {
      assert IsPrefix(needle, s);
    } else {
      assert s[1..][i - 1..i - 1 + |needle|] == s[i..i + |needle|];
      OccursThenContains(s[1..], needle, i - 1);
    }
  }

  /** What the scan finds occurs at some position. */
  lemma {:induction false} ContainsThenOccurs(s: string, needle: string)
    requires Contains(s, needle)
    ensures exists i :: OccursAt(s, needle, i)
    decreases |s|
  {
    if IsPrefix(needle, s) {
      assert OccursAt(s, needle, 0);
    } else {
      ContainsThenOccurs(s[1..], needle);
      var i :| OccursAt(s[1..], needle, i);
      assert s[1..][i..i + |needle|] == s[i + 1..i + 1 + |needle|];
      assert OccursAt(s, needle, i + 1);
    }
  }

  /** The scan finds the needle exactly when it occurs at some position. */
  lemma ContainsIffOccurs(s: string, needle: string)
    ensures Contains(s, needle) <==> exists i :: OccursAt(s, needle, i)
  {
    if Contains(s, needle) {
      ContainsThenOccurs(s, needle);
    }
    if i :| OccursAt(s, needle, i) {
      OccursThenContains(s, needle, i);
    }
  }

  /** Whatever surrounds a string, the string is still found inside. */
  lemma ContainsInfix(before: string, needle: string, after: string)
    ensures Contains(before + needle + after, needle)
  {
    var s := before + needle + after;
    assert s[|before|..|before| + |needle|] == needle;
    assert OccursAt(s, needle, |before|);
    ContainsIffOccurs(s, needle);
  }

  /** A needle longer than the haystack is never found. */
  lemma LongerNeedleAbsent(s: string, needle: string)
    requires |needle| > |s|
    ensures !Contains(s, needle)
  {
    ContainsIffOccurs(s, needle);
  }

  /** Every string contains itself. */
  lemma ContainsSelf(s: string)
    ensures Contains(s, s)
  {
    assert IsPrefix(s, s);
  }

  /** A suffix fixes the characters at the end of the string. */
  lemma SuffixChar(x: string, s: string, i: int)
    requires IsSuffix(x, s) && 0 <= i < |x|
    ensures s[|s| - |x| + i] == x[i]
  {
    assert s[|s| - |x|..][i] == s[|s| - |x| + i];
  }

  /** A suffix of a suffix is a suffix. */
  lemma SuffixOfSuffix(a: string, b: string, s: string)
    requires IsSuffix(a, b) && IsSuffix(b, s)
    ensures IsSuffix(a, s)
  {
    assert s[|s| - |a|..] == s[|s| - |b|..][|b| - |a|..];
  }
}
