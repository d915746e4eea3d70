/** Substring facts used to state what the file-name tests and templates match. */
module Strings {

  predicate EndsWith(s: string, suffix: string) {
    |suffix| <= |s| && s[|s| - |suffix|..] == suffix
  }

  /** `t` occurs in `s` starting at index `i`. */
  predicate OccursAt(s: string, t: string, i: int) {
    0 <= i <= |s| - |t| && s[i..i + |t|] == t
  }

  predicate Contains(s: string, t: string) {
    exists i | 0 <= i <= |s| - |t| :: OccursAt(s, t, i)
  }

  /** A file name ends in at most one dot-free extension: two extensions that
      both end the name after a dot are the same extension. */
  lemma {:induction false} DottedSuffixUnique(name: string, e1: string, e2: string)
    requires '.' !in e1 && '.' !in e2
    requires EndsWith(name, "." + e1) && EndsWith(name, "." + e2)
    ensures e1 == e2
  {
    if |e1| == |e2| {
      assert "." + e1 == "." + e2;
      assert e1 == ("." + e1)[1..];
    } else if |e1| < |e2| {
      DotInsideLongerSuffix(name, e1, e2);
    } else {
      DotInsideLongerSuffix(name, e2, e1);
    }
  }

  lemma DotInsideLongerSuffix(name: string, short: string, long: string)
    requires |short| < |long|
    requires EndsWith(name, "." + short) && EndsWith(name, "." + long)
    ensures '.' in long
  {
    var k := |name| - |short| - 1;
    assert name[k] == ("." + short)[0] == '.';
    var d := |long| - |short| - 1;
    assert name[k] == ("." + long)[d + 1] == long[d];
  }

  /** A string cannot contain a text that has a character the string lacks. */
  lemma MissingCharExcludes(s: string, t: string, c: char)
    requires c in t && c !in s
    ensures !Contains(s, t)
  {
  }

  /** A text placed between two others is contained in the result. */
  lemma ContainsBetween(a: string, t: string, b: string)
    ensures Contains(a + t + b, t)
  {
    assert (a + t + b)[|a|..|a| + |t|] == t;
    assert OccursAt(a + t + b, t, |a|);
  }

  /** A text found at a known position is contained. */
  lemma ContainsAt(s: string, t: string, i: nat)
    requires i + |t| <= |s| && s[i..i + |t|] == t
    ensures Contains(s, t)
  {
    assert OccursAt(s, t, i);
  }
}
