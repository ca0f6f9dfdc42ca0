/**
 * The few string operations the dashboard relies on: the relational `<` that
 * `sortProjects`/`sortTasks` apply to field values, `String.prototype.endsWith`,
 * `toLowerCase` and `includes`.
 */
module Text {

  /** JavaScript `a < b` on two strings: lexicographic by character, a proper prefix first. */
  predicate StrLess(a: string, b: string)
    decreases |a|
  {
    if a == [] then b != []
    else if b == [] then false
    else if a[0] != b[0] then a[0] < b[0]
    else StrLess(a[1..], b[1..])
  }

  lemma {:induction false} StrLessIrreflexive(a: string)
    ensures !StrLess(a, a)
    decreases |a|
  {
    if a != [] {
      StrLessIrreflexive(a[1..]);
    }
  }

  lemma {:induction false} StrLessTransitive(a: string, b: string, c: string)
    requires StrLess(a, b) && StrLess(b, c)
    ensures StrLess(a, c)
    decreases |a|
  {
    if a != [] && a[0] == b[0] && b[0] == c[0] {
      StrLessTransitive(a[1..], b[1..], c[1..]);
    }
  }

  /** Two different strings are always ordered one way or the other, so the comparator's
      "else 0" branch is reached exactly when the two keys are equal. */
  lemma {:induction false} StrLessTotal(a: string, b: string)
    requires a != b
    ensures StrLess(a, b) || StrLess(b, a)
    decreases |a|
  {
    if a != [] && b != [] && a[0] == b[0] {
      assert a == [a[0]] + a[1..] && b == [b[0]] + b[1..];
      StrLessTotal(a[1..], b[1..]);
    }
  }

  /** `s.endsWith(suffix)`. */
  predicate EndsWith(s: string, suffix: string) {
    |suffix| <= |s| && s[|s| - |suffix|..] == suffix
  }

  /** `s.includes(sub)`. */
  predicate Includes(s: string, sub: string)
    decreases |s|
  {
    sub <= s || (s != [] && Includes(s[1..], sub))
  }

  function LowerChar(c: char): char {
    if 'A' <= c <= 'Z' then (c as int + 32) as char else c
  }

  /** `s.toLowerCase()` restricted to the ASCII letters. */
  function ToLower(s: string): (r: string)
    ensures |r| == |s|
    ensures forall i :: 0 <= i < |s| ==> r[i] == LowerChar(s[i])
  {
    seq(|s|, i requires 0 <= i < |s| => LowerChar(s[i]))
  }

  /** A suffix that is already lower case survives lowering: every string that passes the
      case-sensitive check also passes the lowered one. */
  lemma SuffixSurvivesLowering(s: string, suffix: string)
    requires ToLower(suffix) == suffix
    requires EndsWith(s, suffix)
    ensures EndsWith(ToLower(s), suffix)
  {
    var n := |s| - |suffix|;
    forall i | 0 <= i < |suffix|
      ensures ToLower(s)[n + i] == suffix[i]
    {
      assert s[n + i] == suffix[i];
      assert ToLower(suffix)[i] == LowerChar(suffix[i]);
    }
  }
}
