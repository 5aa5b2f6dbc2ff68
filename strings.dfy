/**
 * Case-insensitive string comparison as the engine performs it: `FCString::Stricmp`
 * and `FName` equality both fold ASCII upper case to lower case before comparing.
 */
module Strings {

  /** Lower-case image of an ASCII letter; every other character is its own image. */
  function LowerAscii(c: char): (r: char)
    ensures 'A' <= c <= 'Z' ==> 'a' <= r <= 'z'
    ensures !('A' <= c <= 'Z') ==> r == c
  {
    if 'A' <= c <= 'Z' then (c as int + 32) as char else c
  }

  function ToLowerAscii(s: string): (r: string)
    ensures |r| == |s|
    ensures forall i :: 0 <= i < |s| ==> r[i] == LowerAscii(s[i])
  {
    seq(|s|, i requires 0 <= i < |s| => LowerAscii(s[i]))
  }

  /** `FCString::Stricmp(a, b) == 0`. */
  predicate EqualsIgnoreCase(a: string, b: string)
  {
    ToLowerAscii(a) == ToLowerAscii(b)
  }

  /** Case folding never makes a wildcard out of anything but the wildcard itself. */
  lemma WildcardMatchesOnlyItself(a: string)
    ensures EqualsIgnoreCase(a, "*") <==> a == "*"
  {
    if EqualsIgnoreCase(a, "*") {
      assert |a| == 1;
      assert LowerAscii(a[0]) == ToLowerAscii("*")[0] == '*';
      assert a == [a[0]];
    }
  }

  /** The comparison is an equivalence, so "the extension matches" does not depend on argument order. */
  lemma EqualsIgnoreCaseIsEquivalence(a: string, b: string, c: string)
    ensures EqualsIgnoreCase(a, a)
    ensures EqualsIgnoreCase(a, b) ==> EqualsIgnoreCase(b, a)
    ensures EqualsIgnoreCase(a, b) && EqualsIgnoreCase(b, c) ==> EqualsIgnoreCase(a, c)
  {
  }

  /** Strings that differ only in the case of ASCII letters compare equal. */
  lemma CaseVariantsAreEqual(a: string, b: string)
    requires |a| == |b|
    requires forall i :: 0 <= i < |a| ==> LowerAscii(a[i]) == LowerAscii(b[i])
    ensures EqualsIgnoreCase(a, b)
  {
  }

}
