/**
 * Case handling of Kotlin strings restricted to ASCII: `uppercase()`,
 * `equals(other, ignoreCase = true)` and `startsWith(prefix, ignoreCase = true)`.
 * Characters outside 'a'..'z' are left as they are by upper-casing.
 */
module AsciiText {
  import Utf16

  predicate IsLowerAscii(c: char) { 'a' <= c <= 'z' }

  function UpperChar(c: char): (r: char)
    ensures !IsLowerAscii(r)
    ensures IsLowerAscii(c) ==> r as int == c as int - 32
    ensures !IsLowerAscii(c) ==> r == c
  {
    if IsLowerAscii(c) then (c as int - 32) as char else c
  }

  /** `s.uppercase()`: the same string with every ASCII lower-case letter replaced by its capital. */
  function Upper(s: string): (r: string)
    ensures |r| == |s|
    ensures forall i :: 0 <= i < |s| ==> r[i] == UpperChar(s[i])
  {
    if s == [] then [] else [UpperChar(s[0])] + Upper(s[1..])
  }

  predicate IsUpperText(s: string) {
    forall i :: 0 <= i < |s| ==> !IsLowerAscii(s[i])
  }

  /** Characters equal once both are upper-cased (Kotlin's `Char.equals(other, ignoreCase = true)` on ASCII). */
  predicate CharEqualsIgnoreCase(a: char, b: char) {
    UpperChar(a) == UpperChar(b)
  }

  /** `a.equals(b, ignoreCase = true)`: same length, equal position by position up to case. */
  predicate EqualsIgnoreCase(a: string, b: string) {
    |a| == |b| && forall i :: 0 <= i < |a| ==> CharEqualsIgnoreCase(a[i], b[i])
  }

  /** `s.startsWith(prefix, ignoreCase = true)`. */
  predicate StartsWithIgnoreCase(s: string, prefix: string) {
    |prefix| <= |s| && EqualsIgnoreCase(s[..|prefix|], prefix)
  }

  lemma UpperIsUpperText(s: string)
    ensures IsUpperText(Upper(s))
  {
  }

  /** Upper-casing twice is upper-casing once, and upper-case text is its own upper case. */
  lemma UpperIdempotent(s: string)
    ensures Upper(Upper(s)) == Upper(s)
    ensures IsUpperText(s) ==> Upper(s) == s
  {
  }

  /** Comparing ignoring case is comparing the upper-cased strings. */
  lemma EqualsIgnoreCaseIsUpperEquality(a: string, b: string)
    ensures EqualsIgnoreCase(a, b) <==> Upper(a) == Upper(b)
  {
    if Upper(a) == Upper(b) {
      assert |a| == |Upper(a)| == |Upper(b)| == |b|;
      forall i | 0 <= i < |a| ensures CharEqualsIgnoreCase(a[i], b[i]) {
        assert Upper(a)[i] == Upper(b)[i];
      }
    }
  }

  /** Ignoring case is an equivalence. */
  lemma EqualsIgnoreCaseEquivalence(a: string, b: string, c: string)
    ensures EqualsIgnoreCase(a, a)
    ensures EqualsIgnoreCase(a, b) ==> EqualsIgnoreCase(b, a)
    ensures EqualsIgnoreCase(a, b) && EqualsIgnoreCase(b, c) ==> EqualsIgnoreCase(a, c)
  {
  }

  /** A string equals its own upper case ignoring case. */
  lemma UpperEqualsIgnoreCase(s: string)
    ensures EqualsIgnoreCase(Upper(s), s)
  {
  }

  /** Case-insensitive prefix tests do not see the case of the prefix. */
  lemma StartsWithUpper(s: string, prefix: string)
    ensures StartsWithIgnoreCase(s, Upper(prefix)) <==> StartsWithIgnoreCase(s, prefix)
  {
  }

  /** Upper-casing changes only ASCII letters, so Kotlin's length of the text is kept. */
  lemma {:induction false} UpperKeepsLength(s: string)
    ensures Utf16.Length(Upper(s)) == Utf16.Length(s)
    decreases |s|
  {
    if s != [] {
      UpperKeepsLength(s[1..]);
      assert Upper(s)[1..] == Upper(s[1..]);
    }
  }

  /** Every string starts with the empty string; a prefix as long as the string is an equality test. */
  lemma StartsWithEdges(s: string, prefix: string)
    ensures StartsWithIgnoreCase(s, [])
    ensures |prefix| == |s| ==> (StartsWithIgnoreCase(s, prefix) <==> EqualsIgnoreCase(s, prefix))
  {
    assert s[..|s|] == s;
  }
}
