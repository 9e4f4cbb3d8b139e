/**
 * Kotlin's `String.length`, which counts UTF-16 code units: a character
 * outside the Basic Multilingual Plane (code point 0x10000 or above) is a
 * surrogate pair and counts twice. A Dafny `string` is a sequence of Unicode
 * scalar values, so `|s|` and the Kotlin length differ for such text.
 */
module Utf16 {

  /** The first code point that UTF-16 encodes as a surrogate pair. */
  const FirstSupplementary: int := 0x1_0000

  /** The number of UTF-16 code units that encode `c`. */
  function CodeUnits(c: char): nat {
    if c as int >= FirstSupplementary then 2 else 1
  }

  /** Kotlin's `s.length`. */
  function Length(s: string): nat
    decreases |s|
  {
    if s == [] then 0 else CodeUnits(s[0]) + Length(s[1..])
  }

  /** Every character of `s` lies in the Basic Multilingual Plane. */
  predicate IsBmp(s: string) {
    forall i :: 0 <= i < |s| ==> s[i] as int < FirstSupplementary
  }

  /**
   * Each character counts once or twice, and the Kotlin length is the number
   * of characters exactly when no character needs a surrogate pair.
   */
  lemma {:induction false} LengthBounds(s: string)
    ensures |s| <= Length(s) <= 2 * |s|
    ensures Length(s) == |s| <==> IsBmp(s)
    ensures Length(s) == 0 <==> s == []
    decreases |s|
  {
    if s != [] {
      LengthBounds(s[1..]);
      if IsBmp(s[1..]) && s[0] as int < FirstSupplementary {
        forall i | 0 <= i < |s| ensures s[i] as int < FirstSupplementary {
          if i > 0 {
            assert s[i] == s[1..][i - 1];
          }
        }
      }
      if IsBmp(s) {
        forall i | 0 <= i < |s[1..]| ensures s[1..][i] as int < FirstSupplementary {
          assert s[1..][i] == s[i + 1];
        }
      }
    }
  }

  /** The length of a concatenation is the sum of the lengths. */
  lemma {:induction false} LengthAppend(a: string, b: string)
    ensures Length(a + b) == Length(a) + Length(b)
    decreases |a|
  {
    if a == [] {
      assert a + b == b;
    } else {
      LengthAppend(a[1..], b);
      assert (a + b)[1..] == a[1..] + b;
    }
  }

  /** A plain code counts its letters; "A" followed by an emoji is three code units long. */
  lemma LengthExample()
    ensures Length("JFK") == 3 && Length("J") == 1 && Length("") == 0
    ensures Length("A\U{1F600}") == 3 && |"A\U{1F600}"| == 2
  {
    assert "JFK"[1..] == "FK" && "FK"[1..] == "K" && "K"[1..] == "";
    assert "A\U{1F600}"[1..] == "\U{1F600}" && "\U{1F600}"[1..] == "";
  }
}
