/**
 * The placeholder time of the details screen: `randomTime()` in
 * FlightSearchScreen.kt renders an hour and a minute with `Int.toString()`,
 * pads each to two characters with `padStart(2, '0')` and joins them with ':'.
 * The random choice itself is made by the caller: the hour and minute are parameters.
 */
module ClockTime {

  predicate IsDigit(c: char) { '0' <= c <= '9' }

  function DigitChar(d: nat): (c: char)
    requires d < 10
    ensures IsDigit(c) && DigitValue(c) == d
  {
    (48 + d) as char
  }

  function DigitValue(c: char): (d: nat)
    requires IsDigit(c)
    ensures d < 10
  {
    c as int - 48
  }

  /** `n.toString()` for a non-negative `Int`: its decimal digits, most significant first. */
  function NatToString(n: nat): string
    decreases n
  {
    if n < 10 then [DigitChar(n)] else NatToString(n / 10) + [DigitChar(n % 10)]
  }

  /** The number a string of decimal digits denotes, most significant digit first. */
  function DecimalValue(s: string): nat
    requires forall i :: 0 <= i < |s| ==> IsDigit(s[i])
    decreases |s|
  {
    if s == [] then 0 else DecimalValue(s[..|s| - 1]) * 10 + DigitValue(s[|s| - 1])
  }

  /** The rendering is non-empty decimal digits with no leading zero, and they denote `n`. */
  lemma {:induction false} NatToStringDigits(n: nat)
    ensures |NatToString(n)| >= 1
    ensures forall i :: 0 <= i < |NatToString(n)| ==> IsDigit(NatToString(n)[i])
    ensures |NatToString(n)| > 1 ==> NatToString(n)[0] != '0'
    ensures DecimalValue(NatToString(n)) == n
    decreases n
  {
    if n >= 10 {
      NatToStringDigits(n / 10);
      var s := NatToString(n);
      assert s[..|s| - 1] == NatToString(n / 10);
    } else {
      assert NatToString(n)[..0] == [];
    }
  }

  /**
   * `s.padStart(length, pad)` on text of the Basic Multilingual Plane, such as
   * the digit strings `randomTime` pads: `s` itself when long enough,
   * otherwise `s` behind enough copies of `pad`. Lengths are counted in
   * characters, which for such text equal Kotlin's UTF-16 lengths.
   */
  function PadStart(s: string, length: nat, pad: char): string
    decreases length - |s|
  {
    if |s| >= length then s else PadStart([pad] + s, length, pad)
  }

  /** Padding reaches the target length, keeps the text at the end, and puts only pad characters before it. */
  lemma {:induction false} PadStartShape(s: string, length: nat, pad: char)
    ensures var r := PadStart(s, length, pad);
      && |r| == (if |s| >= length then |s| else length)
      && r[|r| - |s|..] == s
      && forall i :: 0 <= i < |r| - |s| ==> r[i] == pad
    decreases length - |s|
  {
    if |s| < length {
      PadStartShape([pad] + s, length, pad);
      var r := PadStart(s, length, pad);
      assert r[|r| - |s| - 1..] == [pad] + s;
      assert r[|r| - |s|..] == ([pad] + s)[1..];
    }
  }

  /** A well-formed 24-hour `HH:MM` text: five characters, two digits, a colon, two digits, in range. */
  predicate IsClockTime(t: string) {
    && |t| == 5
    && IsDigit(t[0]) && IsDigit(t[1]) && t[2] == ':' && IsDigit(t[3]) && IsDigit(t[4])
    && DigitValue(t[0]) * 10 + DigitValue(t[1]) <= 23
    && DigitValue(t[3]) * 10 + DigitValue(t[4]) <= 59
  }

  /** The hour of a well-formed `HH:MM` text. */
  function ClockHour(t: string): (h: nat)
    requires IsClockTime(t)
    ensures h <= 23
  {
    DigitValue(t[0]) * 10 + DigitValue(t[1])
  }

  /** The minute of a well-formed `HH:MM` text. */
  function ClockMinute(t: string): (m: nat)
    requires IsClockTime(t)
    ensures m <= 59
  {
    DigitValue(t[3]) * 10 + DigitValue(t[4])
  }

  /** Two-character zero-padded rendering of a number below 100, as `randomTime` builds each half. */
  function TwoDigits(n: nat): string
    requires n < 100
  {
    PadStart(NatToString(n), 2, '0')
  }

  /** Zero-padding a number below 100 gives its tens digit, then its units digit. */
  lemma {:induction false} TwoDigitsSpelling(n: nat)
    requires n < 100
    ensures TwoDigits(n) == [DigitChar(n / 10), DigitChar(n % 10)]
  {
    if n < 10 {
      assert NatToString(n) == [DigitChar(n)];
      assert PadStart([DigitChar(n)], 2, '0') == PadStart(['0', DigitChar(n)], 2, '0');
      assert n / 10 == 0 && n % 10 == n;
    } else {
      assert NatToString(n / 10) == [DigitChar(n / 10)];
      assert NatToString(n) == [DigitChar(n / 10), DigitChar(n % 10)];
    }
  }

  lemma DigitCharValue(c: char)
    requires IsDigit(c)
    ensures DigitChar(DigitValue(c)) == c
  {
  }

  /** A number below 100 is spelled back by its tens and units digits. */
  lemma DigitPair(a: nat, b: nat)
    requires a < 10 && b < 10
    ensures (a * 10 + b) / 10 == a && (a * 10 + b) % 10 == b
  {
  }

  /** `randomTime()` once the hour and minute have been drawn. */
  function RandomTime(h: nat, m: nat): string
    requires h <= 23 && m <= 59
  {
    TwoDigits(h) + ":" + TwoDigits(m)
  }

  /** The five characters of a drawn time. */
  lemma RandomTimeSpelling(h: nat, m: nat)
    requires h <= 23 && m <= 59
    ensures RandomTime(h, m) == [DigitChar(h / 10), DigitChar(h % 10), ':', DigitChar(m / 10), DigitChar(m % 10)]
  {
    TwoDigitsSpelling(h);
    TwoDigitsSpelling(m);
  }

  /** A drawn time is a well-formed `HH:MM` text that reads back as the hour and minute drawn. */
  lemma RandomTimeIsClockTime(h: nat, m: nat)
    requires h <= 23 && m <= 59
    ensures IsClockTime(RandomTime(h, m))
    ensures ClockHour(RandomTime(h, m)) == h && ClockMinute(RandomTime(h, m)) == m
  {
    RandomTimeSpelling(h, m);
  }

  /** Different draws give different texts. */
  lemma RandomTimeInjective(h1: nat, m1: nat, h2: nat, m2: nat)
    requires h1 <= 23 && m1 <= 59 && h2 <= 23 && m2 <= 59
    requires RandomTime(h1, m1) == RandomTime(h2, m2)
    ensures h1 == h2 && m1 == m2
  {
    RandomTimeIsClockTime(h1, m1);
    RandomTimeIsClockTime(h2, m2);
  }

  /** Every well-formed `HH:MM` text is produced by some draw: its own hour and minute. */
  lemma {:induction false} EveryClockTimeIsRandomTime(t: string)
    requires IsClockTime(t)
    ensures RandomTime(ClockHour(t), ClockMinute(t)) == t
  {
    var h, m := ClockHour(t), ClockMinute(t);
    var h1, h0, m1, m0 := DigitValue(t[0]), DigitValue(t[1]), DigitValue(t[3]), DigitValue(t[4]);
    assert h == h1 * 10 + h0 && m == m1 * 10 + m0;
    DigitPair(h1, h0);
    DigitPair(m1, m0);
    DigitCharValue(t[0]);
    DigitCharValue(t[1]);
    DigitCharValue(t[3]);
    DigitCharValue(t[4]);
    RandomTimeSpelling(h, m);
    assert t == [t[0], t[1], t[2], t[3], t[4]];
  }
}
