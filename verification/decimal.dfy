/**
 * Decimal text of natural numbers: the `%d` and `%08d` conversions of
 * `sprintf`, used for the clean-up registry keys, and the reverse reading
 * used when an integer property is stored as text.
 */
module Decimal {

  predicate IsDigit(c: char) {
    '0' <= c <= '9'
  }

  predicate AllDigits(s: string) {
    forall i :: 0 <= i < |s| ==> IsDigit(s[i])
  }

  function DigitChar(d: nat): (c: char)
    requires d < 10
    ensures IsDigit(c)
  {
    (('0' as int) + d) as char
  }

  function DigitValue(c: char): (d: nat)
    requires IsDigit(c)
    ensures d < 10
  {
    (c as int) - ('0' as int)
  }

  function Pow10(k: nat): (r: nat)
    ensures r >= 1
  {
    if k == 0 then 1 else 10 * Pow10(k - 1)
  }

  /** The shortest decimal spelling of `n` (what `%d` prints for n >= 0). */
  function Digits(n: nat): (s: string)
    ensures 1 <= |s|
    ensures AllDigits(s)
    decreases n
  {
    if n < 10 then [DigitChar(n)] else Digits(n / 10) + [DigitChar(n % 10)]
  }

  /** The number a string of decimal digits denotes (most significant first). */
  function NumberOf(s: string): nat
    requires AllDigits(s)
    decreases |s|
  {
    if |s| == 0 then 0 else NumberOf(s[..|s| - 1]) * 10 + DigitValue(s[|s| - 1])
  }

  function Zeros(k: nat): (s: string)
    ensures |s| == k
    ensures AllDigits(s)
  {
    if k == 0 then "" else Zeros(k - 1) + "0"
  }

  /** `%0<width>d` of a non-negative number: zeros on the left up to `width`, never truncated. */
  function ZeroPad(n: nat, width: nat): (s: string)
    ensures AllDigits(s)
    ensures |s| == if |Digits(n)| >= width then |Digits(n)| else width
  {
    var d := Digits(n);
    if |d| >= width then d else Zeros(width - |d|) + d
  }

  /** `%d` of a signed integer. */
  function FormatInt(i: int): (s: string)
    ensures 1 <= |s|
  {
    if i < 0 then "-" + Digits(-i) else Digits(i)
  }

  /** The longest prefix of `s` made of digits. */
  function DigitPrefix(s: string): (p: string)
    ensures AllDigits(p)
    ensures |p| <= |s| && p == s[..|p|]
    ensures |p| < |s| ==> !IsDigit(s[|p|])
  {
    if |s| == 0 || !IsDigit(s[0]) then "" else [s[0]] + DigitPrefix(s[1..])
  }

  /** An `atoi`-style reading: an optional minus sign, then the leading digits; 0 when there are none. */
  function Atoi(s: string): int {
    if |s| > 0 && s[0] == '-' then 0 - NumberOf(DigitPrefix(s[1..])) else NumberOf(DigitPrefix(s))
  }

  lemma {:induction false} NumberOfDigits(n: nat)
    ensures NumberOf(Digits(n)) == n
    decreases n
  {
    if n >= 10 {
      var d := Digits(n / 10);
      var s := d + [DigitChar(n % 10)];
      assert s[..|s| - 1] == d;
      NumberOfDigits(n / 10);
    }
  }

  lemma {:induction false} NumberOfZeros(k: nat)
    ensures NumberOf(Zeros(k)) == 0
  {
    if k > 0 {
      assert Zeros(k)[..k - 1] == Zeros(k - 1);
      NumberOfZeros(k - 1);
    }
  }

  /** Leading zeros do not change the number a digit string denotes. */
  lemma {:induction false} LeadingZeros(k: nat, s: string)
    requires AllDigits(s)
    ensures AllDigits(Zeros(k) + s)
    ensures NumberOf(Zeros(k) + s) == NumberOf(s)
    decreases |s|
  {
    var z := Zeros(k);
    if |s| == 0 {
      assert z + s == z;
      NumberOfZeros(k);
    } else {
      var t := z + s;
      var init := s[..|s| - 1];
      assert t[..|t| - 1] == z + init;
      assert t[|t| - 1] == s[|s| - 1];
      LeadingZeros(k, init);
    }
  }

  /** Reading back a zero-padded number gives the number: the padding loses nothing. */
  lemma ZeroPadRoundTrip(n: nat, width: nat)
    ensures NumberOf(ZeroPad(n, width)) == n
  {
    var d := Digits(n);
    NumberOfDigits(n);
    if |d| < width {
      LeadingZeros(width - |d|, d);
    }
  }

  /** Distinct numbers never share a zero-padded spelling. */
  lemma ZeroPadInjective(a: nat, b: nat, width: nat)
    requires ZeroPad(a, width) == ZeroPad(b, width)
    ensures a == b
  {
    ZeroPadRoundTrip(a, width);
    ZeroPadRoundTrip(b, width);
  }

  /** A number below 10^k needs at most k digits. */
  lemma {:induction false} DigitsLength(n: nat, k: nat)
    requires 1 <= k && n < Pow10(k)
    ensures |Digits(n)| <= k
    decreases n
  {
    if n >= 10 {
      assert k >= 2;
      DigitsLength(n / 10, k - 1);
    }
  }

  /** Padding to `width` gives exactly `width` characters for a number below 10^width. */
  lemma PadWidth(n: nat, width: nat)
    ensures 1 <= width && n < Pow10(width) ==> |ZeroPad(n, width)| == width
  {
    if 1 <= width && n < Pow10(width) {
      DigitsLength(n, width);
    }
  }
}
