/**
 * Characters and decimal numerals as the shift-time parser sees them.
 * Strings are byte strings: every `char` stands for one byte of the input.
 */
module Text {

  /** The regex class of a decimal digit. */
  predicate IsDigit(c: char) {
    '0' <= c <= '9'
  }

  /** The regex class of whitespace without Unicode support: space, tab,
      line feed, vertical tab, form feed and carriage return. */
  predicate IsSpace(c: char) {
    c == ' ' || '\t' <= c <= '\r'
  }

  predicate AllDigits(s: string) {
    forall i :: 0 <= i < |s| ==> IsDigit(s[i])
  }

  predicate NoDigits(s: string) {
    forall i :: 0 <= i < |s| ==> !IsDigit(s[i])
  }

  function DigitValue(c: char): (v: nat)
    requires IsDigit(c)
    ensures v <= 9
  {
    c as int - '0' as int
  }

  function DigitChar(v: nat): (c: char)
    requires v <= 9
    ensures IsDigit(c) && DigitValue(c) == v
  {
    ('0' as int + v) as char
  }

  function Pow10(k: nat): (p: nat)
    ensures p >= 1
  {
    if k == 0 then 1 else 10 * Pow10(k - 1)
  }

  /** The number a string of decimal digits denotes (zero for the empty string). */
  function Value(s: string): nat
    requires AllDigits(s)
  {
    if s == [] then 0 else 10 * Value(s[..|s| - 1]) + DigitValue(s[|s| - 1])
  }

  /** A numeral of k digits denotes a number below 10^k. */
  lemma {:induction false} ValueBound(s: string)
    requires AllDigits(s)
    ensures Value(s) < Pow10(|s|)
  {
    if s != [] {
      ValueBound(s[..|s| - 1]);
    }
  }

  /** A leading zero does not change the number a numeral denotes. */
  lemma {:induction false} ValueLeadingZero(s: string)
    requires AllDigits(s)
    ensures AllDigits(['0'] + s) && Value(['0'] + s) == Value(s)
  {
    var z := ['0'] + s;
    if s != [] {
      assert z[..|z| - 1] == ['0'] + s[..|s| - 1];
      ValueLeadingZero(s[..|s| - 1]);
    }
  }

  /** The shortest numeral of n: no leading zero, and "0" for zero. */
  function Digits(n: nat): (s: string)
    ensures 1 <= |s| && AllDigits(s) && Value(s) == n
    ensures |s| == 1 || s[0] != '0'
    decreases n
  {
    if n < 10 then [DigitChar(n)]
    else
      var s := Digits(n / 10) + [DigitChar(n % 10)];
      assert s[..|s| - 1] == Digits(n / 10);
      s
  }

  /** A number below 10^k has at most k digits. */
  lemma {:induction false} DigitsFit(n: nat, k: nat)
    requires 1 <= k && n < Pow10(k)
    ensures |Digits(n)| <= k
    decreases k
  {
    if n >= 10 {
      assert Pow10(1) == 10;
      DigitsFit(n / 10, k - 1);
    }
  }

  /** n in decimal, left-padded with zeros to at least `width` characters:
      the `%0Nd` conversion of printf for a non-negative n. */
  function Pad(n: nat, width: nat): (s: string)
    ensures AllDigits(s) && Value(s) == n
    ensures |s| == if width <= |Digits(n)| then |Digits(n)| else width
    decreases width
  {
    if width <= |Digits(n)| then Digits(n)
    else
      ValueLeadingZero(Pad(n, width - 1));
      ['0'] + Pad(n, width - 1)
  }

  /** A number below 10^k padded to k characters takes exactly k characters. */
  lemma PadExact(n: nat, k: nat)
    requires 1 <= k && n < Pow10(k)
    ensures |Pad(n, k)| == k
  {
    DigitsFit(n, k);
  }

  /** Two-character padding of a two-digit numeral gives the numeral back. */
  lemma PadTwoDigits(s: string)
    requires |s| == 2 && AllDigits(s)
    ensures Pad(Value(s), 2) == s
  {
    var n := Value(s);
    assert s[..1] == [s[0]];
    assert Value(s[..1]) == DigitValue(s[0]);
    assert n == 10 * DigitValue(s[0]) + DigitValue(s[1]);
    assert DigitChar(DigitValue(s[0])) == s[0];
    assert DigitChar(DigitValue(s[1])) == s[1];
    if n >= 10 {
      assert Digits(n) == Digits(n / 10) + [DigitChar(n % 10)];
      assert Digits(n / 10) == [DigitChar(n / 10)];
    } else {
      assert s[0] == '0';
      assert Pad(n, 1) == Digits(n) == [DigitChar(n)];
    }
  }

  /** The length of the run of digits at the front of s. */
  function LeadingDigits(s: string): (n: nat)
    ensures n <= |s| && AllDigits(s[..n])
    ensures n < |s| ==> !IsDigit(s[n])
  {
    if s == [] || !IsDigit(s[0]) then 0
    else
      var n := 1 + LeadingDigits(s[1..]);
      assert forall i :: 1 <= i < n ==> s[..n][i] == s[1..][..n - 1][i - 1];
      n
  }

  /** The integer PHP reads from a string of digits and colons when it is
      used as a number: the value of its leading digits, zero when there are
      none (`"9:"` reads as 9, `":3"` as 0). */
  function LeadingInt(s: string): (v: nat)
    ensures forall k :: 0 <= k <= |s| && AllDigits(s[..k]) && (k < |s| ==> !IsDigit(s[k])) ==> v == Value(s[..k])
    ensures AllDigits(s) ==> v == Value(s)
    ensures s != [] && !IsDigit(s[0]) ==> v == 0
    ensures |s| == 2 && IsDigit(s[0]) && !IsDigit(s[1]) ==> v == DigitValue(s[0])
  {
    var n := LeadingDigits(s);
    assert AllDigits(s) ==> s[..n] == s;
    forall k | 0 <= k <= |s| && AllDigits(s[..k]) && (k < |s| ==> !IsDigit(s[k]))
      ensures k == n
    {
      DigitRunUnique(s, k, n);
    }
    assert |s| == 2 && IsDigit(s[0]) && !IsDigit(s[1]) ==> s[..n] == [s[0]];
    Value(s[..n])
  }

  /** A run of digits at the front of s that is not followed by a digit is
      the longest such run: there is only one. */
  lemma DigitRunUnique(s: string, k: nat, n: nat)
    requires k <= |s| && AllDigits(s[..k]) && (k < |s| ==> !IsDigit(s[k]))
    requires n <= |s| && AllDigits(s[..n]) && (n < |s| ==> !IsDigit(s[n]))
    ensures k == n
  {
    if k < n {
      DigitInRun(s, n, k);
    } else if n < k {
      DigitInRun(s, k, n);
    }
  }

  lemma DigitInRun(s: string, n: nat, k: nat)
    requires k < n <= |s| && AllDigits(s[..n])
    ensures IsDigit(s[k])
  {
    assert s[..n][k] == s[k];
  }
}
