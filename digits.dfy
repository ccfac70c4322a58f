/**
 * Digit characters: the filter behind `Phone.sanitize` (`replace(/\D/g, '')`,
 * where `\D` without the `u` flag is every character except ASCII 0-9) and
 * the decimal rendering behind `number.toString()` for an integer input.
 */
module Digits {

  predicate IsDigit(c: char) {
    '0' <= c <= '9'
  }

  predicate AllDigits(s: string) {
    forall i :: 0 <= i < |s| ==> IsDigit(s[i])
  }

  predicate NoDigits(s: string) {
    forall i :: 0 <= i < |s| ==> !IsDigit(s[i])
  }

  /** `s.replace(/\D/g, '')`: the digits of `s`, in order. */
  function StripNonDigits(s: string): (r: string)
    ensures AllDigits(r)
    ensures |r| <= |s|
  {
    if s == [] then []
    else (if IsDigit(s[0]) then [s[0]] else []) + StripNonDigits(s[1..])
  }

  /** Stripping distributes over concatenation: together with the one-character
      case (a character is kept iff it is a digit) this fixes the result as the
      in-order subsequence of digits. */
  lemma {:induction false} StripConcat(a: string, b: string)
    ensures StripNonDigits(a + b) == StripNonDigits(a) + StripNonDigits(b)
  {
    if a != [] {
      assert (a + b)[0] == a[0];
      assert (a + b)[1..] == a[1..] + b;
      StripConcat(a[1..], b);
    } else {
      assert a + b == b;
    }
  }

  /** Every digit character keeps its number of occurrences; every other
      character disappears. */
  lemma {:induction false} StripCounts(s: string, c: char)
    ensures multiset(StripNonDigits(s))[c] == if IsDigit(c) then multiset(s)[c] else 0
  {
    if s != [] {
      StripCounts(s[1..], c);
      assert s == [s[0]] + s[1..];
      assert multiset(s) == multiset([s[0]]) + multiset(s[1..]);
      var head := if IsDigit(s[0]) then [s[0]] else [];
      assert multiset(head + StripNonDigits(s[1..])) == multiset(head) + multiset(StripNonDigits(s[1..]));
    }
  }

  /** A digit-only string is left as it is. */
  lemma {:induction false} StripFixesDigits(s: string)
    requires AllDigits(s)
    ensures StripNonDigits(s) == s
  {
    if s != [] {
      StripFixesDigits(s[1..]);
      assert s == [s[0]] + s[1..];
    }
  }

  /** A string with no digit strips to nothing. */
  lemma {:induction false} StripRemovesNonDigits(s: string)
    requires NoDigits(s)
    ensures StripNonDigits(s) == []
  {
    if s != [] {
      StripRemovesNonDigits(s[1..]);
    }
  }

  /** Sanitizing twice is sanitizing once. */
  lemma StripIdempotent(s: string)
    ensures StripNonDigits(StripNonDigits(s)) == StripNonDigits(s)
  {
    StripFixesDigits(StripNonDigits(s));
  }

  function DigitChar(d: nat): (c: char)
    requires d < 10
    ensures IsDigit(c)
  {
    (d + '0' as int) as char
  }

  function DigitValue(c: char): (d: nat)
    requires IsDigit(c)
    ensures d < 10 && DigitChar(d) == c
  {
    c as int - '0' as int
  }

  /** `n.toString()` for a non-negative integer: its decimal digits, without
      leading zeros. */
  function DecimalString(n: nat): (r: string)
    ensures |r| > 0 && AllDigits(r)
    ensures r[0] == '0' ==> n == 0
    decreases n
  {
    if n < 10 then [DigitChar(n)] else DecimalString(n / 10) + [DigitChar(n % 10)]
  }

  /** The number a digit string denotes in base ten. */
  function DecimalValue(s: string): nat
    requires AllDigits(s)
  {
    if s == [] then 0 else DecimalValue(s[..|s| - 1]) * 10 + DigitValue(s[|s| - 1])
  }

  /** Reading back the rendering of `n` gives `n`. */
  lemma {:induction false} DecimalRoundTrip(n: nat)
    ensures DecimalValue(DecimalString(n)) == n
    decreases n
  {
    var r := DecimalString(n);
    if n < 10 {
      assert r[..0] == [];
    } else {
      DecimalRoundTrip(n / 10);
      assert r[..|r| - 1] == DecimalString(n / 10);
    }
  }
}
