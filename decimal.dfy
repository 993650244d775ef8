/**
 * The decimal text JavaScript produces for an integer-valued Number, as used
 * when a number becomes a property key (`jobs[3]` is `jobs["3"]`) or is
 * concatenated into a URL.
 */
module Decimal {

  predicate IsDigit(c: char) {
    '0' <= c <= '9'
  }

  predicate AllDigits(s: string) {
    forall k :: 0 <= k < |s| ==> IsDigit(s[k])
  }

  /** The shortest decimal text of an integer: an optional minus sign, then digits, no leading zero. */
  predicate Canonical(s: string) {
    if |s| > 0 && s[0] == '-' then
      |s| > 1 && AllDigits(s[1..]) && s[1] != '0'
    else
      |s| > 0 && AllDigits(s) && (|s| > 1 ==> s[0] != '0')
  }

  function DigitChar(d: nat): (c: char)
    requires d < 10
    ensures IsDigit(c) && DigitValue(c) == d
  {
    (48 + d) as char
  }

  function DigitValue(c: char): int {
    c as int - 48
  }

  /** The digits of `n`, most significant first. */
  function NatString(n: nat): (s: string)
    ensures |s| >= 1 && AllDigits(s)
    ensures s[0] == '0' <==> n == 0
    decreases n
  {
    if n < 10 then [DigitChar(n)] else NatString(n / 10) + [DigitChar(n % 10)]
  }

  /** The value of a string of digits. */
  function NatValue(s: string): nat
    requires AllDigits(s)
    decreases |s|
  {
    if s == [] then 0 else NatValue(s[..|s| - 1]) * 10 + DigitValue(s[|s| - 1])
  }

  /** JavaScript's `String(i)` for an integer-valued Number `i`. */
  function IntString(i: int): (s: string)
    ensures Canonical(s)
    ensures s[0] == '-' <==> i < 0
  {
    if i < 0 then "-" + NatString(-i) else NatString(i)
  }

  /** Reads back a canonical decimal text. */
  function IntValue(s: string): int
    requires Canonical(s)
  {
    if s[0] == '-' then -(NatValue(s[1..]) as int) else NatValue(s)
  }

  lemma {:induction false} NatStringRoundTrip(n: nat)
    ensures NatValue(NatString(n)) == n
  {
    if n >= 10 {
      NatStringRoundTrip(n / 10);
      var s := NatString(n);
      assert s[..|s| - 1] == NatString(n / 10);
    }
  }

  lemma IntStringRoundTrip(i: int)
    ensures IntValue(IntString(i)) == i
  {
    if i < 0 {
      NatStringRoundTrip(-i);
      assert IntString(i)[1..] == NatString(-i);
    } else {
      NatStringRoundTrip(i);
    }
  }

  /** Distinct integers never share a property key. */
  lemma IntStringInjective(i: int, j: int)
    requires IntString(i) == IntString(j)
    ensures i == j
  {
    IntStringRoundTrip(i);
    IntStringRoundTrip(j);
  }

  /** A zero-padded text such as "01" is the key of no integer. */
  lemma PaddedTextIsNoKey(s: string, i: int)
    requires |s| > 1 && s[0] == '0'
    ensures IntString(i) != s
  {
  }
}
