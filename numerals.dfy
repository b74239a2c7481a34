/** Decimal notation of natural numbers: `String(n)`, and the number a string of decimal
  * digits denotes when JavaScript reads it back, as `Number(s)` or an arithmetic operator
  * does. */
module Numerals {
  predicate AllDigits(s: string) {
    forall k :: 0 <= k < |s| ==> '0' <= s[k] <= '9'
  }

  function DigitChar(d: nat): (c: char)
    requires d < 10
    ensures '0' <= c <= '9' && c as int - '0' as int == d
  {
    ('0' as int + d) as char
  }

  /** The decimal notation of `String(n)` and of a template literal's `${n}`. */
  function Decimal(n: nat): (s: string)
    ensures |s| >= 1 && (n < 10 <==> |s| == 1)
    ensures AllDigits(s)
  {
    if n < 10 then [DigitChar(n)] else Decimal(n / 10) + [DigitChar(n % 10)]
  }

  function Pow10(k: nat): (p: nat)
    ensures p >= 1
  {
    if k == 0 then 1 else 10 * Pow10(k - 1)
  }

  /** The number a non-empty string of decimal digits denotes, most significant first. */
  function DecimalValue(s: string): nat
    requires AllDigits(s)
  {
    if s == [] then 0 else 10 * DecimalValue(s[..|s| - 1]) + (s[|s| - 1] as int - '0' as int)
  }

  /** Reading the notation back gives the number. */
  lemma {:induction false} DecimalRoundTrip(n: nat)
    ensures DecimalValue(Decimal(n)) == n
    decreases n
  {
    if n >= 10 {
      DecimalRoundTrip(n / 10);
      var s := Decimal(n);
      assert s[..|s| - 1] == Decimal(n / 10);
    }
  }

  /** Different numbers are written differently. */
  lemma DecimalInjective(a: nat, b: nat)
    requires Decimal(a) == Decimal(b)
    ensures a == b
  {
    DecimalRoundTrip(a);
    DecimalRoundTrip(b);
  }

  /** Digits written one after another: the first group is shifted left by the second. */
  lemma {:induction false} DecimalValueConcat(a: string, b: string)
    requires AllDigits(a) && AllDigits(b)
    ensures AllDigits(a + b)
    ensures DecimalValue(a + b) == DecimalValue(a) * Pow10(|b|) + DecimalValue(b)
  {
    assert AllDigits(a + b) by {
      forall k | 0 <= k < |a + b| ensures '0' <= (a + b)[k] <= '9' {
        if k >= |a| { assert (a + b)[k] == b[k - |a|]; }
      }
    }
    if b == [] {
      assert a + b == a;
    } else {
      var b' := b[..|b| - 1];
      var ab := a + b;
      assert ab[..|ab| - 1] == a + b' && ab[|ab| - 1] == b[|b| - 1];
      DecimalValueConcat(a, b');
      Shift(DecimalValue(a), DecimalValue(b'), Pow10(|b'|), b[|b| - 1] as int - '0' as int);
    }
  }

  lemma Shift(pa: int, pb: int, q: int, d: int)
    ensures 10 * (pa * q + pb) + d == pa * (10 * q) + (10 * pb + d)
  {
  }
}
