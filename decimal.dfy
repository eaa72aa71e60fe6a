/** Unpadded decimal text of a natural number, as printf's `%u` conversion writes it,
    together with its inverse (the value of a digit string). */
module Decimal {

  predicate IsDigit(c: char) {
    '0' <= c <= '9'
  }

  predicate AllDigits(s: string) {
    forall k :: 0 <= k < |s| ==> IsDigit(s[k])
  }

  function DigitChar(d: nat): (c: char)
    requires d < 10
    ensures IsDigit(c)
  {
    ('0' as int + d) as char
  }

  function DigitValue(c: char): (d: nat)
    requires IsDigit(c)
    ensures d < 10
  {
    c as int - '0' as int
  }

  function Pow10(k: nat): (p: nat)
    ensures p >= 1
  {
    if k == 0 then 1 else 10 * Pow10(k - 1)
  }

  /** The text `%u` prints for n: only digits, never empty, and a leading '0' only for zero
      itself (no padding). */
  function Text(n: nat): (r: string)
    ensures |r| > 0 && AllDigits(r)
    ensures r[0] == '0' <==> n == 0
    decreases n
  {
    if n < 10 then [DigitChar(n)] else Text(n / 10) + [DigitChar(n % 10)]
  }

  /** The number a digit string denotes (most significant digit first). */
  function Value(s: string): nat
    requires AllDigits(s)
  {
    if s == [] then 0 else Value(s[..|s| - 1]) * 10 + DigitValue(s[|s| - 1])
  }

  /** Reading back what `%u` printed gives the number printed. */
  lemma {:induction false} ValueOfText(n: nat)
    ensures Value(Text(n)) == n
  {
    if n >= 10 {
      var t := Text(n);
      assert t[..|t| - 1] == Text(n / 10);
      ValueOfText(n / 10);
    }
  }

  /** Two numbers print the same text only if they are equal. */
  lemma TextInjective(m: nat, n: nat)
    requires Text(m) == Text(n)
    ensures m == n
  {
    ValueOfText(m);
    ValueOfText(n);
  }

  /** A number below 10^k prints in at most k characters (zero still takes one). */
  lemma {:induction false} TextLength(n: nat, k: nat)
    requires 1 <= k && n < Pow10(k)
    ensures |Text(n)| <= k
  {
    if n >= 10 {
      assert Pow10(1) == 10;
      assert n / 10 < Pow10(k - 1);
      TextLength(n / 10, k - 1);
    }
  }
}
