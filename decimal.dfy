/** Decimal text of non-negative integers, as `strconv.Itoa` writes it for the
    values `ToString` passes it (an 8-bit code widened to `int`). */
module Decimal {

  predicate IsDigit(ch: char) {
    '0' <= ch <= '9'
  }

  predicate AllDigits(s: string) {
    forall i :: 0 <= i < |s| ==> IsDigit(s[i])
  }

  function DigitChar(d: nat): (ch: char)
    requires d < 10
    ensures IsDigit(ch) && ch as int - '0' as int == d
  {
    ('0' as int + d) as char
  }

  function DigitValue(ch: char): (d: nat)
    requires IsDigit(ch)
    ensures d < 10
  {
    ch as int - '0' as int
  }

  /** The decimal form of `n`, most significant digit first. */
  function Itoa(n: nat): (s: string)
    ensures |s| >= 1 && AllDigits(s)
    ensures s[0] == '0' <==> n == 0   // no leading zeros
    decreases n
  {
    if n < 10 then [DigitChar(n)] else Itoa(n / 10) + [DigitChar(n % 10)]
  }

  /** The number a string of decimal digits denotes (the reading direction of Itoa). */
  function Value(s: string): nat
    requires AllDigits(s)
  {
    if s == [] then 0 else Value(s[..|s| - 1]) * 10 + DigitValue(s[|s| - 1])
  }

  /** Reading back the decimal form of `n` gives `n`. */
  lemma {:induction false} ValueOfItoa(n: nat)
    ensures Value(Itoa(n)) == n
  {
    if n >= 10 {
      ValueOfItoa(n / 10);
      var s := Itoa(n / 10) + [DigitChar(n % 10)];
      assert s[..|s| - 1] == Itoa(n / 10);
    }
  }

  /** Distinct numbers have distinct decimal forms. */
  lemma ItoaInjective(m: nat, n: nat)
    ensures Itoa(m) == Itoa(n) ==> m == n
  {
    ValueOfItoa(m);
    ValueOfItoa(n);
  }

  /** An 8-bit value takes one to three digits: one below 10, two below 100, three otherwise. */
  lemma {:induction false} ItoaWidth(n: nat)
    requires n < 256
    ensures |Itoa(n)| == if n < 10 then 1 else if n < 100 then 2 else 3
  {
    if n >= 10 {
      assert |Itoa(n)| == |Itoa(n / 10)| + 1;
      if n >= 100 {
        assert |Itoa(n / 10)| == |Itoa(n / 100)| + 1;
      }
    }
  }
}
