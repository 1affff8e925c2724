/** Natural numbers as decimal text. */
module Decimals {
  predicate AllDigits(s: string) {
    forall i :: 0 <= i < |s| ==> '0' <= s[i] <= '9'
  }

  function Decimal(n: nat): (s: string)
    ensures s != "" && AllDigits(s)
  {
    (if n < 10 then "" else Decimal(n / 10)) + ['0' + (n % 10) as char]
  }

  function Number(s: string): nat
    requires AllDigits(s)
  {
    if s == "" then 0 else 10 * Number(s[..|s| - 1]) + (s[|s| - 1] as int - '0' as int)
  }

  predicate Zeros(s: string) {
    forall i :: 0 <= i < |s| ==> s[i] == '0'
  }

  /** Reading undoes writing, leading zeros or not. */
  lemma {:induction false} NumberDecimal(zeros: string, n: nat)
    requires Zeros(zeros)
    ensures AllDigits(zeros + Decimal(n)) && Number(zeros + Decimal(n)) == n
    decreases |zeros|, n
  {
    var s := zeros + Decimal(n);
    var last := ['0' + (n % 10) as char];
    if n >= 10 {
      NumberDecimal(zeros, n / 10);
      assert s[..|s| - 1] == zeros + Decimal(n / 10);
    } else {
      assert s[..|s| - 1] == zeros;
      NumberZeros(zeros);
    }
  }

  lemma {:induction false} NumberZeros(zeros: string)
    requires Zeros(zeros)
    ensures Number(zeros) == 0
  {
    if zeros != "" { NumberZeros(zeros[..|zeros| - 1]); }
  }

  /** Any digits are zeros and the plain decimal of their number. */
  lemma {:induction false} DigitsForm(s: string) returns (zeros: string)
    requires AllDigits(s) && s != ""
    ensures Zeros(zeros) && s == zeros + Decimal(Number(s))
  {
    var init, last := s[..|s| - 1], s[|s| - 1];
    if Number(init) == 0 {
      OnlyZeros(init);
      zeros := init;
    } else {
      zeros := DigitsForm(init);
      assert Number(s) / 10 == Number(init) && Number(s) % 10 == last as int - '0' as int;
      assert s == init + [last];
    }
  }

  lemma {:induction false} OnlyZeros(s: string)
    requires AllDigits(s) && Number(s) == 0
    ensures Zeros(s)
  {
    if s != "" { OnlyZeros(s[..|s| - 1]); }
  }

  lemma DecimalInjective(m: nat, n: nat)
    requires Decimal(m) == Decimal(n)
    ensures m == n
  {
    NumberDecimal("", m);
    NumberDecimal("", n);
    assert "" + Decimal(m) == Decimal(m);
  }
}
