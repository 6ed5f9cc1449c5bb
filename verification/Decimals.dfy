/** Python's `str` of an integer. */
module Decimals {
  const DIGITS := "0123456789"

  function Decimal(n: nat): (s: string)
    ensures |s| > 0 && forall i :: 0 <= i < |s| ==> '0' <= s[i] <= '9'
  {
    if n < 10 then [DIGITS[n]] else Decimal(n / 10) + [DIGITS[n % 10]]
  }

  function Str(n: int): string {
    if n < 0 then "-" + Decimal(-n) else Decimal(n)
  }

  function Value(s: string): nat
    requires forall i :: 0 <= i < |s| ==> '0' <= s[i] <= '9'
  {
    if s == "" then 0 else 10 * Value(s[..|s| - 1]) + (s[|s| - 1] as int - '0' as int)
  }

  lemma {:induction false} ValueOfDecimal(n: nat)
    ensures Value(Decimal(n)) == n
  {
    if n >= 10 {
      ValueOfDecimal(n / 10);
      var s := Decimal(n);
      assert s[..|s| - 1] == Decimal(n / 10);
    }
  }

  /** Different numbers are spelt differently, and none contains a character outside the digits
      and the sign. */
  lemma StrIsInjective(a: int, b: int)
    requires Str(a) == Str(b)
    ensures a == b
  {
    var m, n := if a < 0 then -a else a, if b < 0 then -b else b;
    assert a < 0 ==> Str(a)[1..] == Decimal(m) && Str(a)[0] == '-';
    assert b < 0 ==> Str(b)[1..] == Decimal(n) && Str(b)[0] == '-';
    ValueOfDecimal(m);
    ValueOfDecimal(n);
  }
}
