/** Decimal text of a natural number, as an f-string renders it. */
module Decimals {

  function Digit(d: nat): (c: char)
    requires d < 10
    ensures '0' <= c <= '9' && c as int == '0' as int + d
  {
    ('0' as int + d) as char
  }

  function Decimal(n: nat): (s: string)
    ensures s != []
    ensures forall c :: c in s ==> '0' <= c <= '9'
  {
    if n < 10 then [Digit(n)] else Decimal(n / 10) + [Digit(n % 10)]
  }

  /** The number a digit text stands for, read from the left. */
  function Reading(s: string): int {
    if s == "" then 0 else 10 * Reading(s[..|s| - 1]) + (s[|s| - 1] as int - '0' as int)
  }

  /** Decimal text reads back as the number, and starts with a zero only for zero itself. */
  lemma {:induction false} DecimalReadsBack(n: nat)
    ensures Reading(Decimal(n)) == n
    ensures Decimal(n)[0] == '0' ==> n == 0
  {
    if n >= 10 {
      DecimalReadsBack(n / 10);
      assert Decimal(n)[..|Decimal(n)| - 1] == Decimal(n / 10);
    } else {
      assert Decimal(n)[..0] == "";
    }
  }

  /** Distinct numbers have distinct decimal texts. */
  lemma DecimalInjective(m: nat, n: nat)
    requires Decimal(m) == Decimal(n)
    ensures m == n
  {
    DecimalReadsBack(m);
    DecimalReadsBack(n);
  }
}
