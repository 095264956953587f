/** Decimal text of non-negative integers, as JavaScript's `String(n)` and
    template literals (`${n}`) print them. The engine builds item ids from it
    and the overlay renderer prints its 1-based box labels with it. */
module Decimal {

  /** The character of one decimal digit. */
  function Digit(d: nat): (c: char)
    requires d < 10
    ensures '0' <= c <= '9'
    ensures c as int - '0' as int == d
  {
    (('0' as int) + d) as char
  }

  predicate IsDigits(s: string) {
    forall i :: 0 <= i < |s| ==> '0' <= s[i] <= '9'
  }

  /** `String(n)`: most significant digit first, no leading zeros. */
  function Show(n: nat): (s: string)
    ensures 1 <= |s|
    ensures IsDigits(s)
    ensures n < 10 <==> |s| == 1
    ensures s[0] == '0' ==> n == 0
  {
    if n < 10 then [Digit(n)] else Show(n / 10) + [Digit(n % 10)]
  }

  /** Reads a string of digits back as a number (the inverse of Show). */
  function Parse(s: string): nat
    requires IsDigits(s)
  {
    if |s| == 0 then 0
    else Parse(s[..|s| - 1]) * 10 + (s[|s| - 1] as int - '0' as int)
  }

  lemma {:induction false} ParseShow(n: nat)
    ensures Parse(Show(n)) == n
  {
    if n >= 10 {
      var s := Show(n);
      assert s[..|s| - 1] == Show(n / 10);
      ParseShow(n / 10);
    }
  }

  /** Distinct numbers print differently. */
  lemma ShowInjective(m: nat, n: nat)
    requires Show(m) == Show(n)
    ensures m == n
  {
    ParseShow(m);
    ParseShow(n);
  }
}
