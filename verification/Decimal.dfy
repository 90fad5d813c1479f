/** Decimal numerals, as `%d` prints them. */
module Decimal {

  predicate IsDigits(s: string) { s != [] && forall i | 0 <= i < |s| :: '0' <= s[i] <= '9' }

  function Digit(d: int): char
    requires 0 <= d < 10
  {
    '0' + d as char
  }

  function OfNat(n: nat): string
  {
    if n < 10 then [Digit(n)] else OfNat(n / 10) + [Digit(n % 10)]
  }

  function Of(n: int): string
  {
    if n < 0 then "-" + OfNat(-n) else OfNat(n)
  }

  function Value(s: string): nat
    requires IsDigits(s)
  {
    var last := (s[|s| - 1] - '0') as nat;
    if |s| == 1 then last else 10 * Value(s[..|s| - 1]) + last
  }

  lemma {:induction false} ValueOfNat(n: nat)
    ensures IsDigits(OfNat(n)) && Value(OfNat(n)) == n
  {
    if n >= 10 {
      ValueOfNat(n / 10);
      var front := OfNat(n / 10);
      assert OfNat(n)[..|OfNat(n)| - 1] == front;
    }
  }
}
