/** Decimal numerals, and the lesser of two numbers. */
module Numbers {

  function Least(x: nat, y: nat): nat { if x <= y then x else y }

  function Decimal(n: nat): string {
    if n < 10 then [Digit(n)] else Decimal(n / 10) + [Digit(n % 10)]
  }

  function Digit(d: nat): char
    requires d < 10
  {
    (d + '0' as int) as char
  }

  predicate Digits(s: string) { forall i :: 0 <= i < |s| ==> '0' <= s[i] <= '9' }

  lemma {:induction false} DecimalDigits(n: nat)
    ensures Digits(Decimal(n)) && Decimal(n) != []
  {
    if n >= 10 { DecimalDigits(n / 10); }
  }

  lemma {:induction false} DecimalInjective(m: nat, n: nat)
    requires Decimal(m) == Decimal(n)
    ensures m == n
  {
    var d, e := Decimal(m), Decimal(n);
    if m >= 10 && n >= 10 {
      assert Decimal(m / 10) == d[..|d| - 1] && Decimal(n / 10) == e[..|e| - 1];
      assert d[|d| - 1] == Digit(m % 10) && e[|e| - 1] == Digit(n % 10);
      DecimalInjective(m / 10, n / 10);
    } else if m >= 10 {
      DecimalDigits(m / 10);
    } else if n >= 10 {
      DecimalDigits(n / 10);
    }
  }
}
