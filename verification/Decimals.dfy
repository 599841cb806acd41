/** Whole numbers as they are written. */
module Decimals {
  function Digits(n: nat): string {
    if n < 10 then [['0', '1', '2', '3', '4', '5', '6', '7', '8', '9'][n]]
    else Digits(n / 10) + Digits(n % 10)
  }

  function Written(n: int): string {
    if n < 0 then "-" + Digits(-n) else Digits(n)
  }

  /** The last digit is the remainder by ten, and those before it are the quotient. */
  lemma {:induction false} DigitsEnd(n: nat)
    ensures |Digits(n)| > 0 && Digits(n)[|Digits(n)| - 1..] == Digits(n % 10)
    ensures |Digits(n)| == 1 <==> n < 10
    ensures n >= 10 ==> Digits(n)[..|Digits(n)| - 1] == Digits(n / 10)
    ensures forall m: nat :: m < 10 && Digits(n % 10) == Digits(m) ==> n % 10 == m
    decreases n
  {
    if n >= 10 {
      DigitsEnd(n / 10);
    }
  }

  lemma {:induction false} DigitsApart(n: nat, m: nat)
    ensures Digits(n) == Digits(m) ==> n == m
    ensures |Digits(n)| > 0 && Digits(n)[0] != '-'
    decreases n
  {
    DigitsEnd(n);
    DigitsEnd(m);
    if n >= 10 {
      DigitsApart(n / 10, if m >= 10 then m / 10 else 0);
    }
  }

  /** Different numbers are written differently. */
  lemma {:induction false} WrittenApart(n: int, m: int)
    ensures Written(n) == Written(m) ==> n == m
  {
    DigitsApart(if n < 0 then -n else n, if m < 0 then -m else m);
    DigitsApart(if m < 0 then -m else m, 0);
    if n < 0 && m < 0 {
      assert Written(n)[1..] == Digits(-n) && Written(m)[1..] == Digits(-m);
    }
  }

  /** A larger number is written no shorter. */
  lemma {:induction false} DigitsGrow(fewer: nat, more: nat)
    requires fewer <= more
    ensures |Digits(fewer)| <= |Digits(more)|
    decreases more
  {
    DigitsEnd(fewer);
    DigitsEnd(more);
    if more >= 10 && fewer >= 10 {
      DigitsGrow(fewer / 10, more / 10);
    }
  }
}
