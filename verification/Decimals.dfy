/** Natural numbers in decimal digits. */
module Decimals {

  function Digits(n: nat): string {
    (if n < 10 then "" else Digits(n / 10)) + [('0' as int + n % 10) as char]
  }

  predicate IsDigit(c: char) {
    '0' <= c <= '9'
  }

  predicate AllDigits(s: string) {
    forall i :: 0 <= i < |s| ==> IsDigit(s[i])
  }

  function Number(s: string): nat
    requires AllDigits(s)
  {
    if s == "" then 0 else Number(s[..|s| - 1]) * 10 + (s[|s| - 1] as int - '0' as int)
  }

  lemma {:induction false} DigitsRead(n: nat)
    ensures Digits(n) != "" && AllDigits(Digits(n)) && Number(Digits(n)) == n
  {
    var d := Digits(n);
    if n >= 10 {
      DigitsRead(n / 10);
      assert d[..|d| - 1] == Digits(n / 10);
    } else {
      assert d[..|d| - 1] == "";
    }
  }
}
