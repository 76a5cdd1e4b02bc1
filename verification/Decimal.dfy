/** How many characters a number takes in an encoded record. */
module Decimal {
  function Digits(n: nat): nat { if n < 10 then 1 else 1 + Digits(n / 10) }

  lemma {:induction false} DigitsBound(n: nat, d: nat, bound: nat)
    requires d >= 1 && n < bound && bound == Power10(d)
    ensures Digits(n) <= d
    decreases d
  {
    if n >= 10 {
      assert d > 1 by { assert Power10(1) == 10 * Power10(0); }
      assert bound == 10 * Power10(d - 1);
      DigitsBound(n / 10, d - 1, Power10(d - 1));
    }
  }

  function Power10(d: nat): nat { if d == 0 then 1 else 10 * Power10(d - 1) }

  lemma Uint64Digits(n: nat)
    requires n < 0x1_0000_0000_0000_0000
    ensures Digits(n) <= 20
  {
    var p10 := Power10(10);
    assert p10 == 10000000000 by {
      assert Power10(5) == 100000;
      assert Power10(10) == 100000 * Power10(5);
    }
    assert Power10(15) == 100000 * Power10(10);
    assert Power10(20) == 100000 * Power10(15);
    DigitsBound(n, 20, Power10(20));
  }
}
