/** Amounts of money as exact reals, and Python's `round(x, 2)` over them. */
module Money {

  /** x is a whole number of cents. */
  predicate IsCents(x: real) {
    (x * 100.0).Floor as real == x * 100.0
  }

  /** n / 100 is a whole number of cents. */
  lemma WholeCents(n: int)
    ensures IsCents(n as real / 100.0)
  {
    assert (n as real / 100.0) * 100.0 == n as real;
  }

  /** `round(x, 2)`: the nearest multiple of 0.01, a tie going to the even multiple. */
  function Round2(x: real): (r: real)
    ensures IsCents(r)
    ensures -0.005 <= r - x <= 0.005
    ensures x >= 0.0 ==> r >= 0.0
  {
    var scaled := x * 100.0;
    var f := scaled.Floor;
    var frac := scaled - f as real;
    assert 0.0 <= frac < 1.0;
    var n := if frac < 0.5 then f else if frac > 0.5 then f + 1 else if f % 2 == 0 then f else f + 1;
    assert -0.5 <= n as real - scaled <= 0.5;
    WholeCents(n);
    n as real / 100.0
  }

  /** Rounding a whole number of cents changes nothing. */
  lemma Round2OfCents(x: real)
    requires IsCents(x)
    ensures Round2(x) == x
  {
    var scaled := x * 100.0;
    assert scaled - scaled.Floor as real == 0.0;
  }

  /** A sum of whole numbers of cents is a whole number of cents. */
  lemma CentsAdd(a: real, b: real)
    requires IsCents(a) && IsCents(b)
    ensures IsCents(a + b)
  {
    var fa, fb := (a * 100.0).Floor, (b * 100.0).Floor;
    assert (a + b) * 100.0 == (fa + fb) as real;
  }
}
