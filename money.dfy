/**
 * Monetary amounts. The services use java.math.BigDecimal, an exact decimal;
 * here an amount is a `real`, and `setScale(2, RoundingMode.HALF_UP)` is
 * RoundHalfUp2.
 */
module Money {

  /** True when x has at most two decimal places, that is, x is a whole number of cents. */
  predicate IsCents(x: real) {
    (x * 100.0).Floor as real == x * 100.0
  }

  /** The amount of k cents. */
  function Cents(k: int): (r: real)
    ensures r * 100.0 == k as real
    ensures IsCents(r)
  {
    k as real / 100.0
  }

  /**
   * BigDecimal.setScale(2, RoundingMode.HALF_UP): the nearest multiple of 0.01,
   * and on a tie the one farther from zero.
   */
  function RoundHalfUp2(x: real): (r: real)
    ensures IsCents(r)
    ensures x >= 0.0 ==> x - 0.005 < r <= x + 0.005
    ensures x < 0.0 ==> x - 0.005 <= r < x + 0.005
  {
    if x >= 0.0 then
      var k := (x * 100.0 + 0.5).Floor;
      assert k as real <= x * 100.0 + 0.5 < k as real + 1.0;
      Cents(k)
    else
      var k := (-x * 100.0 + 0.5).Floor;
      assert k as real <= -x * 100.0 + 0.5 < k as real + 1.0;
      Cents(-k)
  }

  /** Two whole numbers of cents less than a cent apart are equal. */
  lemma CentsCloserThanACentAreEqual(a: real, b: real)
    requires IsCents(a) && IsCents(b)
    requires -0.01 < a - b < 0.01
    ensures a == b
  {
    var m, n := (a * 100.0).Floor, (b * 100.0).Floor;
    assert m as real == a * 100.0 && n as real == b * 100.0;
    assert -1 < m - n < 1;
  }

  /**
   * The rounding window determines the result: a whole number of cents within
   * half a cent of x, on the side HALF_UP favours, is RoundHalfUp2(x).
   */
  lemma RoundHalfUp2Unique(x: real, c: real)
    requires IsCents(c)
    requires x >= 0.0 ==> x - 0.005 < c <= x + 0.005
    requires x < 0.0 ==> x - 0.005 <= c < x + 0.005
    ensures c == RoundHalfUp2(x)
  {
    CentsCloserThanACentAreEqual(c, RoundHalfUp2(x));
  }

  /** The rounded amount is within half a cent of the exact one. */
  lemma RoundHalfUp2Within(x: real)
    ensures IsCents(RoundHalfUp2(x))
    ensures -0.005 <= RoundHalfUp2(x) - x <= 0.005
  {
  }

  /** Rounding leaves an amount that already has two decimals unchanged. */
  lemma RoundHalfUp2OfCents(x: real)
    requires IsCents(x)
    ensures RoundHalfUp2(x) == x
  {
    RoundHalfUp2Unique(x, x);
  }

  /** Rounding a non-negative amount never makes it negative. */
  lemma RoundHalfUp2NonNegative(x: real)
    requires x >= 0.0
    ensures RoundHalfUp2(x) >= 0.0
  {
    var r := RoundHalfUp2(x);
    if r < 0.0 {
      CentsCloserThanACentAreEqual(r, 0.0);
    }
  }

  /** A tie is rounded away from zero: 0.125 becomes 0.13 and -0.125 becomes -0.13. */
  lemma HalfUpRoundsTiesAwayFromZero()
    ensures RoundHalfUp2(0.125) == 0.13
    ensures RoundHalfUp2(-0.125) == -0.13
    ensures RoundHalfUp2(0.124) == 0.12
  {
    RoundHalfUp2Unique(0.125, 0.13);
    RoundHalfUp2Unique(-0.125, -0.13);
    RoundHalfUp2Unique(0.124, 0.12);
  }

  /** Whole numbers of cents are closed under addition. */
  lemma CentsAdd(a: real, b: real)
    requires IsCents(a) && IsCents(b)
    ensures IsCents(a + b)
  {
    var m, n := (a * 100.0).Floor, (b * 100.0).Floor;
    assert (a + b) * 100.0 == (m + n) as real;
  }
}
