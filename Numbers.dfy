/** Integer arithmetic the pages do with JavaScript numbers. */
module Numbers {

  /**
   * `Math.round((part / whole) * 100)`: the integer nearest to the percentage, halves
   * rounded up. The first ensures pins the result down uniquely.
   */
  function RoundPercent(part: int, whole: int): (r: int)
    requires whole > 0
    ensures whole * (2 * r - 1) <= 200 * part < whole * (2 * r + 1)
    ensures 0 <= part <= whole ==> 0 <= r <= 100
  {
    RoundPercentFacts(part, whole);
    (200 * part + whole) / (2 * whole)
  }

  lemma RoundPercentFacts(part: int, whole: int)
    requires whole > 0
    ensures var q := (200 * part + whole) / (2 * whole);
      && whole * (2 * q - 1) <= 200 * part < whole * (2 * q + 1)
      && (0 <= part <= whole ==> 0 <= q <= 100)
  {
    var n := 200 * part + whole;
    var d := 2 * whole;
    var q := n / d;
    assert n == d * q + n % d && 0 <= n % d < d;
    assert whole * (2 * q - 1) == d * q - whole;
    assert whole * (2 * q + 1) == d * q + whole;
    if 0 <= part <= whole {
      assert 0 <= n <= d * 100 + whole;
      DivBounds(n, d, 100);
    }
  }

  lemma DivBounds(n: int, d: int, k: nat)
    requires d > 0 && 0 <= n < d * (k + 1)
    ensures 0 <= n / d <= k
  {
    var q := n / d;
    assert n == d * q + n % d;
    assert d * (q - (k + 1)) < 0;
    MulNegative(q - (k + 1), d);
    assert d * q >= 0;
    MulNonNegative(q, d);
  }

  lemma MulNegative(x: int, d: int)
    requires d > 0 && d * x < 0
    ensures x < 0
  {
  }

  lemma MulNonNegative(x: int, d: int)
    requires d > 0 && d * x >= 0
    ensures x >= 0
  {
  }
}
