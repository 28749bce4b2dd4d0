/** Fixed-point money for the bill processor.

    Amounts of money are whole cents. Rates (tax rates and percent discounts)
    are fixed-point numbers with four decimal places, so 0.13 is 1300 and
    0.10 is 1000. Every product of an amount and a rate is rounded back to
    cents the way NSDecimalNumberHandler(roundingMode: .plain, scale: 2) does:
    to the nearest cent, halves away from zero. Sums and differences of cents
    are exact and need no rounding. */
module Money {

  /** One whole unit of a rate: a rate r stands for r / RateScale. */
  const RateScale: int := 10000

  /** n / RateScale rounded to the nearest integer, halves away from zero. */
  function RoundPlain(n: int): (r: int)
    ensures n >= 0 ==> -RateScale <= 2 * (n - r * RateScale) < RateScale
    ensures n < 0 ==> -RateScale < 2 * (n - r * RateScale) <= RateScale
  {
    if n >= 0 then (2 * n + RateScale) / (2 * RateScale)
    else -((-2 * n + RateScale) / (2 * RateScale))
  }

  /** amount (cents) times rate, rounded to cents. */
  function MulRound(amount: int, rate: int): int
  {
    RoundPlain(amount * rate)
  }

  /** A rate between 0 and 1 takes a share between nothing and all of a
      non-negative amount. */
  lemma MulRoundBounds(amount: int, rate: int)
    requires amount >= 0 && rate >= 0
    ensures MulRound(amount, rate) >= 0
    ensures rate <= RateScale ==> MulRound(amount, rate) <= amount
  {
    assert amount * rate >= 0;
    if rate <= RateScale {
      assert amount * (RateScale - rate) >= 0;
      assert amount * rate <= amount * RateScale;
    }
  }
}
