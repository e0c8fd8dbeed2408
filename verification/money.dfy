/** Exact decimal arithmetic: money is an integer count of 10^-4 units, an exchange
    rate an integer count of 10^-8 base units per foreign unit. */
module Money {

  const RATE_ONE: int := 1_0000_0000

  /** A stored exchange rate is always positive. */
  type Rate = r: int | 0 < r witness 1

  function Abs(x: int): nat { if x < 0 then -x else x }

  function Max(x: int, y: int): int { if x < y then y else x }

  function Min(x: int, y: int): int { if x < y then x else y }

  /** Drops the eight places a rate carries: nearest integer to n / 10^8, ties away from zero. */
  function Round(n: int): (r: int)
    ensures 2 * Abs(RATE_ONE * r - n) <= RATE_ONE
    ensures 2 * Abs(RATE_ONE * r - n) == RATE_ONE ==> Abs(RATE_ONE * r) > Abs(n)
  {
    if n < 0 then -((2 * -n + RATE_ONE) / (2 * RATE_ONE))
    else (2 * n + RATE_ONE) / (2 * RATE_ONE)
  }

  /** Converts an amount in a foreign currency to base. */
  function Convert(amount: int, rate: Rate): int {
    Round(amount * rate)
  }

  /** "Nearest, ties away from zero" leaves exactly one integer. */
  lemma RoundUnique(n: int, r: int)
    requires 2 * Abs(RATE_ONE * r - n) <= RATE_ONE
    requires 2 * Abs(RATE_ONE * r - n) == RATE_ONE ==> Abs(RATE_ONE * r) > Abs(n)
    ensures r == Round(n)
  {
  }

  lemma ConvertAtOne(amount: int)
    ensures Convert(amount, RATE_ONE) == amount
  {
  }

  /** The converted amount never lands on the opposite side. */
  lemma ConvertSign(amount: int, rate: Rate)
    ensures 0 < amount ==> 0 <= Convert(amount, rate)
    ensures amount < 0 ==> Convert(amount, rate) <= 0
    ensures amount == 0 ==> Convert(amount, rate) == 0
  {
    if 0 < amount {
      assert 0 < amount * rate;
    } else if amount < 0 {
      assert amount * rate < 0;
    }
  }

  /** One conversion is off by at most half a unit. */
  lemma ConvertError(amount: int, rate: Rate)
    ensures 2 * Abs(RATE_ONE * Convert(amount, rate) - amount * rate) <= RATE_ONE
  {
  }
}
