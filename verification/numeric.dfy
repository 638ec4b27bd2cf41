/** Numeric vocabulary shared by every system: the fixed timestep, the world
    constants, an abstract pi, and the small total functions that stand for
    JavaScript's `Math.min`, `Math.max`, `Math.abs`, `Math.sign` and
    `Math.round`. JavaScript numbers are modelled as unbounded `real`s. */
module Numeric {

  type PosReal = r: real | r > 0.0 witness 1.0

  /** Pi is left abstract: only its positivity is known to the model. */
  const PI: PosReal

  const TICK_RATE_PER_SEC: real := 50.0
  /** One tick of the fixed-timestep loop, in seconds: `1 / TICK_RATE_PER_SEC`,
      written out so that rate-times-timestep stays linear arithmetic. */
  const STEP_SIZE: real := 0.02

  lemma StepSizeIsOneTick()
    ensures STEP_SIZE * TICK_RATE_PER_SEC == 1.0
  {
  }

  /** A non-negative rate moves a non-negative distance per tick. */
  lemma RateStepNonNegative(rate: real)
    requires rate >= 0.0
    ensures rate * STEP_SIZE >= 0.0
  {
  }

  const WORLD_WIDTH: real := 2000.0
  const WORLD_HEIGHT: real := 2000.0
  const WORLD_HSEGMENTS: int := 512
  const WORLD_VSEGMENTS: int := 512

  function Min(a: real, b: real): (r: real)
    ensures r <= a && r <= b
    ensures r == a || r == b
  {
    if a <= b then a else b
  }

  function Max(a: real, b: real): (r: real)
    ensures r >= a && r >= b
    ensures r == a || r == b
  {
    if a >= b then a else b
  }

  function Abs(x: real): (r: real)
    ensures r >= 0.0
    ensures r == x || r == -x
  {
    if x < 0.0 then -x else x
  }

  /** `Math.sign`: -1, 0 or 1 (the signed zero and NaN of JavaScript do not arise). */
  function Sign(x: real): (r: real)
    ensures r == 0.0 <==> x == 0.0
    ensures r > 0.0 <==> x > 0.0
    ensures r == -1.0 || r == 0.0 || r == 1.0
  {
    if x > 0.0 then 1.0 else if x < 0.0 then -1.0 else 0.0
  }

  /** `Math.round`: the nearest integer, halves rounded towards +infinity. */
  function Round(x: real): (r: int)
    ensures r as real <= x + 0.5 < r as real + 1.0
  {
    (x + 0.5).Floor
  }

  // ------------------------------------------------- arithmetic facts

  /** The sign of a product is the product of the signs. */
  lemma ProductSign(a: real, b: real)
    ensures Sign(a * b) == Sign(a) * Sign(b)
  {
    if a > 0.0 && b > 0.0 {
      assert a * b > 0.0;
    } else if a > 0.0 && b < 0.0 {
      assert a * b < 0.0;
    } else if a < 0.0 && b > 0.0 {
      assert a * b < 0.0;
    } else if a < 0.0 && b < 0.0 {
      assert a * b > 0.0;
    }
  }

  /** Dividing by a positive number keeps the sign. */
  lemma QuotientSign(a: real, k: real)
    requires k > 0.0
    ensures Sign(a / k) == Sign(a)
  {
    if a > 0.0 {
      assert a / k > 0.0;
    } else if a < 0.0 {
      assert a / k < 0.0;
    }
  }

  /** `x^2 / k` is positive for a non-zero `x` and a positive `k`, taken as
      `x * (x / k)`: a product of two factors of the same sign. */
  lemma SquareOverPositive(x: real, k: real)
    requires x != 0.0 && k > 0.0
    ensures x * x / k > 0.0
  {
    QuotientSign(x, k);
    ProductSign(x, x / k);
    ProductOverNonZero(x, k);
  }

  lemma ProductOverNonZero(x: real, k: real)
    requires k != 0.0
    ensures x * x / k == x * (x / k)
  {
  }

  lemma SelfQuotient(x: real)
    requires x != 0.0
    ensures x / x == 1.0
  {
  }

  /** Scaling a negated step negates the scaled step. */
  lemma ScaledNegation(k: real, x: real)
    ensures k * -x == -(k * x)
  {
  }

  /** A negative rate moves a positive distance down per tick. */
  lemma NegativeRateStep(rate: real)
    requires rate < 0.0
    ensures -(rate * STEP_SIZE) > 0.0
  {
  }

  /** Fifty timesteps make one second. */
  lemma OneSecondOfTicks(rate: real)
    ensures 50.0 * (rate * STEP_SIZE) == rate
  {
  }
}
