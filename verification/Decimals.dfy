/**
 * Decimal rounding as `Number(x.toFixed(f))` computes it (section 21.1.3.3 of
 * ECMA-262), over reals. `scale` is ten to the power f.
 */
module Decimals {
  /** From this magnitude on, `toFixed` returns the number unrounded. */
  const FIXED_LIMIT := 1_000_000_000_000_000_000_000.0

  function Times(x: real, s: real): real { x * s }

  function Over(x: real, s: real): real
    requires s != 0.0
  {
    x / s
  }

  /** Nearest multiple of 1/scale to a non-negative x; of two equally near ones, the larger. */
  function RoundUp(x: real, scale: int): real
    requires scale > 0
  {
    Over((Times(x, scale as real) + 0.5).Floor as real, scale as real)
  }

  function ToFixed(x: real, scale: int): real
    requires scale > 0
  {
    if x <= -FIXED_LIMIT || x >= FIXED_LIMIT then x
    else if x < 0.0 then -RoundUp(-x, scale)
    else RoundUp(x, scale)
  }

  lemma Divided(x: real, s: real)
    requires s > 0.0
    ensures Times(Over(x, s), s) == x && Over(Times(x, s), s) == x
  {
  }

  lemma Distributed(x: real, y: real, s: real)
    ensures Times(x - y, s) == Times(x, s) - Times(y, s)
    ensures Times(-x, s) == -Times(x, s)
  {
  }

  lemma TimesMonotone(x: real, y: real, s: real)
    requires s > 0.0
    ensures x <= y <==> Times(x, s) <= Times(y, s)
  {
    Distributed(y, x, s);
    if x <= y {
      assert (y - x) * s >= 0.0;
    } else {
      assert (y - x) * s < 0.0;
    }
  }

  lemma OverMonotone(x: real, y: real, s: real)
    requires s > 0.0
    ensures x <= y <==> Over(x, s) <= Over(y, s)
  {
    Divided(x, s);
    Divided(y, s);
    TimesMonotone(Over(x, s), Over(y, s), s);
  }

  lemma RoundUpBounds(x: real, scale: int)
    requires scale > 0
    ensures -0.5 < Times(RoundUp(x, scale) - x, scale as real) <= 0.5
  {
    Distributed(RoundUp(x, scale), x, scale as real);
    Divided((Times(x, scale as real) + 0.5).Floor as real, scale as real);
  }

  /** Rounding moves a number by at most half a unit in the last kept place. */
  lemma ToFixedError(x: real, scale: int)
    requires scale > 0
    ensures -0.5 <= Times(ToFixed(x, scale) - x, scale as real) <= 0.5
  {
    if -FIXED_LIMIT < x < 0.0 {
      RoundUpBounds(-x, scale);
      Distributed(RoundUp(-x, scale) - -x, 0.0, scale as real);
      assert ToFixed(x, scale) - x == -(RoundUp(-x, scale) - -x);
    } else if 0.0 <= x < FIXED_LIMIT {
      RoundUpBounds(x, scale);
    } else {
      assert ToFixed(x, scale) - x == 0.0;
    }
  }

  lemma IntegersOver(m: int, n: int, s: real)
    requires s > 0.0 && m <= n
    ensures Over(m as real, s) <= Over(n as real, s)
  {
    OverMonotone(m as real, n as real, s);
  }

  lemma NearestMonotone(a: real, b: real, s: real)
    requires s > 0.0 && a <= b
    ensures Over((a + 0.5).Floor as real, s) <= Over((b + 0.5).Floor as real, s)
  {
    IntegersOver((a + 0.5).Floor, (b + 0.5).Floor, s);
  }

  lemma RoundUpMonotone(x: real, y: real, scale: int)
    requires scale > 0 && x <= y
    ensures RoundUp(x, scale) <= RoundUp(y, scale)
  {
    TimesMonotone(x, y, scale as real);
    NearestMonotone(Times(x, scale as real), Times(y, scale as real), scale as real);
  }

  /** An integer is its own rounding. */
  lemma RoundUpInteger(n: int, scale: int)
    requires scale > 0
    ensures RoundUp(n as real, scale) == n as real
  {
    var k := n * scale;
    assert Times(n as real, scale as real) == k as real;
    assert (k as real + 0.5).Floor == k;
    Divided(n as real, scale as real);
  }

  /** Rounding keeps the order of two numbers (it may make them equal). */
  lemma ToFixedMonotone(x: real, y: real, scale: int)
    requires scale > 0 && x <= y
    ensures ToFixed(x, scale) <= ToFixed(y, scale)
  {
    RoundUpInteger(FIXED_LIMIT.Floor, scale);
    RoundUpInteger(0, scale);
    if 0.0 <= x < FIXED_LIMIT {
      RoundUpMonotone(0.0, x, scale);
      RoundUpMonotone(x, if y < FIXED_LIMIT then y else FIXED_LIMIT, scale);
    } else if -FIXED_LIMIT < x < 0.0 {
      RoundUpMonotone(0.0, -x, scale);
      if y < 0.0 {
        RoundUpMonotone(-y, -x, scale);
      } else if y < FIXED_LIMIT {
        RoundUpMonotone(0.0, y, scale);
      }
    } else if x <= -FIXED_LIMIT < y < 0.0 {
      RoundUpMonotone(-y, FIXED_LIMIT, scale);
    } else if x <= -FIXED_LIMIT && 0.0 <= y < FIXED_LIMIT {
      RoundUpMonotone(0.0, y, scale);
    }
  }

  /**
   * The result is a whole number of units in the last kept place, the nearest one to the number; of two equally near
   * ones, the one farther from zero.
   */
  lemma ToFixedNearest(x: real, scale: int)
    requires scale > 0 && -FIXED_LIMIT < x < FIXED_LIMIT
    ensures Times(ToFixed(x, scale), scale as real) == Times(ToFixed(x, scale), scale as real).Floor as real
    ensures x >= 0.0 ==> -0.5 < Times(ToFixed(x, scale) - x, scale as real) <= 0.5
    ensures x < 0.0 ==> -0.5 <= Times(ToFixed(x, scale) - x, scale as real) < 0.5
  {
    var size := if x < 0.0 then -x else x;
    var n := (Times(size, scale as real) + 0.5).Floor;
    Divided(n as real, scale as real);
    assert Times(RoundUp(size, scale), scale as real) == n as real;
    RoundUpBounds(size, scale);
    if x < 0.0 {
      Distributed(0.0, RoundUp(size, scale), scale as real);
      assert Times(ToFixed(x, scale), scale as real) == (-n) as real;
      Distributed(RoundUp(size, scale) - size, 0.0, scale as real);
      assert ToFixed(x, scale) - x == -(RoundUp(size, scale) - size);
    }
  }
}
