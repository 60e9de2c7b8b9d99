/** The easing curves of the overlay animation in RIVL.py.
    Python computes them on IEEE doubles; here they are exact reals. */
module Easing {

  function Square(x: real): real { x * x }

  function Cube(x: real): real { x * x * x }

  // Small facts about products. Each is stated so that its callers only
  // have to combine them linearly.

  lemma NonnegProduct(a: real, b: real)
    requires 0.0 <= a && 0.0 <= b
    ensures 0.0 <= a * b
  {
  }

  lemma PosProduct(a: real, b: real)
    requires 0.0 < a && 0.0 < b
    ensures 0.0 < a * b
  {
  }

  lemma MulMono(a: real, b: real, c: real)
    requires a <= b && 0.0 <= c
    ensures a * c <= b * c
  {
  }

  lemma MulStrictLeft(a: real, b: real, c: real)
    requires a < b && 0.0 < c
    ensures c * a < c * b
  {
  }

  lemma SquareNonneg(x: real)
    ensures 0.0 <= Square(x)
  {
  }

  /** Squaring is strictly increasing on the non-negative reals. */
  lemma SquareStrict(x: real, y: real)
    requires 0.0 <= x < y
    ensures Square(x) < Square(y)
  {
    // y^2 - x^2 == (y - x) (y + x)
    PosProduct(y - x, y + x);
  }

  /** Cubing is strictly increasing on the non-negative reals. */
  lemma CubeStrict(x: real, y: real)
    requires 0.0 <= x < y
    ensures Cube(x) < Cube(y)
  {
    SquareStrict(x, y);
    MulMono(Square(x), Square(y), x);
    MulStrictLeft(x, y, Square(y));
  }

  /** On [0, 1], squaring and cubing can only shrink a number. */
  lemma PowersShrink(x: real)
    ensures 0.0 <= x <= 1.0 ==> 0.0 <= Cube(x) <= Square(x) <= x
  {
    if 0.0 <= x <= 1.0 {
      NonnegProduct(x, x);
      MulMono(x, 1.0, x);
      NonnegProduct(Square(x), x);
      MulMono(x, 1.0, Square(x));
    }
  }

  /** Quadratic ease-in-out of the scale-in phase (RIVL.py:725):
      2t^2 below one half, 1 - (2 - 2t)^2 / 2 from one half on. */
  function QuadEaseInOut(t: real): (r: real)
    ensures 0.0 <= t <= 1.0 ==> 0.0 <= r <= 1.0
    ensures t == 0.0 ==> r == 0.0
    ensures t == 1.0 ==> r == 1.0
    ensures t == 0.5 ==> r == 0.5
  {
    if t < 0.5 then
      QuarterBound(t);
      2.0 * t * t
    else
      PowersShrink(-2.0 * t + 2.0);
      1.0 - (-2.0 * t + 2.0) * (-2.0 * t + 2.0) / 2.0
  }

  /** Below one half the square stays below one quarter. */
  lemma QuarterBound(t: real)
    ensures 0.0 <= t < 0.5 ==> 0.0 <= Square(t) < 0.25
  {
    if 0.0 <= t < 0.5 {
      SquareStrict(t, 0.5);
      SquareNonneg(t);
    }
  }

  /** The two pieces of QuadEaseInOut meet at t = 1/2: the curve has no jump. */
  lemma QuadEasePiecesAgree()
    ensures 2.0 * Square(0.5) == 1.0 - Square(-2.0 * 0.5 + 2.0) / 2.0 == QuadEaseInOut(0.5)
  {
  }

  /** QuadEaseInOut never decreases on [0, 1]. */
  lemma QuadEaseMonotone(a: real, b: real)
    requires 0.0 <= a <= b <= 1.0
    ensures QuadEaseInOut(a) <= QuadEaseInOut(b)
  {
    if a == b {
    } else if b < 0.5 {
      SquareStrict(a, b);
    } else if a >= 0.5 {
      SquareStrict(-2.0 * b + 2.0, -2.0 * a + 2.0);
    } else {
      QuarterBound(a);
      PowersShrink(-2.0 * b + 2.0);
    }
  }

  /** The smoothstep curve p^2 (3 - 2p) that set_scale_progress applies
      (RIVL.py:74). */
  function SmoothStep(p: real): (r: real)
    ensures 0.0 <= p <= 1.0 ==> 0.0 <= r <= 1.0
  {
    SmoothStepBounds(p);
    p * p * (3.0 - 2.0 * p)
  }

  /** Smoothstep fixes both ends of [0, 1]. */
  lemma SmoothStepEnds()
    ensures SmoothStep(0.0) == 0.0 && SmoothStep(1.0) == 1.0
  {
  }

  lemma SmoothStepBounds(p: real)
    ensures 0.0 <= p <= 1.0 ==> 0.0 <= Square(p) * (3.0 - 2.0 * p) <= 1.0
  {
    if 0.0 <= p <= 1.0 {
      // 1 - p^2 (3 - 2p) == (1 - p)^2 (1 + 2p)
      assert 1.0 - Square(p) * (3.0 - 2.0 * p) == Square(1.0 - p) * (1.0 + 2.0 * p);
      SquareNonneg(1.0 - p);
      NonnegProduct(Square(1.0 - p), 1.0 + 2.0 * p);
      SquareNonneg(p);
      NonnegProduct(Square(p), 3.0 - 2.0 * p);
    }
  }

  /** SmoothStep never decreases on [0, 1]. */
  lemma SmoothStepMonotone(a: real, b: real)
    requires 0.0 <= a <= b <= 1.0
    ensures SmoothStep(a) <= SmoothStep(b)
  {
    // S(b) - S(a) == (b - a) (3 (a + b) - 2 (a^2 + a b + b^2))
    var k := 3.0 * (a + b) - 2.0 * (Square(a) + a * b + Square(b));
    assert SmoothStep(b) - SmoothStep(a) == (b - a) * k;
    SmoothStepSlope(a, b);
    NonnegProduct(b - a, k);
  }

  /** The second factor of S(b) - S(a) is non-negative on [0, 1]. */
  lemma SmoothStepSlope(a: real, b: real)
    requires 0.0 <= a <= b <= 1.0
    ensures 0.0 <= 3.0 * (a + b) - 2.0 * (Square(a) + a * b + Square(b))
  {
    PowersShrink(a);
    PowersShrink(b);
    MulMono(a, 1.0, b);
  }

  /** Cubic ease-out 1 - (1 - t)^3 of the fade-out phase (RIVL.py:743). */
  function CubicEaseOut(t: real): (r: real)
    ensures 0.0 <= t <= 1.0 ==> 0.0 <= r <= 1.0
    ensures t == 0.0 ==> r == 0.0
    ensures t == 1.0 ==> r == 1.0
  {
    PowersShrink(1.0 - t);
    1.0 - (1.0 - t) * (1.0 - t) * (1.0 - t)
  }

  /** CubicEaseOut strictly rises on [0, 1]. */
  lemma CubicEaseOutStrict(a: real, b: real)
    requires 0.0 <= a < b <= 1.0
    ensures CubicEaseOut(a) < CubicEaseOut(b)
  {
    CubeStrict(1.0 - b, 1.0 - a);
  }
}
