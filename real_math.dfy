/** Scalar helpers standing in for the engine's Math::Util, and the small facts about real
    products that the geometric proofs are built from. */
module RealMath {

  /** Math::Util::Sqrt is not part of this model; every operation that needs it takes it as a
      parameter that must return the non-negative square root of every non-negative real. */
  ghost predicate IsSqrt(sqrt: real -> real) {
    forall x :: 0.0 <= x ==> 0.0 <= sqrt(x) && sqrt(x) * sqrt(x) == x
  }

  function Max(a: real, b: real): real {
    if a < b then b else a
  }

  function Square(x: real): real {
    x * x
  }

  lemma MulPos(a: real, b: real)
    requires 0.0 < a && 0.0 < b
    ensures 0.0 < a * b
  {
  }

  lemma MulNonNeg(a: real, b: real)
    requires 0.0 <= a && 0.0 <= b
    ensures 0.0 <= a * b
  {
  }

  lemma SquareNonNeg(x: real)
    ensures 0.0 <= x * x
  {
    if x < 0.0 {
      MulPos(-x, -x);
    } else {
      MulNonNeg(x, x);
    }
  }

  lemma ZeroProduct(x: real, y: real)
    requires x * y == 0.0
    ensures x == 0.0 || y == 0.0
  {
    if x != 0.0 && y != 0.0 {
      if x > 0.0 && y > 0.0 {
        MulPos(x, y);
      } else if x > 0.0 {
        MulPos(x, -y);
      } else if y > 0.0 {
        MulPos(-x, y);
      } else {
        MulPos(-x, -y);
      }
    }
  }

  /** Two non-negative reals with the same square are equal. */
  lemma SquareInjective(s: real, k: real)
    requires 0.0 <= s && 0.0 <= k && s * s == k * k
    ensures s == k
  {
    assert (s - k) * (s + k) == 0.0;
    ZeroProduct(s - k, s + k);
  }

  /** Squaring is monotone on the non-negative reals. */
  lemma SquareLe(s: real, k: real)
    requires 0.0 <= s && 0.0 <= k && k * k <= s * s
    ensures k <= s
  {
    if s < k {
      MulPos(k - s, k + s);
    }
  }

  /** Squaring is strictly monotone on the non-negative reals. */
  lemma SquareLt(s: real, k: real)
    requires 0.0 <= s && 0.0 <= k && k * k < s * s
    ensures k < s
  {
    if s <= k {
      MulNonNeg(k - s, k + s);
    }
  }

  /** A square root is determined by its square: the fact concrete scenarios need. */
  lemma SqrtOfSquare(sqrt: real -> real, k: real)
    requires IsSqrt(sqrt) && 0.0 <= k
    ensures sqrt(k * k) == k
  {
    SquareNonNeg(k);
    SquareInjective(sqrt(k * k), k);
  }
}
