/**
 * Facts of real arithmetic, each small enough for the solver to prove on its own; the
 * sampler proofs combine them so that the solver only has to reason linearly.
 */
module RealFacts {

  lemma PositiveProduct(a: real, b: real)
    requires 0.0 < a && 0.0 < b
    ensures 0.0 < a * b
  {
  }

  lemma NonNegativeProduct(a: real, b: real)
    requires 0.0 <= a && 0.0 <= b
    ensures 0.0 <= a * b
  {
    if a != 0.0 && b != 0.0 { PositiveProduct(a, b); }
  }

  /** For `0 <= u < 1` and `0 < a`: `0 <= a * u < a`. */
  lemma ScaleBelow(a: real, u: real)
    requires 0.0 <= u < 1.0
    ensures 0.0 < a ==> 0.0 <= a * u < a
  {
    if 0.0 < a {
      NonNegativeProduct(a, u);
      PositiveProduct(a, 1.0 - u);
      assert a * (1.0 - u) == a - a * u;
    }
  }

  /** For `0 <= u < 1` and `a < 0`: `a < a * u <= 0`. */
  lemma ScaleAbove(a: real, u: real)
    requires 0.0 <= u < 1.0
    ensures a < 0.0 ==> a < a * u <= 0.0
  {
    if a < 0.0 {
      NonNegativeProduct(-a, u);
      PositiveProduct(-a, 1.0 - u);
      assert (-a) * u == -(a * u);
      assert (-a) * (1.0 - u) == a * u - a;
    }
  }

  function Abs(x: real): real
  {
    if x < 0.0 then -x else x
  }

  /** The triangle inequality, for a second term bounded on both sides. */
  lemma AbsSum(x: real, y: real, xBound: real, yBound: real)
    requires Abs(x) <= xBound && -yBound <= y <= yBound
    ensures Abs(x + y) <= xBound + yBound
  {
  }

  /** A factor of magnitude at most 1 cannot enlarge `a`: `|s * a| <= |a|`. */
  lemma ProductWithin(s: real, a: real)
    requires -1.0 <= s <= 1.0
    ensures -Abs(a) <= s * a <= Abs(a)
  {
    if 0.0 <= a {
      NonNegativeProduct(1.0 - s, a);
      NonNegativeProduct(1.0 + s, a);
      assert (1.0 - s) * a == a - s * a;
      assert (1.0 + s) * a == a + s * a;
    } else {
      NonNegativeProduct(1.0 - s, -a);
      NonNegativeProduct(1.0 + s, -a);
      assert (1.0 - s) * (-a) == s * a - a;
      assert (1.0 + s) * (-a) == -a - s * a;
    }
  }

  /** Squaring is strictly monotone on the non-negative reals. */
  lemma SquareBelow(a: real, b: real)
    requires 0.0 <= a < b
    ensures a * a < b * b
  {
    PositiveProduct(b - a, b + a);
    assert (b - a) * (b + a) == b * b - a * a;
  }

  /** `(rr * a / len)^2 * len^2 == rr^2 * a^2`. */
  lemma ScaledSquare(rr: real, a: real, len: real)
    requires len != 0.0
    ensures (rr * a / len) * (rr * a / len) * (len * len) == (rr * rr) * (a * a)
  {
    assert (rr * a / len) * len == rr * a;
  }

  /** Cancelling the positive factor `len^2` from an equation between squares. */
  lemma CancelSquare(p: real, q: real, len: real)
    requires 0.0 < len && p * (len * len) == q * (len * len)
    ensures p == q
  {
    assert (p - q) * (len * len) == 0.0;
    assert ((p - q) * len) * len == 0.0;
    assert (p - q) * len == 0.0;
  }

  /**
   * Dividing the scaled direction `rr * (x, y)` by its length `len` leaves a vector of
   * squared length `rr^2`.
   */
  lemma NormalizedDisk(x: real, y: real, rr: real, len: real)
    requires 0.0 < len && len * len == x * x + y * y
    ensures (rr * x / len) * (rr * x / len) + (rr * y / len) * (rr * y / len) == rr * rr
  {
    var p, q := rr * x / len, rr * y / len;
    ScaledSquare(rr, x, len);
    ScaledSquare(rr, y, len);
    assert (p * p + q * q) * (len * len) == (rr * rr) * (len * len) by {
      calc {
        (p * p + q * q) * (len * len);
        (p * p) * (len * len) + (q * q) * (len * len);
        (rr * rr) * (x * x) + (rr * rr) * (y * y);
        (rr * rr) * (x * x + y * y);
        (rr * rr) * (len * len);
      }
    }
    CancelSquare(p * p + q * q, rr * rr, len);
  }

  /** The same for a direction `(x, y, z)` in space. */
  lemma NormalizedBall(x: real, y: real, z: real, rr: real, len: real)
    requires 0.0 < len && len * len == x * x + y * y + z * z
    ensures (rr * x / len) * (rr * x / len) + (rr * y / len) * (rr * y / len)
          + (rr * z / len) * (rr * z / len) == rr * rr
  {
    var p, q, t := rr * x / len, rr * y / len, rr * z / len;
    ScaledSquare(rr, x, len);
    ScaledSquare(rr, y, len);
    ScaledSquare(rr, z, len);
    assert (p * p + q * q + t * t) * (len * len) == (rr * rr) * (len * len) by {
      calc {
        (p * p + q * q + t * t) * (len * len);
        (p * p) * (len * len) + (q * q) * (len * len) + (t * t) * (len * len);
        (rr * rr) * (x * x) + (rr * rr) * (y * y) + (rr * rr) * (z * z);
        (rr * rr) * (x * x + y * y + z * z);
        (rr * rr) * (len * len);
      }
    }
    CancelSquare(p * p + q * q + t * t, rr * rr, len);
  }
}
