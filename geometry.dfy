/**
 * Points and vectors in world coordinates, and distance comparisons stated
 * without square roots: `NormBelow(sq, t)` says that the Euclidean norm whose
 * square is `sq` is strictly below `t`.
 */
module Geometry {

  datatype Vec3 = Vec3(x: real, y: real, z: real)

  function Sub(a: Vec3, b: Vec3): Vec3 {
    Vec3(a.x - b.x, a.y - b.y, a.z - b.z)
  }

  /** Square of the Euclidean norm of `v` (all three components). */
  function SquaredNorm(v: Vec3): (sq: real)
    ensures sq >= 0.0
  {
    v.x * v.x + v.y * v.y + v.z * v.z
  }

  /** Square of the distance between `a` and `b`. */
  function SquaredDistance(a: Vec3, b: Vec3): (sq: real)
    ensures sq >= 0.0
  {
    SquaredNorm(Sub(a, b))
  }

  /** Square of the distance between `a` and `b` in the horizontal (x, y) plane only. */
  function SquaredPlanarDistance(a: Vec3, b: Vec3): (sq: real)
    ensures sq >= 0.0
  {
    (a.x - b.x) * (a.x - b.x) + (a.y - b.y) * (a.y - b.y)
  }

  /**
   * `sqrt(sq) < t`, written without a square root. A norm is never negative,
   * so a threshold `t <= 0` is never met.
   */
  predicate NormBelow(sq: real, t: real) {
    0.0 < t && sq < t * t
  }

  /** For the non-negative root `d` of a squared norm, `NormBelow` is exactly `d < t`. */
  lemma NormBelowIsRootBelow(d: real, t: real)
    requires d >= 0.0
    ensures NormBelow(d * d, t) <==> d < t
  {
    if d < t {
      MulStrictlyMonotone(d, t);
    } else if 0.0 < t {
      MulStrictlyMonotone(t, d);
    }
  }

  /** Squaring is monotone on non-negative reals. */
  lemma MulStrictlyMonotone(a: real, b: real)
    requires 0.0 <= a <= b
    ensures a * a <= b * b
    ensures a < b ==> a * a < b * b
  {
    var e := b - a;
    assert b * b == a * a + 2.0 * (a * e) + e * e;
    assert a * e >= 0.0;
    assert e * e >= 0.0;
    assert 2.0 * (a * e) >= 0.0;
    if a < b {
      assert e * e > 0.0;
      assert a * a + 2.0 * (a * e) + e * e > a * a;
      assert b * b > a * a;
    }
  }
}
