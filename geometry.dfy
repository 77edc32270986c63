/**
 * Ground-truth positions and the distance tests the optimization harnesses make.
 *
 * A position is a `VecPosition` of the agent's world model: x, y, z in metres.
 * Square roots are never taken. A distance that is only compared with a threshold
 * is compared through its square, which over the reals is the same test
 * (ThresholdBySquares); a distance that is accumulated into a score is supplied
 * by the caller together with the fact that it squares to the squared distance
 * (IsDistance).
 */
module Geometry {

  datatype Vec = Vec(x: real, y: real, z: real)

  /** The origin, also the ball's expected position after a kick beam. */
  const Origin: Vec := Vec(0.0, 0.0, 0.0)

  /** `v.setZ(0)`: the same position projected onto the field plane. */
  function Flat(v: Vec): Vec
  {
    v.(z := 0.0)
  }

  /** Square of `a.getDistanceTo(b)` (all three coordinates). */
  function DistSq(a: Vec, b: Vec): real
  {
    (a.x - b.x) * (a.x - b.x) + (a.y - b.y) * (a.y - b.y) + (a.z - b.z) * (a.z - b.z)
  }

  /** Square of `v.getMagnitude()`. */
  function NormSq(v: Vec): real
  {
    DistSq(v, Origin)
  }

  function Abs(r: real): real
  {
    if r < 0.0 then -r else r
  }

  /** `d` is the Euclidean distance between `a` and `b`. */
  predicate IsDistance(d: real, a: Vec, b: Vec)
  {
    d >= 0.0 && d * d == DistSq(a, b)
  }

  /**
   * Comparing a distance with a non-negative threshold is the same as comparing
   * the squared distance with the squared threshold, in both directions.
   */
  lemma ThresholdBySquares(d: real, a: Vec, b: Vec, t: real)
    requires IsDistance(d, a, b)
    requires t >= 0.0
    ensures d > t <==> DistSq(a, b) > t * t
    ensures d < t <==> DistSq(a, b) < t * t
  {
    var sq := DistSq(a, b);
    assert sq == d * d;
    if d > t {
      SquareGrows(t, d);
      assert sq > t * t;
    } else if d < t {
      SquareGrows(d, t);
      assert sq < t * t;
    } else {
      assert sq == t * t;
    }
  }

  /** Squaring is strictly increasing on non-negative reals. */
  lemma SquareGrows(lo: real, hi: real)
    requires 0.0 <= lo < hi
    ensures lo * lo < hi * hi
  {
    assert lo * (hi - lo) == lo * hi - lo * lo;
    assert (hi - lo) * hi == hi * hi - lo * hi;
    assert lo * (hi - lo) >= 0.0;
    assert (hi - lo) * hi > 0.0;
  }
}
