/** Points and vectors over the reals, standing in for glm::vec2/vec3 and plain double triples. */
module Geometry {

  datatype Vec2 = Vec2(u: real, v: real)

  datatype Vec3 = Vec3(x: real, y: real, z: real)

  function Add(a: Vec3, b: Vec3): Vec3 {
    Vec3(a.x + b.x, a.y + b.y, a.z + b.z)
  }

  function Sub(a: Vec3, b: Vec3): Vec3 {
    Vec3(a.x - b.x, a.y - b.y, a.z - b.z)
  }

  function Scale(k: real, a: Vec3): Vec3 {
    Vec3(k * a.x, k * a.y, k * a.z)
  }

  function Dot(a: Vec3, b: Vec3): real {
    a.x * b.x + a.y * b.y + a.z * b.z
  }

  /** Squared Euclidean length of a - b (glm::length2 of the difference). */
  function Dist2(a: Vec3, b: Vec3): (d: real)
    ensures d >= 0.0
  {
    var e := Sub(a, b);
    SquareNonNegative(e.x);
    SquareNonNegative(e.y);
    SquareNonNegative(e.z);
    Dot(e, e)
  }

  lemma SquareNonNegative(r: real)
    ensures r * r >= 0.0
  {
    if r < 0.0 {
      assert r * r == (-r) * (-r);
    }
  }

  /**
   * A non-negative square root of the squared distance exceeds 0.5 exactly
   * when the squared distance exceeds 0.25, so comparing `sqrt(d2) > 0.5`
   * and `d2 > 0.25` decides the same thing.
   */
  lemma RootThreshold(d2: real, root: real)
    requires root >= 0.0 && root * root == d2
    ensures root > 0.5 <==> d2 > 0.25
  {
    if root > 0.5 {
      assert root * root > 0.5 * root;
      assert 0.5 * root > 0.25;
    } else {
      assert root * root <= 0.5 * root;
      assert 0.5 * root <= 0.25;
    }
  }
}
