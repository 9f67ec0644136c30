/** Points in 3-space and the proximity test used by both collision detectors.
    The source compares a Euclidean distance (a square root) against a
    threshold; here the test is stated on squared distances, which is the
    same answer over the reals: for t > 0, sqrt(d) < t exactly when d < t*t,
    and for t <= 0 no distance is below t. */
module Geometry {

  datatype Vec3 = Vec3(x: real, y: real, z: real)

  /** Squared Euclidean distance between two points. */
  function DistSq(p: Vec3, q: Vec3): real
  {
    (p.x - q.x) * (p.x - q.x) + (p.y - q.y) * (p.y - q.y) + (p.z - q.z) * (p.z - q.z)
  }

  /** `v.clone().multiplyScalar(c)` */
  function Scale(v: Vec3, c: real): Vec3
  {
    Vec3(v.x * c, v.y * c, v.z * c)
  }

  /** `distance(p, q) < t`, stated without a square root. */
  predicate Within(p: Vec3, q: Vec3, t: real)
  {
    t > 0.0 && DistSq(p, q) < t * t
  }

  /** The test is strict: a point at distance exactly t is not within t,
      nor is any point farther away. */
  lemma WithinIsStrict(p: Vec3, q: Vec3, t: real)
    requires DistSq(p, q) >= t * t
    ensures !Within(p, q, t)
  {
  }

  /** A point is within any positive threshold of itself. */
  lemma WithinSelf(p: Vec3, t: real)
    requires t > 0.0
    ensures Within(p, p, t)
  {
    calc {
      DistSq(p, p);
    ==
      0.0;
    <
      t * t;
    }
  }

  /** Scaling by the planet radius scales the squared length by its square. */
  lemma ScaleNorm(v: Vec3)
    ensures DistSq(Scale(v, 3.05), Vec3(0.0, 0.0, 0.0)) == 3.05 * 3.05 * DistSq(v, Vec3(0.0, 0.0, 0.0))
  {
  }
}
