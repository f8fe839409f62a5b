/** The optional value used wherever the source holds `null`, `undefined` or "no such entry". */
module Optional {
  datatype Option<+T> = None | Some(value: T)
}

/**
 * The vector values of the rendering and physics libraries, over exact reals.
 * Both libraries store positions and velocities as mutable x/y/z records; here a
 * position or velocity is a `Vec3` value and an object that owns one is a class
 * whose field holds it.
 */
module Geometry {

  /** A three-component vector (a mesh position, a body position or a velocity). */
  datatype Vec3 = Vec3(x: real, y: real, z: real)

  /** A vector in the horizontal x-z plane (a camera basis vector with y forced to 0). */
  datatype Planar = Planar(x: real, z: real)

  /** An orientation as the physics library stores it; only ever copied here. */
  datatype Quaternion = Quaternion(x: real, y: real, z: real, w: real)

  /** The identity orientation. */
  const IDENTITY: Quaternion := Quaternion(0.0, 0.0, 0.0, 1.0)

  /** A rigid body of the physics world: its position, its linear velocity and its orientation. */
  class RigidBody {
    var position: Vec3
    var velocity: Vec3
    var quaternion: Quaternion

    constructor (position: Vec3)
      ensures this.position == position && velocity == Vec3(0.0, 0.0, 0.0) && quaternion == IDENTITY
    {
      this.position := position;
      velocity := Vec3(0.0, 0.0, 0.0);
      quaternion := IDENTITY;
    }
  }

  /** A rendered object: its position and orientation in the scene. */
  class Mesh {
    var position: Vec3
    var quaternion: Quaternion

    constructor (position: Vec3)
      ensures this.position == position && quaternion == IDENTITY
    {
      this.position := position;
      quaternion := IDENTITY;
    }
  }

  /** `c` lies on the closed interval between `a` and `b`, whichever is larger. */
  predicate Between(a: real, c: real, b: real) {
    (a <= c <= b) || (b <= c <= a)
  }

  /**
   * Linear interpolation from `a` to `b` by `t`, per component, as the rendering
   * library's `lerpVectors` computes it: `a + (b - a) * t`.
   */
  function Lerp(a: Vec3, b: Vec3, t: real): (r: Vec3)
    ensures t == 0.0 ==> r == a
    ensures t == 1.0 ==> r == b
    ensures 0.0 <= t <= 1.0 ==> Between(a.x, r.x, b.x) && Between(a.y, r.y, b.y) && Between(a.z, r.z, b.z)
  {
    LerpBetween(a.x, b.x, t);
    LerpBetween(a.y, b.y, t);
    LerpBetween(a.z, b.z, t);
    Vec3(a.x + (b.x - a.x) * t, a.y + (b.y - a.y) * t, a.z + (b.z - a.z) * t)
  }

  /** One component of `Lerp` stays between its endpoints for `t` in [0, 1]. */
  lemma LerpBetween(a: real, b: real, t: real)
    ensures 0.0 <= t <= 1.0 ==> Between(a, a + (b - a) * t, b)
  {
    if 0.0 <= t <= 1.0 {
      MulNonneg(if a <= b then b - a else a - b, t);
      MulNonneg(if a <= b then b - a else a - b, 1.0 - t);
    }
  }

  lemma MulNonneg(a: real, b: real)
    requires a >= 0.0 && b >= 0.0
    ensures a * b >= 0.0
  {
  }

  lemma DivBack(a: real, b: real)
    requires b != 0.0
    ensures (a * b) / b == a
  {
  }

  lemma SquareNonneg(x: real)
    ensures x * x >= 0.0
  {
    if x < 0.0 {
      MulNonneg(-x, -x);
    }
  }

  lemma SquareZero(x: real)
    ensures x * x == 0.0 <==> x == 0.0
  {
    if x != 0.0 {
      DivBack(x, x);
    }
  }

  /** The squared length of a horizontal vector. */
  function NormSq(v: Planar): (n: real)
    ensures n >= 0.0
    ensures n == 0.0 <==> v.x == 0.0 && v.z == 0.0
  {
    SquareNonneg(v.x);
    SquareNonneg(v.z);
    SquareZero(v.x);
    SquareZero(v.z);
    v.x * v.x + v.z * v.z
  }

  /** The squared distance between two points, measured in the horizontal x-z plane only. */
  function PlanarDistSq(a: Vec3, b: Vec3): (d: real)
    ensures d >= 0.0
  {
    NormSq(Planar(a.x - b.x, a.z - b.z))
  }
}
