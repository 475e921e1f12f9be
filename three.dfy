/**
 * The few three.js operations the frame loops rely on: scalar and vector
 * interpolation, the per-frame interpolation factor, distances, and the
 * camera whose position and field of view the rigs write.
 */
module Three {
  import Reals

  /** `THREE.MathUtils.lerp(x, y, t)`: `(1 - t) * x + t * y`. */
  function Lerp(x: real, y: real, t: real): (r: real)
    ensures t == 0.0 ==> r == x
    ensures t == 1.0 ==> r == y
  {
    (1.0 - t) * x + t * y
  }

  /** With a factor in [0, 1] the result never overshoots the target. */
  lemma LerpWithin(x: real, y: real, t: real)
    requires 0.0 <= t <= 1.0
    ensures Reals.Within(x, y, Lerp(x, y, t))
  {
    assert Lerp(x, y, t) == x + (y - x) * t;
    Reals.StepWithin(x, y, t);
  }

  /** `Math.min(1, delta * speed)`: how much of the remaining gap one frame covers. */
  function Factor(delta: real, speed: real): (f: real)
    requires 0.0 <= delta && 0.0 <= speed
    ensures 0.0 <= f <= 1.0
    ensures f == 1.0 <==> delta * speed >= 1.0
  {
    Reals.Min(1.0, delta * speed)
  }

  datatype Vec3 = Vec3(x: real, y: real, z: real)

  /** `Vector3.lerp(v, alpha)`: each coordinate moves `alpha` of the way toward `v`. */
  function Vec3Lerp(a: Vec3, b: Vec3, alpha: real): (c: Vec3)
    ensures alpha == 0.0 ==> c == a
    ensures alpha == 1.0 ==> c == b
  {
    Vec3(a.x + (b.x - a.x) * alpha, a.y + (b.y - a.y) * alpha, a.z + (b.z - a.z) * alpha)
  }

  /** The square of `a.distanceTo(b)`; comparing it with `r * r` compares the distance with `r`. */
  function DistanceSquared(a: Vec3, b: Vec3): (d: real)
    ensures d >= 0.0
    ensures a == b ==> d == 0.0
  {
    var dx, dy, dz := a.x - b.x, a.y - b.y, a.z - b.z;
    SquareZero(dx);
    SquareZero(dy);
    SquareZero(dz);
    dx * dx + dy * dy + dz * dz
  }

  lemma SquareZero(u: real)
    ensures u * u >= 0.0
    ensures u != 0.0 ==> u * u > 0.0
  {
    if u < 0.0 {
      var v := -u;
      assert v * v > 0.0;
      assert u * u == v * v;
    } else if u > 0.0 {
      assert u * u > 0.0;
    }
  }

  /**
   * Moving `alpha` in [0, 1] of the way toward a target never increases the
   * squared distance to it: the gap scales by `(1 - alpha)` squared.
   */
  lemma Vec3LerpApproaches(a: Vec3, b: Vec3, alpha: real)
    requires 0.0 <= alpha <= 1.0
    ensures DistanceSquared(Vec3Lerp(a, b, alpha), b) == (1.0 - alpha) * (1.0 - alpha) * DistanceSquared(a, b)
    ensures DistanceSquared(Vec3Lerp(a, b, alpha), b) <= DistanceSquared(a, b)
  {
    var k := 1.0 - alpha;
    var c := Vec3Lerp(a, b, alpha);
    assert c.x - b.x == k * (a.x - b.x);
    assert c.y - b.y == k * (a.y - b.y);
    assert c.z - b.z == k * (a.z - b.z);
    var d := DistanceSquared(a, b);
    assert DistanceSquared(c, b) == k * k * d by {
      assert (k * (a.x - b.x)) * (k * (a.x - b.x)) == k * k * ((a.x - b.x) * (a.x - b.x));
      assert (k * (a.y - b.y)) * (k * (a.y - b.y)) == k * k * ((a.y - b.y) * (a.y - b.y));
      assert (k * (a.z - b.z)) * (k * (a.z - b.z)) == k * k * ((a.z - b.z) * (a.z - b.z));
    }
    Reals.ScaledWithin(k, k);
    Reals.ScaledWithin(d, k * k);
    assert k * k * d == d * (k * k);
  }

  /** The scene camera: `camera.position` and `camera.fov`, both written in place. */
  class Camera {
    var pos: Vec3
    var fov: real

    /** The canvas's camera: at (0, 0, 5) with a 45 degree field of view. */
    constructor()
      ensures pos == Vec3(0.0, 0.0, 5.0) && fov == 45.0
    {
      pos := Vec3(0.0, 0.0, 5.0);
      fov := 45.0;
    }
  }
}
