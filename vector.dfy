/**
 * The direction constants of the game's `Vector` namespace and its random
 * vector with every component drawn from [-1, 1).
 */
module Vector {

  import opened Geometry

  const UP: Vec3 := Vec3(0.0, 1.0, 0.0)
  const DOWN: Vec3 := Vec3(0.0, -1.0, 0.0)

  const RIGHT: Vec3 := Vec3(1.0, 0.0, 0.0)
  const LEFT: Vec3 := Vec3(-1.0, 0.0, 0.0)

  const FORWARD: Vec3 := Vec3(0.0, 0.0, 1.0)
  const BACKWARD: Vec3 := Vec3(0.0, 0.0, -1.0)

  function Negate(v: Vec3): Vec3
  {
    Vec3(-v.x, -v.y, -v.z)
  }

  /** A unit vector along one world axis: exactly one non-zero component, of magnitude 1. */
  predicate IsAxis(v: Vec3)
  {
    || (Abs(v.x) == 1.0 && v.y == 0.0 && v.z == 0.0)
    || (v.x == 0.0 && Abs(v.y) == 1.0 && v.z == 0.0)
    || (v.x == 0.0 && v.y == 0.0 && Abs(v.z) == 1.0)
  }

  /** The six constants are unit axis vectors, and each names the opposite of its partner. */
  lemma DirectionConstants()
    ensures UP == Negate(DOWN) && RIGHT == Negate(LEFT) && FORWARD == Negate(BACKWARD)
    ensures IsAxis(UP) && IsAxis(DOWN) && IsAxis(RIGHT) && IsAxis(LEFT) && IsAxis(FORWARD) && IsAxis(BACKWARD)
    ensures UP.y == 1.0 && RIGHT.x == 1.0 && FORWARD.z == 1.0
  {
  }

  /** `random()`: each component is `Math.random() * 2 - 1`, given the three draws. */
  function Random(u1: real, u2: real, u3: real): (v: Vec3)
    requires 0.0 <= u1 < 1.0 && 0.0 <= u2 < 1.0 && 0.0 <= u3 < 1.0
    ensures -1.0 <= v.x < 1.0 && -1.0 <= v.y < 1.0 && -1.0 <= v.z < 1.0
  {
    Vec3(u1 * 2.0 - 1.0, u2 * 2.0 - 1.0, u3 * 2.0 - 1.0)
  }
}
