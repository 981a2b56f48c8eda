/**
 * Shared value types of the game: three.js vectors and quaternions as records,
 * level coordinates as pairs, and the mathematical functions the code borrows
 * from the JavaScript runtime and from three.js. Those functions are not
 * computable over the reals, so they are passed around as function values
 * together with the few laws the proofs need (`Lawful`).
 */
module Geometry {

  /** A three.js Vector3 (or an Euler angle triple, which has the same shape). */
  datatype Vec3 = Vec3(x: real, y: real, z: real)

  /** A three.js Quaternion. */
  datatype Quat = Quat(x: real, y: real, z: real, w: real)

  /** A level coordinate pair `[x, z]`. */
  type Coords = (real, real)

  const ZERO: Vec3 := Vec3(0.0, 0.0, 0.0)

  /** Math.PI / 2 (the `PI.d2` constant of the game's number utilities). */
  const HALF_PI: real := 1.5707963267948966

  /**
   * The runtime's `Math.sqrt`, `Math.atan` and three.js' Euler-to-quaternion
   * conversion, left uninterpreted. The game only takes the arctangent of a
   * quotient, so `atanOf(a, b)` stands for `Math.atan(a / b)` as a whole.
   */
  datatype MathLib = MathLib(sqrt: real -> real, atanOf: (real, real) -> real, quaternion: Vec3 -> Quat)

  /** `x ** 2`, `Math.pow(x, 2)`. */
  function Square(x: real): real
  {
    x * x
  }

  /**
   * The laws of the real square root and arctangent that the model relies on:
   * the root of a square is the non-negative base, the root is strictly
   * increasing on the non-negative reals, and the arctangent of a quotient of
   * two positive numbers lies strictly between 0 and a right angle.
   */
  ghost predicate Lawful(m: MathLib)
  {
    && (forall r :: r >= 0.0 ==> m.sqrt(Square(r)) == r)
    && (forall s, t :: 0.0 <= s < t ==> m.sqrt(s) < m.sqrt(t))
    && (forall a, b :: a > 0.0 && b > 0.0 ==> 0.0 < m.atanOf(a, b) < HALF_PI)
  }

  function Abs(x: real): (r: real)
    ensures r >= 0.0 && (r == x || r == -x)
  {
    if x < 0.0 then -x else x
  }

  function Max(a: real, b: real): (r: real)
    ensures r >= a && r >= b && (r == a || r == b)
  {
    if a < b then b else a
  }

  function Min(a: real, b: real): (r: real)
    ensures r <= a && r <= b && (r == a || r == b)
  {
    if a < b then a else b
  }

  function Add(a: Vec3, b: Vec3): Vec3
  {
    Vec3(a.x + b.x, a.y + b.y, a.z + b.z)
  }

  function Scale(a: Vec3, k: real): Vec3
  {
    Vec3(a.x * k, a.y * k, a.z * k)
  }

  /** three.js `Vector3.distanceToSquared`. */
  function SquaredDistance(a: Vec3, b: Vec3): (r: real)
    ensures r >= 0.0
  {
    SquareNonNegative(a.x - b.x);
    SquareNonNegative(a.y - b.y);
    SquareNonNegative(a.z - b.z);
    Square(a.x - b.x) + Square(a.y - b.y) + Square(a.z - b.z)
  }

  /** three.js `Vector3.distanceTo`: the square root of `SquaredDistance`. */
  function Distance(m: MathLib, a: Vec3, b: Vec3): real
  {
    m.sqrt(SquaredDistance(a, b))
  }

  /** Multiplying by a non-negative factor preserves order; by a positive one, strict order. */
  lemma MulMonotone(k: real, a: real, b: real)
    requires k >= 0.0 && a <= b
    ensures k * a <= k * b
    ensures k > 0.0 && a < b ==> k * a < k * b
  {
    assert k * b - k * a == k * (b - a);
  }

  /** A square is never negative, and positive for a non-zero base. */
  lemma SquareNonNegative(x: real)
    ensures Square(x) >= 0.0
    ensures x != 0.0 ==> Square(x) > 0.0
  {
    var y := if x < 0.0 then -x else x;
    assert Square(x) == y * y;
    MulMonotone(y, 0.0, y);
    if y > 0.0 {
      calc {
        Square(x);
      ==
        y * y;
      >
        y * 0.0;
      ==
        0.0;
      }
    }
  }

  /** A square root is never negative. */
  lemma SqrtNonNegative(m: MathLib, s: real)
    requires Lawful(m)
    requires s >= 0.0
    ensures m.sqrt(s) >= 0.0
  {
    SquareNonNegative(0.0);
    assert m.sqrt(Square(0.0)) == 0.0;
    if s > 0.0 {
      assert m.sqrt(0.0) < m.sqrt(s);
    }
  }

  /** For a non-negative bound, a square root lies below it exactly when the radicand lies below its square. */
  lemma SqrtBelow(m: MathLib, s: real, r: real)
    requires Lawful(m)
    requires s >= 0.0 && r >= 0.0
    ensures m.sqrt(s) < r <==> s < Square(r)
  {
    var t := Square(r);
    SquareNonNegative(r);
    assert m.sqrt(t) == r;
    if s < t {
      assert m.sqrt(s) < m.sqrt(t);
    } else if t < s {
      assert m.sqrt(t) < m.sqrt(s);
    }
  }

  /** The Euclidean length of a vector with two positive components exceeds both of them. */
  lemma HypotenuseExceeds(m: MathLib, a: real, b: real)
    requires Lawful(m)
    requires a > 0.0 && b > 0.0
    ensures m.sqrt(Square(a) + Square(b)) > a
    ensures m.sqrt(Square(a) + Square(b)) > b
  {
    SquareNonNegative(a);
    SquareNonNegative(b);
    SqrtBelow(m, Square(a) + Square(b), a);
    SqrtBelow(m, Square(a) + Square(b), b);
    assert m.sqrt(Square(a)) == a && m.sqrt(Square(b)) == b;
    assert m.sqrt(Square(a)) < m.sqrt(Square(a) + Square(b));
    assert m.sqrt(Square(b)) < m.sqrt(Square(a) + Square(b));
  }
}
