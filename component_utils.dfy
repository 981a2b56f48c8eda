/**
 * Helpers of the map and radar components: scaling level coordinates to the
 * screen, and testing whether a point lies inside a circle.
 */
module ComponentUtils {

  import opened Geometry

  /** `getScaledCoords(coords, minCoords, scale)`: the level coordinates shifted by `minCoords` and scaled. */
  function GetScaledCoords(coords: Coords, minCoords: Coords, scale: real): (r: Coords)
    ensures r == (scale * (coords.0 + minCoords.0), scale * (coords.1 + minCoords.1))
  {
    (coords.0 * scale + scale * minCoords.0, coords.1 * scale + scale * minCoords.1)
  }

  /** The origin at scale 1 lands on `minCoords` itself. */
  lemma ScaledOrigin(minCoords: Coords)
    ensures GetScaledCoords((0.0, 0.0), minCoords, 1.0) == minCoords
  {
  }

  /** `getScaledCoords([50, 50], [0, 0], 5)` is `[250, 250]`. */
  lemma ScaledExample()
    ensures GetScaledCoords((50.0, 50.0), (0.0, 0.0), 5.0) == (250.0, 250.0)
  {
  }

  /** `pointInCircle(pCoords, cCoords, radius)`: the distance to the centre, by `Math.sqrt`, is below the radius. */
  function PointInCircle(m: MathLib, pCoords: Coords, cCoords: Coords, radius: real): bool
  {
    m.sqrt(Square(pCoords.0 - cCoords.0) + Square(pCoords.1 - cCoords.1)) < radius
  }

  /** For a non-negative radius, a point is inside exactly when its squared distance is below the squared radius: the rim is outside. */
  lemma PointInCircleIff(m: MathLib, pCoords: Coords, cCoords: Coords, radius: real)
    requires Lawful(m)
    requires radius >= 0.0
    ensures PointInCircle(m, pCoords, cCoords, radius)
        <==> Square(pCoords.0 - cCoords.0) + Square(pCoords.1 - cCoords.1) < Square(radius)
  {
    SquareNonNegative(pCoords.0 - cCoords.0);
    SquareNonNegative(pCoords.1 - cCoords.1);
    SqrtBelow(m, Square(pCoords.0 - cCoords.0) + Square(pCoords.1 - cCoords.1), radius);
  }

  /** No point is inside a circle of radius 0. */
  lemma ZeroRadiusIsEmpty(m: MathLib, pCoords: Coords, cCoords: Coords)
    requires Lawful(m)
    ensures !PointInCircle(m, pCoords, cCoords, 0.0)
  {
    SquareNonNegative(pCoords.0 - cCoords.0);
    SquareNonNegative(pCoords.1 - cCoords.1);
    SqrtNonNegative(m, Square(pCoords.0 - cCoords.0) + Square(pCoords.1 - cCoords.1));
  }

  /** `pointInCircle([1.25, 1.25], [0.5, 0.5], 1)` is false and `pointInCircle([0, 0], [0.5, 0.5], 0.75)` is true. */
  lemma PointInCircleExamples(m: MathLib)
    requires Lawful(m)
    ensures !PointInCircle(m, (1.25, 1.25), (0.5, 0.5), 1.0)
    ensures PointInCircle(m, (0.0, 0.0), (0.5, 0.5), 0.75)
  {
    PointInCircleIff(m, (1.25, 1.25), (0.5, 0.5), 1.0);
    PointInCircleIff(m, (0.0, 0.0), (0.5, 0.5), 0.75);
  }
}
