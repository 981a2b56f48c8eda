/**
 * The JavaScript character base: the walking speed its current direction
 * gives it, the move that translates it by that speed and then confines it
 * to the level's bounds, and the bounds themselves, which are shared by every
 * character and unbounded until the stage sets them.
 *
 * `translateX`/`translateZ` move the model along its own, rotated axes; that
 * scene-graph step is the function value `translate`. The model, its
 * materials, the animation mixer and asset loading are not part of this
 * model; the character's position stands for the loaded model's.
 */
module CharacterJs {

  import opened Geometry
  import Numbers

  /** One half-extent of the level: `Infinity` until set, then a number. */
  datatype Bound = Infinite | Finite(r: real)

  /** `clamp(v, -bound, bound)`: an infinite bound leaves every value alone. */
  function ClampTo(v: real, b: Bound): (r: real)
    ensures b.Infinite? ==> r == v
    ensures b.Finite? && b.r >= 0.0 ==> -b.r <= r <= b.r
    ensures b.Finite? && -b.r <= v <= b.r ==> r == v
    ensures b.Finite? && b.r >= 0.0 && v > b.r ==> r == b.r
    ensures b.Finite? && b.r >= 0.0 && v < -b.r ==> r == -b.r
  {
    match b
    case Infinite => v
    case Finite(limit) => Numbers.Clamp(v, -limit, limit)
  }

  /** The second half of `updatePosition`: z within the front bound, x within the side bound, y as it was. */
  function Confine(p: Vec3, front: Bound, side: Bound): Vec3
  {
    Vec3(ClampTo(p.x, side), p.y, ClampTo(p.z, front))
  }

  /** Clamping twice is clamping once, whatever the bounds. */
  lemma ClampToIdempotent(v: real, b: Bound)
    ensures ClampTo(ClampTo(v, b), b) == ClampTo(v, b)
  {
    if b.Finite? && b.r < 0.0 {
      assert ClampTo(v, b) == -b.r;
    }
  }

  /**
   * A confined position stays within non-negative bounds, height included
   * untouched, and confining it again changes nothing.
   */
  lemma ConfineWithin(p: Vec3, front: Bound, side: Bound)
    ensures var q := Confine(p, front, side);
      && q.y == p.y
      && (front.Finite? && front.r >= 0.0 ==> -front.r <= q.z <= front.r)
      && (side.Finite? && side.r >= 0.0 ==> -side.r <= q.x <= side.r)
      && (front.Infinite? ==> q.z == p.z)
      && (side.Infinite? ==> q.x == p.x)
      && Confine(q, front, side) == q
  {
    ClampToIdempotent(p.x, side);
    ClampToIdempotent(p.z, front);
  }

  /** The module-level `BOUNDS` object every character reads. */
  class Bounds {
    var front: Bound
    var side: Bound

    constructor ()
      ensures front == Infinite && side == Infinite
    {
      front := Infinite;
      side := Infinite;
    }

    /** `Character.setBounds(stage)`: the stage's extents, for all characters at once. */
    method SetBounds(stageFront: real, stageSide: real)
      modifies this
      ensures front == Finite(stageFront) && side == Finite(stageSide)
    {
      front := Finite(stageFront);
      side := Finite(stageSide);
    }
  }

  class Character {
    /** `setting.moves`: the x and z speed of each direction. */
    const moveTable: map<string, (real, real)>
    const bounds: Bounds
    /** `translateX(dx)` followed by `translateZ(dz)` on the model. */
    const translate: (Vec3, real, real) -> Vec3

    var speedX: real
    var speedZ: real
    var running: bool
    var moving: bool
    var health: int
    var position: Vec3

    /** `constructor(asset, setting, onLoad)`, without the asset loading. */
    constructor (moves: map<string, (real, real)>, shared: Bounds, move: (Vec3, real, real) -> Vec3, start: Vec3)
      ensures moveTable == moves && bounds == shared && translate == move && position == start
      ensures speedX == 0.0 && speedZ == 0.0 && !running && !moving && health == 100
    {
      moveTable := moves;
      bounds := shared;
      translate := move;
      position := start;
      speedX := 0.0;
      speedZ := 0.0;
      running := false;
      moving := false;
      health := 100;
    }

    /** `setDirection(direction)`: the speed becomes the direction's configured pair. */
    method SetDirection(direction: string)
      requires direction in moveTable
      modifies this`speedX, this`speedZ
      ensures speedX == moveTable[direction].0 && speedZ == moveTable[direction].1
    {
      speedX := moveTable[direction].0;
      speedZ := moveTable[direction].1;
    }

    /** `updatePosition()`: one step at the current speed, then back inside the shared bounds. */
    method UpdatePosition()
      modifies this`position
      ensures position == Confine(translate(old(position), speedX, speedZ), bounds.front, bounds.side)
      ensures bounds.front.Finite? && bounds.front.r >= 0.0 ==> -bounds.front.r <= position.z <= bounds.front.r
      ensures bounds.side.Finite? && bounds.side.r >= 0.0 ==> -bounds.side.r <= position.x <= bounds.side.r
    {
      var moved := translate(position, speedX, speedZ);
      position := Vec3(ClampTo(moved.x, bounds.side), moved.y, ClampTo(moved.z, bounds.front));
      ConfineWithin(moved, bounds.front, bounds.side);
    }

    /** `update(delta)`: only a moving character changes position. */
    method Update(delta: real)
      modifies this`position
      ensures moving ==> position == Confine(translate(old(position), speedX, speedZ), bounds.front, bounds.side)
      ensures !moving ==> position == old(position)
    {
      if moving {
        UpdatePosition();
      }
    }
  }
}
