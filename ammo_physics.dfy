/**
 * The physics world of a level: static box colliders for the walls, the
 * walkways and the ground, capsule colliders for characters, the player's
 * velocity and activation, and the per-frame copy of simulated transforms
 * back onto the scene meshes.
 *
 * The ammo.js (Bullet) world is modelled by what the game puts into it: the
 * list of rigid bodies in the order they were added, each with the settings the
 * game gave it. The simulation step itself is Bullet's, so the transforms it
 * produces are a parameter of `Update`. The `add:object` events the world
 * dispatches to the scene are an appended log.
 */
module AmmoPhysics {

  import opened Geometry
  import opened Optional

  const ZERO_MASS: real := 0.0
  const MIN_SIZE: real := 0.01
  const GRAVITY: real := -9.81

  /** Bullet's activation states DISABLE_SIMULATION and ACTIVE_TAG. */
  const DISABLE: int := 5
  const ENABLE: int := 1

  /** Collision filter groups and mask the game passes to `addRigidBody`. */
  const STATIC_GROUP: int := 2
  const CHARACTER_GROUP: int := 128
  const ALL_MASK: int := 0xFFFF

  const PLAYER_MASS: real := 90.0

  const ONE: Vec3 := Vec3(1.0, 1.0, 1.0)

  /** The two materials the world gives its boxes. */
  datatype Material = StaticCollider | Transparent

  datatype Shape = BoxShape(halfExtents: Vec3) | CapsuleShape(radius: real, height: real)

  /** A Bullet transform: an origin and a rotation. */
  datatype Transform = Transform(origin: Vec3, rotation: Quat)

  /**
   * A Bullet rigid body with the settings the game uses. `localInertia` says
   * whether the shape's local inertia was computed (otherwise it is zero), and
   * `transform` is the world transform of its default motion state.
   */
  datatype Body = Body(
    shape: Shape,
    mass: real,
    localInertia: bool,
    transform: Transform,
    linearDamping: real,
    angularDamping: real,
    restitution: real,
    friction: real,
    angularFactor: Vec3,
    linearFactor: Vec3,
    linearVelocity: Vec3,
    activation: int)

  /** A body as added to the world, with its collision group and mask. */
  datatype Entry = Entry(body: Body, group: int, mask: int)

  /** A scene mesh with a character collider: its uuid, its pose and its capsule's `userData`. */
  datatype Mesh = Mesh(uuid: string, position: Vec3, quaternion: Quat, radius: real, height: real)

  /** A registered character: its mesh and the index of its body in the world. */
  datatype Collider = Collider(mesh: Mesh, body: nat)

  /** What the world hands to the scene with `add:object`. */
  datatype SceneObject =
    | BoxMesh(size: Vec3, position: Vec3, rotation: Vec3, material: Material)
    | CharacterMesh(uuid: string)

  /** The position, Euler rotation and size a box collider is built from. */
  datatype Box = Box(position: Vec3, rotation: Vec3, size: Vec3)

  /** A level's closed outline (`borders`), with the height and vertical position of its boxes. */
  datatype BoundsOptions = BoundsOptions(borders: seq<Coords>, height: real, y: real)

  /** Bodies that neither damp, bounce nor rub. */
  predicate Frictionless(b: Body)
  {
    b.linearDamping == 0.0 && b.angularDamping == 0.0 && b.restitution == 0.0 && b.friction == 0.0
  }

  /**
   * What holds for every body the game adds: frictionless, with inertia
   * exactly when it has mass, colliding with everything, and either a static
   * massless box or an upright character capsule.
   */
  predicate WellFormed(e: Entry)
  {
    && Frictionless(e.body)
    && (e.body.localInertia <==> e.body.mass > ZERO_MASS)
    && e.mask == ALL_MASK
    && (|| (e.group == STATIC_GROUP && e.body.shape.BoxShape? && e.body.mass == ZERO_MASS)
        || (e.group == CHARACTER_GROUP && e.body.shape.CapsuleShape? && e.body.angularFactor == ZERO))
  }

  /** `createRigidBody`: a body at the given pose, Bullet's default factors, velocity and activation otherwise. */
  function RigidBody(shape: Shape, mass: real, position: Vec3, quaternion: Quat): (b: Body)
    ensures Frictionless(b)
    ensures b.localInertia <==> mass > ZERO_MASS
    ensures b.transform == Transform(position, quaternion)
    ensures b.shape == shape && b.mass == mass
  {
    Body(shape, mass, mass > ZERO_MASS, Transform(position, quaternion),
         0.0, 0.0, 0.0, 0.0, ONE, ONE, ZERO, ENABLE)
  }

  /** The body `createStaticCollider` adds for a box: massless, so immovable, in the static group. */
  function StaticBody(m: MathLib, box: Box): (e: Entry)
    ensures WellFormed(e) && e.group == STATIC_GROUP
    ensures !e.body.localInertia && e.body.mass == ZERO_MASS
    ensures e.body.transform == Transform(box.position, m.quaternion(box.rotation))
    ensures e.body.shape == BoxShape(Vec3(box.size.x / 2.0, box.size.y / 2.0, box.size.z / 2.0))
  {
    var shape := BoxShape(Vec3(box.size.x / 2.0, box.size.y / 2.0, box.size.z / 2.0));
    Entry(RigidBody(shape, ZERO_MASS, box.position, m.quaternion(box.rotation)), STATIC_GROUP, ALL_MASK)
  }

  /** The body `createCharacterCollider` adds: a capsule that cannot rotate, in the character group. */
  function CharacterBody(mesh: Mesh, mass: real): (e: Entry)
    ensures WellFormed(e) && e.group == CHARACTER_GROUP
    ensures e.body.angularFactor == ZERO && e.body.linearFactor == ONE
    ensures e.body.localInertia <==> mass > ZERO_MASS
    ensures e.body.shape == CapsuleShape(mesh.radius, mesh.height)
    ensures e.body.transform == Transform(mesh.position, mesh.quaternion)
  {
    var b := RigidBody(CapsuleShape(mesh.radius, mesh.height), mass, mesh.position, mesh.quaternion);
    Entry(b.(angularFactor := ZERO, linearFactor := ONE), CHARACTER_GROUP, ALL_MASK)
  }

  /** The bodies the world gains for a list of boxes, in order. */
  function StaticBodies(m: MathLib, boxes: seq<Box>): (r: seq<Entry>)
    ensures |r| == |boxes|
    ensures forall i | 0 <= i < |boxes| :: r[i] == StaticBody(m, boxes[i])
  {
    if boxes == [] then [] else StaticBodies(m, boxes[..|boxes| - 1]) + [StaticBody(m, boxes[|boxes| - 1])]
  }

  /** The meshes the scene receives for a list of boxes, in order. */
  function BoxMeshes(boxes: seq<Box>, material: Material): (r: seq<SceneObject>)
    ensures |r| == |boxes|
    ensures forall i | 0 <= i < |boxes| :: r[i] == BoxMesh(boxes[i].size, boxes[i].position, boxes[i].rotation, material)
  {
    if boxes == [] then [] else BoxMeshes(boxes[..|boxes| - 1], material) + [BoxMesh(boxes[|boxes| - 1].size, boxes[|boxes| - 1].position, boxes[|boxes| - 1].rotation, material)]
  }

  lemma StaticBodiesAppend(m: MathLib, xs: seq<Box>, ys: seq<Box>)
    ensures StaticBodies(m, xs + ys) == StaticBodies(m, xs) + StaticBodies(m, ys)
  {
  }

  lemma BoxMeshesAppend(xs: seq<Box>, ys: seq<Box>, material: Material)
    ensures BoxMeshes(xs + ys, material) == BoxMeshes(xs, material) + BoxMeshes(ys, material)
  {
  }

  /** A body with a new linear velocity and activation state. */
  function Driven(e: Entry, velocity: Vec3, activation: int): Entry
  {
    e.(body := e.body.(linearVelocity := velocity, activation := activation))
  }

  /** A body with a new activation state. */
  function Activated(e: Entry, activation: int): Entry
  {
    e.(body := e.body.(activation := activation))
  }

  /** The world after Bullet's step moved every body to the transform it computed. */
  function Stepped(bodies: seq<Entry>, transforms: seq<Transform>): (r: seq<Entry>)
    requires |transforms| == |bodies|
    ensures |r| == |bodies|
    ensures forall i | 0 <= i < |bodies| :: r[i].body.transform == transforms[i]
    ensures forall i | 0 <= i < |bodies| :: r[i].(body := r[i].body.(transform := bodies[i].body.transform)) == bodies[i]
    ensures forall i | 0 <= i < |bodies| :: WellFormed(bodies[i]) ==> WellFormed(r[i])
  {
    seq(|bodies|, i requires 0 <= i < |bodies| => bodies[i].(body := bodies[i].body.(transform := transforms[i])))
  }

  /** A collider whose mesh has been moved to its body's world transform. */
  function Synced(c: Collider, bodies: seq<Entry>): (r: Collider)
    requires c.body < |bodies|
    ensures r.body == c.body && r.mesh.uuid == c.mesh.uuid
    ensures r.mesh.position == bodies[c.body].body.transform.origin
    ensures r.mesh.quaternion == bodies[c.body].body.transform.rotation
    ensures r.mesh.radius == c.mesh.radius && r.mesh.height == c.mesh.height
  {
    var t := bodies[c.body].body.transform;
    Collider(c.mesh.(position := t.origin, quaternion := t.rotation), c.body)
  }

  /** `createBound(current, next, h, y)`: the box along the edge from `current` to `next`; `BoundGeometry` says what it is. */
  function Bound(m: MathLib, current: Coords, next: Coords, h: real, y: real): (b: Box)
    ensures b.position == Vec3((current.0 + next.0) / 2.0, y, (current.1 + next.1) / 2.0)
    ensures b.size.y == h
  {
    var x0, z0 := current.0, current.1;
    var x1, z1 := x0 - next.0, z0 - next.1;
    var w, d := Abs(x1), Abs(z1);
    var diagonal := w != 0.0 && d != 0.0;
    var deeper := d > w;
    var length := m.sqrt(Square(w) + Square(d));
    var rotationY := if !diagonal then 0.0 else if deeper then HALF_PI + m.atanOf(d, w) else HALF_PI - m.atanOf(w, d);
    var w1 := if diagonal && !deeper then length else w;
    var d1 := if diagonal && deeper then length else d;
    var w2 := if w1 < d1 then MIN_SIZE else w1;
    var d2 := if d1 < w2 then MIN_SIZE else d1;
    Box(Vec3(x1 / -2.0 + x0, y, z1 / -2.0 + z0), Vec3(0.0, rotationY, 0.0), Vec3(w2, h, d2))
  }

  /**
   * The box of an edge is centred on the edge's midpoint. An edge along an
   * axis gives an unrotated box; a diagonal edge gives a box whose long side is
   * the edge's length, turned about the vertical axis by a right angle plus or
   * minus the edge's slope angle. The thin side is MIN_SIZE; a zero-length
   * edge gives a box with no extent.
   */
  lemma BoundGeometry(m: MathLib, current: Coords, next: Coords, h: real, y: real)
    requires Lawful(m)
    ensures var b := Bound(m, current, next, h, y);
      var w, d := Abs(current.0 - next.0), Abs(current.1 - next.1);
      && b.rotation.x == 0.0 && b.rotation.z == 0.0
      && (w == 0.0 || d == 0.0 ==> b.rotation == ZERO)
      && (w == 0.0 && d == 0.0 ==> b.size.x == 0.0 && b.size.z == 0.0)
      && (w == 0.0 && d > 0.0 ==> b.size.x == MIN_SIZE && b.size.z == Max(d, MIN_SIZE))
      && (w > 0.0 && d == 0.0 ==> b.size.x == w && b.size.z == MIN_SIZE)
    ensures var b := Bound(m, current, next, h, y);
      var w, d := Abs(current.0 - next.0), Abs(current.1 - next.1);
      var length := m.sqrt(Square(w) + Square(d));
      w > 0.0 && d > 0.0 ==>
        && length > w && length > d
        && (d > w ==> b.size.x == MIN_SIZE && b.size.z == Max(length, MIN_SIZE)
                      && b.rotation.y == HALF_PI + m.atanOf(d, w) && HALF_PI < b.rotation.y < 2.0 * HALF_PI)
        && (d <= w ==> b.size.x == length && b.size.z == MIN_SIZE
                       && b.rotation.y == HALF_PI - m.atanOf(w, d) && 0.0 < b.rotation.y < HALF_PI)
  {
    var w, d := Abs(current.0 - next.0), Abs(current.1 - next.1);
    if w > 0.0 && d > 0.0 {
      HypotenuseExceeds(m, w, d);
    }
  }

  /**
   * A wall along the z axis, at least MIN_SIZE long, covers its edge exactly:
   * its depth runs from one corner to the other.
   */
  lemma BoundSpansEdge(m: MathLib, current: Coords, next: Coords, h: real, y: real)
    requires Lawful(m)
    requires current.0 == next.0 && Abs(current.1 - next.1) >= MIN_SIZE
    ensures var b := Bound(m, current, next, h, y);
      && b.position.z - b.size.z / 2.0 == Min(current.1, next.1)
      && b.position.z + b.size.z / 2.0 == Max(current.1, next.1)
      && b.position.x == current.0
  {
    BoundGeometry(m, current, next, h, y);
  }

  /** The walkway box lies farther out than the wall box on both axes (`borderOverflow`). */
  predicate BorderOverflow(position: Vec3, border: Vec3)
  {
    Abs(position.x) > Abs(border.x) && Abs(position.z) > Abs(border.z)
  }

  /**
   * A walkway that overflows its wall lies off both axes and farther from
   * the level's centre than the wall, measured across the ground.
   */
  lemma OverflowIsFarther(position: Vec3, border: Vec3)
    ensures BorderOverflow(position, border) ==> position.x != 0.0 && position.z != 0.0
    ensures BorderOverflow(position, border) ==>
      Square(position.x) + Square(position.z) > Square(border.x) + Square(border.z)
  {
    if BorderOverflow(position, border) {
      SquareGrows(border.x, position.x);
      SquareGrows(border.z, position.z);
    }
  }

  /** A larger magnitude has a larger square. */
  lemma SquareGrows(a: real, b: real)
    requires Abs(a) < Abs(b)
    ensures Square(a) < Square(b)
  {
    var x, y := Abs(a), Abs(b);
    calc {
      x * x;
    <= { MulMonotone(x, x, y); }
      x * y;
    == y * x;
    < { MulMonotone(y, x, y); }
      y * y;
    }
    assert Square(a) == x * x by {
      if a < 0.0 { assert x == -a; }
    }
    assert Square(b) == y * y by {
      if b < 0.0 { assert y == -b; }
    }
  }

  /**
   * The floor strip between a wall at `border` and the walkway box `walk`:
   * centred halfway between the two, keeping the walkway's height and turn,
   * 95% of half their distance wide across the walkway and, when the walkway
   * is turned, stretched by a tenth along it.
   */
  function FloorStrip(m: MathLib, border: Vec3, walk: Box): (r: Box)
    ensures r.position == Vec3((walk.position.x + border.x) / 2.0, walk.position.y, (walk.position.z + border.z) / 2.0)
    ensures r.rotation == walk.rotation && r.size.y == walk.size.y
    ensures var width := Distance(m, walk.position, border) / 2.0 * 0.95;
      var stretch := if walk.rotation.y != 0.0 then 1.1 else 1.0;
      && (walk.size.z == MIN_SIZE && r.position.x < 0.0 ==> r.size.x == walk.size.x && r.size.z == width * stretch)
      && (walk.size.z == MIN_SIZE && r.position.x >= 0.0 ==> r.size.x == walk.size.x * stretch && r.size.z == width)
      && (walk.size.z != MIN_SIZE && r.position.x < 0.0 ==> r.size.x == width && r.size.z == walk.size.z * stretch)
      && (walk.size.z != MIN_SIZE && r.position.x >= 0.0 ==> r.size.x == width * stretch && r.size.z == walk.size.z)
  {
    var lengthScale := if walk.rotation.y != 0.0 then 1.1 else 1.0;
    var distance := Distance(m, walk.position, border) / 2.0 * 0.95;
    var p := walk.position;
    var x := p.x - (p.x - border.x) / 2.0;
    var z := p.z - (p.z - border.z) / 2.0;
    var s := if walk.size.z == MIN_SIZE then walk.size.(z := distance) else walk.size.(x := distance);
    var scaled := if x < 0.0 then s.(z := s.z * lengthScale) else s.(x := s.x * lengthScale);
    Box(Vec3(x, p.y, z), walk.rotation, scaled)
  }

  /** `borders.concat([borders[0]])`: the outline closed back onto its first corner. */
  function Closed(s: seq<Coords>): (r: seq<Coords>)
    requires |s| > 0
    ensures |r| == |s| + 1 && r[..|s|] == s && r[|s|] == s[0]
  {
    s + [s[0]]
  }

  /** The walkway outline has an edge for every edge of the wall outline. */
  predicate Walkable(bounds: BoundsOptions, sidewalk: BoundsOptions)
  {
    |bounds.borders| == 0 || |bounds.borders| <= |sidewalk.borders|
  }

  /** The wall box of edge `b`. */
  function WallBox(m: MathLib, bounds: BoundsOptions, b: nat): Box
    requires b < |bounds.borders|
  {
    var border := Closed(bounds.borders);
    Bound(m, border[b], border[b + 1], bounds.height, bounds.y)
  }

  /** The walkway box of edge `b`, which only places the floor strip. */
  function WalkBox(m: MathLib, bounds: BoundsOptions, sidewalk: BoundsOptions, b: nat): Box
    requires Walkable(bounds, sidewalk) && b < |bounds.borders|
  {
    var walk := Closed(sidewalk.borders);
    Bound(m, walk[b], walk[b + 1], sidewalk.height, sidewalk.y)
  }

  /** Whether edge `b` gets no floor strip. */
  predicate Overflows(m: MathLib, bounds: BoundsOptions, sidewalk: BoundsOptions, b: nat)
    requires Walkable(bounds, sidewalk) && b < |bounds.borders|
  {
    BorderOverflow(WalkBox(m, bounds, sidewalk, b).position, WallBox(m, bounds, b).position)
  }

  /** The boxes `createBounds` adds for edge `b`: the wall, then the floor strip unless the walkway overflows. */
  function EdgeBoxes(m: MathLib, bounds: BoundsOptions, sidewalk: BoundsOptions, b: nat): (r: seq<Box>)
    requires Walkable(bounds, sidewalk) && b < |bounds.borders|
    ensures 1 <= |r| <= 2 && r[0] == WallBox(m, bounds, b)
    ensures |r| == 2 <==> !Overflows(m, bounds, sidewalk, b)
  {
    var wall := WallBox(m, bounds, b);
    if Overflows(m, bounds, sidewalk, b) then [wall]
    else [wall, FloorStrip(m, wall.position, WalkBox(m, bounds, sidewalk, b))]
  }

  /** The scratch box left behind by edge `b`: the walkway box, or the floor strip built from it. */
  function EdgeScratch(m: MathLib, bounds: BoundsOptions, sidewalk: BoundsOptions, b: nat): Box
    requires Walkable(bounds, sidewalk) && b < |bounds.borders|
  {
    if Overflows(m, bounds, sidewalk, b) then WalkBox(m, bounds, sidewalk, b)
    else FloorStrip(m, WallBox(m, bounds, b).position, WalkBox(m, bounds, sidewalk, b))
  }

  /** The boxes of the first `k` edges, in the order `createBounds` adds them. */
  function BoundsBoxes(m: MathLib, bounds: BoundsOptions, sidewalk: BoundsOptions, k: nat): seq<Box>
    requires Walkable(bounds, sidewalk) && k <= |bounds.borders|
  {
    if k == 0 then [] else BoundsBoxes(m, bounds, sidewalk, k - 1) + EdgeBoxes(m, bounds, sidewalk, k - 1)
  }

  lemma AppendAssoc<T>(a: seq<T>, b: seq<T>, c: seq<T>)
    ensures (a + b) + c == a + (b + c)
  {
  }

  /** Adding the bodies and meshes of edge `b` after those of the edges before it gives those of the first `b + 1` edges. */
  lemma BoundsStep(m: MathLib, bounds: BoundsOptions, sidewalk: BoundsOptions, b: nat,
                   bodies0: seq<Entry>, bodies1: seq<Entry>, bodies2: seq<Entry>,
                   objects0: seq<SceneObject>, objects1: seq<SceneObject>, objects2: seq<SceneObject>)
    requires Walkable(bounds, sidewalk) && b < |bounds.borders|
    requires bodies1 == bodies0 + StaticBodies(m, BoundsBoxes(m, bounds, sidewalk, b))
    requires bodies2 == bodies1 + StaticBodies(m, EdgeBoxes(m, bounds, sidewalk, b))
    requires objects1 == objects0 + BoxMeshes(BoundsBoxes(m, bounds, sidewalk, b), StaticCollider)
    requires objects2 == objects1 + BoxMeshes(EdgeBoxes(m, bounds, sidewalk, b), StaticCollider)
    ensures bodies2 == bodies0 + StaticBodies(m, BoundsBoxes(m, bounds, sidewalk, b + 1))
    ensures objects2 == objects0 + BoxMeshes(BoundsBoxes(m, bounds, sidewalk, b + 1), StaticCollider)
  {
    var done := BoundsBoxes(m, bounds, sidewalk, b);
    var added := EdgeBoxes(m, bounds, sidewalk, b);
    StaticBodiesAppend(m, done, added);
    BoxMeshesAppend(done, added, StaticCollider);
    AppendAssoc(bodies0, StaticBodies(m, done), StaticBodies(m, added));
    AppendAssoc(objects0, BoxMeshes(done, StaticCollider), BoxMeshes(added, StaticCollider));
  }

  /** Every edge gets its wall and at most one floor strip. */
  lemma {:induction false} BoundsCount(m: MathLib, bounds: BoundsOptions, sidewalk: BoundsOptions, k: nat)
    requires Walkable(bounds, sidewalk) && k <= |bounds.borders|
    ensures k <= |BoundsBoxes(m, bounds, sidewalk, k)| <= 2 * k
    ensures (forall b | 0 <= b < k :: !Overflows(m, bounds, sidewalk, b)) ==> |BoundsBoxes(m, bounds, sidewalk, k)| == 2 * k
  {
    if k > 0 {
      BoundsCount(m, bounds, sidewalk, k - 1);
    }
  }

  /** A 20 by 20 square yard with a walkway two units outside it. */
  const SQUARE_YARD: BoundsOptions := BoundsOptions([(-10.0, -10.0), (10.0, -10.0), (10.0, 10.0), (-10.0, 10.0)], 5.0, 0.0)
  const SQUARE_WALK: BoundsOptions := BoundsOptions([(-12.0, -12.0), (12.0, -12.0), (12.0, 12.0), (-12.0, 12.0)], 0.1, 0.0)

  /** No edge of the square yard has its walkway overflow the wall: both midpoints lie on an axis. */
  lemma SquareYardFits(m: MathLib, b: nat)
    requires b < 4
    ensures !Overflows(m, SQUARE_YARD, SQUARE_WALK, b)
  {
    var wall := WallBox(m, SQUARE_YARD, b);
    var walk := WalkBox(m, SQUARE_YARD, SQUARE_WALK, b);
    assert wall.position.x == 0.0 || wall.position.z == 0.0;
    assert walk.position.x == 0.0 || walk.position.z == 0.0;
  }

  /** The square yard gets four walls and four floor strips. */
  lemma SquareYardCount(m: MathLib)
    ensures |BoundsBoxes(m, SQUARE_YARD, SQUARE_WALK, 4)| == 8
  {
    forall b | 0 <= b < 4
      ensures !Overflows(m, SQUARE_YARD, SQUARE_WALK, b)
    {
      SquareYardFits(m, b);
    }
    BoundsCount(m, SQUARE_YARD, SQUARE_WALK, 4);
  }

  /** The walkway box of the square yard's first edge lies along the x axis, 24 long. */
  lemma SquareYardWalk(m: MathLib)
    requires Lawful(m)
    ensures WalkBox(m, SQUARE_YARD, SQUARE_WALK, 0) == Box(Vec3(0.0, 0.0, -12.0), ZERO, Vec3(24.0, 0.1, MIN_SIZE))
  {
    BoundGeometry(m, (-12.0, -12.0), (12.0, -12.0), 0.1, 0.0);
  }

  /** The first floor strip of the square yard lies halfway between wall and walkway, 0.95 units wide across them. */
  lemma SquareYardStrip(m: MathLib)
    requires Lawful(m)
    ensures EdgeBoxes(m, SQUARE_YARD, SQUARE_WALK, 0)[1] == Box(Vec3(0.0, 0.0, -11.0), ZERO, Vec3(24.0, 0.1, 0.95))
  {
    SquareYardFits(m, 0);
    SquareYardWalk(m);
    var walk := Box(Vec3(0.0, 0.0, -12.0), ZERO, Vec3(24.0, 0.1, MIN_SIZE));
    var wall := Vec3(0.0, 0.0, -10.0);
    assert WallBox(m, SQUARE_YARD, 0).position == wall;
    assert SquaredDistance(walk.position, wall) == Square(2.0);
    assert Distance(m, walk.position, wall) == 2.0;
    assert FloorStrip(m, wall, walk) == Box(Vec3(0.0, 0.0, -11.0), ZERO, Vec3(24.0, 0.1, 0.95));
  }

  class AmmoPhysics {
    const math: MathLib
    var gravity: Vec3

    /** Registered characters by mesh uuid. */
    var colliders: map<string, Collider>
    /** The reusable velocity vector. */
    var linearVelocity: Vec3
    /** The reusable position, rotation and size from which boxes are built. */
    var position: Vec3
    var rotation: Vec3
    var size: Vec3

    /** The player's body, once `setPlayer` has run. */
    var player: Option<nat>
    /** The bodies in the Bullet world, in the order they were added. */
    var bodies: seq<Entry>
    /** The `add:object` events dispatched so far. */
    var objects: seq<SceneObject>
    var paused: bool
    var destroyed: bool

    ghost predicate Valid()
      reads this
    {
      && (forall i | 0 <= i < |bodies| :: WellFormed(bodies[i]))
      && (forall k | k in colliders ::
            colliders[k].mesh.uuid == k && colliders[k].body < |bodies|
            && bodies[colliders[k].body].group == CHARACTER_GROUP)
      && (player.Some? ==> player.value < |bodies| && bodies[player.value].group == CHARACTER_GROUP)
    }

    /** Every registered mesh sits where its body is. */
    ghost predicate MeshesFollowBodies()
      reads this
      requires Valid()
    {
      forall k | k in colliders ::
        colliders[k].mesh.position == bodies[colliders[k].body].body.transform.origin
        && colliders[k].mesh.quaternion == bodies[colliders[k].body].body.transform.rotation
    }

    /** A world with gravity pulling down along y and nothing in it. */
    constructor (m: MathLib)
      ensures Valid()
      ensures math == m && gravity == Vec3(0.0, GRAVITY, 0.0)
      ensures colliders == map[] && bodies == [] && objects == [] && player == None
      ensures linearVelocity == ZERO && position == ZERO && rotation == ZERO && size == ZERO
      ensures !paused && !destroyed
    {
      math := m;
      gravity := Vec3(0.0, GRAVITY, 0.0);
      colliders := map[];
      linearVelocity := ZERO;
      position := ZERO;
      rotation := ZERO;
      size := ZERO;
      player := None;
      bodies := [];
      objects := [];
      paused := false;
      destroyed := false;
    }

    /** `createStaticCollider(material)`: a massless box from the scratch vectors, added to the world and the scene. */
    method CreateStaticCollider(material: Material)
      requires Valid() && !destroyed
      modifies this`bodies, this`objects
      ensures Valid()
      ensures bodies == old(bodies) + [StaticBody(math, Box(position, rotation, size))]
      ensures objects == old(objects) + [BoxMesh(size, position, rotation, material)]
    {
      var box := Box(position, rotation, size);
      bodies := bodies + [StaticBody(math, box)];
      objects := objects + [BoxMesh(size, position, rotation, material)];
    }

    /** `createCharacterCollider(mesh, mass)`: a capsule body for the mesh, registered under its uuid. */
    method CreateCharacterCollider(mesh: Mesh, mass: real)
      requires Valid() && !destroyed
      modifies this`colliders, this`bodies, this`objects
      ensures Valid()
      ensures bodies == old(bodies) + [CharacterBody(mesh, mass)]
      ensures colliders == old(colliders)[mesh.uuid := Collider(mesh, |old(bodies)|)]
      ensures objects == old(objects) + [CharacterMesh(mesh.uuid)]
    {
      colliders := colliders[mesh.uuid := Collider(mesh, |bodies|)];
      bodies := bodies + [CharacterBody(mesh, mass)];
      objects := objects + [CharacterMesh(mesh.uuid)];
    }

    /** `createBound(current, next, h, y = 0)`: sets the scratch vectors to the edge's box. */
    method CreateBound(current: Coords, next: Coords, h: real, y: real := 0.0)
      modifies this`position, this`rotation, this`size
      ensures Box(position, rotation, size) == Bound(math, current, next, h, y)
    {
      rotation := ZERO;
      var x0 := current.0;
      var z0 := current.1;
      var x1 := x0 - next.0;
      var z1 := z0 - next.1;
      var x := x1 / -2.0 + x0;
      var z := z1 / -2.0 + z0;
      var w := Abs(x1);
      var d := Abs(z1);
      if w != 0.0 && d != 0.0 {
        var deeper := d > w;
        var length := math.sqrt(Square(w) + Square(d));
        rotation := Vec3(0.0, if deeper then HALF_PI + math.atanOf(d, w) else HALF_PI - math.atanOf(w, d), 0.0);
        if deeper {
          d := length;
        } else {
          w := length;
        }
      }
      w := if w < d then MIN_SIZE else w;
      d := if d < w then MIN_SIZE else d;
      position := Vec3(x, y, z);
      size := Vec3(w, h, d);
    }

    /**
     * `createBounds(bounds, sidewalk)`: for every edge of the level's outline,
     * a wall box and, unless the walkway overflows it, a floor strip.
     */
    method CreateBounds(bounds: BoundsOptions, sidewalk: BoundsOptions)
      requires Valid() && !destroyed
      requires Walkable(bounds, sidewalk)
      modifies this`position, this`rotation, this`size, this`bodies, this`objects
      ensures Valid()
      ensures bodies == old(bodies) + StaticBodies(math, BoundsBoxes(math, bounds, sidewalk, |bounds.borders|))
      ensures objects == old(objects) + BoxMeshes(BoundsBoxes(math, bounds, sidewalk, |bounds.borders|), StaticCollider)
      ensures |bounds.borders| == 0 ==> position == old(position) && rotation == old(rotation) && size == old(size)
      ensures |bounds.borders| > 0 ==> Box(position, rotation, size) == EdgeScratch(math, bounds, sidewalk, |bounds.borders| - 1)
    {
      var n := |bounds.borders|;
      assert bodies + [] == bodies && objects + [] == objects;
      if n == 0 {
        return;
      }
      var border := Closed(bounds.borders);
      var walk := Closed(sidewalk.borders);
      for b := 0 to n
        invariant Built(bounds, sidewalk, b, old(bodies), old(objects))
      {
        CreateEdge(bounds, sidewalk, border, walk, b, old(bodies), old(objects));
      }
    }

    /**
     * After the first `k` edges of `createBounds`: the world is still valid,
     * their boxes follow the bodies and meshes `bodies0` and `objects0` there
     * were before, and the scratch vectors hold what edge `k - 1` left in them.
     */
    ghost predicate Built(bounds: BoundsOptions, sidewalk: BoundsOptions, k: nat, bodies0: seq<Entry>, objects0: seq<SceneObject>)
      reads this
      requires Walkable(bounds, sidewalk) && k <= |bounds.borders|
    {
      && Valid()
      && bodies == bodies0 + StaticBodies(math, BoundsBoxes(math, bounds, sidewalk, k))
      && objects == objects0 + BoxMeshes(BoundsBoxes(math, bounds, sidewalk, k), StaticCollider)
      && (k > 0 ==> Box(position, rotation, size) == EdgeScratch(math, bounds, sidewalk, k - 1))
    }

    /**
     * One turn of `createBounds`' loop: the wall of edge `b` and, unless the
     * walkway overflows it, its floor strip.
     */
    method CreateEdge(bounds: BoundsOptions, sidewalk: BoundsOptions, border: seq<Coords>, walk: seq<Coords>, b: nat,
                      ghost bodies0: seq<Entry>, ghost objects0: seq<SceneObject>)
      requires !destroyed && Walkable(bounds, sidewalk) && b < |bounds.borders|
      requires border == Closed(bounds.borders) && walk == Closed(sidewalk.borders)
      requires Built(bounds, sidewalk, b, bodies0, objects0)
      modifies this`position, this`rotation, this`size, this`bodies, this`objects
      ensures Built(bounds, sidewalk, b + 1, bodies0, objects0)
    {
      ghost var before := bodies;
      ghost var beforeObjects := objects;
      CreateWall(border[b], border[b + 1], bounds.height, bounds.y);
      ghost var wall := Box(position, rotation, size);
      var borderPosition := position;
      CreateWalkway(walk[b], walk[b + 1], sidewalk.height, sidewalk.y, borderPosition);
      ghost var walkBox := Bound(math, walk[b], walk[b + 1], sidewalk.height, sidewalk.y);
      if !BorderOverflow(walkBox.position, borderPosition) {
        ghost var strip := FloorStrip(math, borderPosition, walkBox);
        StaticBodiesAppend(math, [wall], [strip]);
        BoxMeshesAppend([wall], [strip], StaticCollider);
      }
      BoundsStep(math, bounds, sidewalk, b, bodies0, before, bodies, objects0, beforeObjects, objects);
    }

    /** The wall half of a `createBounds` turn: the edge's box, added as a static collider. */
    method CreateWall(current: Coords, next: Coords, h: real, y: real)
      requires Valid() && !destroyed
      modifies this`position, this`rotation, this`size, this`bodies, this`objects
      ensures Valid()
      ensures Box(position, rotation, size) == Bound(math, current, next, h, y)
      ensures bodies == old(bodies) + StaticBodies(math, [Bound(math, current, next, h, y)])
      ensures objects == old(objects) + BoxMeshes([Bound(math, current, next, h, y)], StaticCollider)
    {
      CreateBound(current, next, h, y);
      CreateStaticCollider(StaticCollider);
    }

    /**
     * The walkway half of a `createBounds` turn: the walkway's box, and unless
     * it overflows the wall at `border`, the floor strip made from it.
     */
    method CreateWalkway(current: Coords, next: Coords, h: real, y: real, border: Vec3)
      requires Valid() && !destroyed
      modifies this`position, this`rotation, this`size, this`bodies, this`objects
      ensures Valid()
      ensures var walk := Bound(math, current, next, h, y);
        if BorderOverflow(walk.position, border) then
          && Box(position, rotation, size) == walk
          && bodies == old(bodies) && objects == old(objects)
        else
          && Box(position, rotation, size) == FloorStrip(math, border, walk)
          && bodies == old(bodies) + StaticBodies(math, [FloorStrip(math, border, walk)])
          && objects == old(objects) + BoxMeshes([FloorStrip(math, border, walk)], StaticCollider)
    {
      CreateBound(current, next, h, y);
      if BorderOverflow(position, border) {
        return;
      }
      PlaceStrip(border);
      CreateStaticCollider(StaticCollider);
    }

    /** The floor strip step of `createBounds`: moves and resizes the scratch walkway box into the strip next to the wall at `border`. */
    method PlaceStrip(border: Vec3)
      modifies this`position, this`size
      ensures Box(position, rotation, size) == FloorStrip(math, border, Box(old(position), rotation, old(size)))
    {
      var lengthScale := if rotation.y != 0.0 then 1.1 else 1.0;
      var distance := Distance(math, position, border) / 2.0 * 0.95;
      position := position.(x := position.x - (position.x - border.x) / 2.0);
      position := position.(z := position.z - (position.z - border.z) / 2.0);
      if size.z == MIN_SIZE {
        size := size.(z := distance);
      } else {
        size := size.(x := distance);
      }
      if position.x < 0.0 {
        size := size.(z := size.z * lengthScale);
      } else {
        size := size.(x := size.x * lengthScale);
      }
    }

    /** `createGround(min, max)`: a thin transparent box spanning the rectangle between two corners. */
    method CreateGround(min: Coords, max: Coords)
      requires Valid() && !destroyed
      modifies this`position, this`size, this`bodies, this`objects
      ensures Valid()
      ensures size == Vec3(Abs(min.0 - max.0), MIN_SIZE, Abs(min.1 - max.1))
      ensures position == Vec3((min.0 + max.0) / 2.0, 0.0, (min.1 + max.1) / 2.0)
      ensures position.x - size.x / 2.0 == Min(min.0, max.0) && position.x + size.x / 2.0 == Max(min.0, max.0)
      ensures position.z - size.z / 2.0 == Min(min.1, max.1) && position.z + size.z / 2.0 == Max(min.1, max.1)
      ensures bodies == old(bodies) + [StaticBody(math, Box(position, rotation, size))]
      ensures objects == old(objects) + [BoxMesh(size, position, rotation, Transparent)]
    {
      size := Vec3(Abs(min.0 - max.0), MIN_SIZE, Abs(min.1 - max.1));
      position := Vec3((min.0 + max.0) / 2.0, 0.0, (min.1 + max.1) / 2.0);
      CreateStaticCollider(Transparent);
    }

    /** `setPlayer(mesh)`: registers the player's 90 kg capsule and puts it to sleep. */
    method SetPlayer(mesh: Mesh)
      requires Valid() && !destroyed
      modifies this`colliders, this`bodies, this`objects, this`player
      ensures Valid()
      ensures player == Some(|old(bodies)|)
      ensures bodies == old(bodies) + [Activated(CharacterBody(mesh, PLAYER_MASS), DISABLE)]
      ensures colliders == old(colliders)[mesh.uuid := Collider(mesh, |old(bodies)|)]
      ensures objects == old(objects) + [CharacterMesh(mesh.uuid)]
    {
      CreateCharacterCollider(mesh, PLAYER_MASS);
      var p := colliders[mesh.uuid].body;
      player := Some(p);
      bodies := bodies[p := Activated(bodies[p], DISABLE)];
    }

    /** `move(direction)`: the player's body takes the direction as its velocity and wakes up. */
    method Move(direction: Vec3)
      requires Valid() && player.Some?
      modifies this`linearVelocity, this`bodies
      ensures Valid()
      ensures linearVelocity == direction
      ensures bodies == old(bodies)[player.value := Driven(old(bodies)[player.value], direction, ENABLE)]
    {
      linearVelocity := direction;
      var p := player.value;
      bodies := bodies[p := Driven(bodies[p], linearVelocity, ENABLE)];
    }

    /** `stop()`: the player's body comes to rest and sleeps. */
    method Stop()
      requires Valid() && player.Some?
      modifies this`linearVelocity, this`bodies
      ensures Valid()
      ensures linearVelocity == ZERO
      ensures bodies == old(bodies)[player.value := Driven(old(bodies)[player.value], ZERO, DISABLE)]
    {
      linearVelocity := ZERO;
      var p := player.value;
      bodies := bodies[p := Driven(bodies[p], linearVelocity, DISABLE)];
    }

    /**
     * `update(delta)`: unless paused, Bullet steps the world (its result is
     * `transforms`, one per body) and every registered mesh is moved to its
     * body's new transform.
     */
    method Update(delta: real, transforms: seq<Transform>)
      requires Valid() && (!paused ==> !destroyed)
      requires |transforms| == |bodies|
      modifies this`bodies, this`colliders
      ensures Valid()
      ensures old(paused) ==> bodies == old(bodies) && colliders == old(colliders)
      ensures !old(paused) ==> bodies == Stepped(old(bodies), transforms)
      ensures !old(paused) ==> colliders.Keys == old(colliders).Keys
      ensures !old(paused) ==> forall k | k in colliders :: colliders[k] == Synced(old(colliders)[k], bodies)
      ensures !old(paused) ==> MeshesFollowBodies()
    {
      if paused {
        return;
      }
      bodies := Stepped(bodies, transforms);
      SyncMeshes();
    }

    /** The `colliders.forEach` of `update`: every registered mesh takes its body's current transform. */
    method SyncMeshes()
      requires forall k | k in colliders :: colliders[k].body < |bodies|
      modifies this`colliders
      ensures colliders.Keys == old(colliders).Keys
      ensures forall k | k in colliders :: colliders[k] == Synced(old(colliders)[k], bodies)
    {
      var pending := colliders.Keys;
      while pending != {}
        invariant pending <= old(colliders).Keys && colliders.Keys == old(colliders).Keys
        invariant forall k | k in colliders :: colliders[k] == if k in pending then old(colliders)[k] else Synced(old(colliders)[k], bodies)
        decreases pending
      {
        var k :| k in pending;
        var c := colliders[k];
        var t := bodies[c.body].body.transform;
        colliders := colliders[k := Collider(c.mesh.(position := t.origin, quaternion := t.rotation), c.body)];
        pending := pending - {k};
      }
    }

    /** `destroy()`: frees the world, forgets every collider and pauses. */
    method Destroy()
      requires Valid() && !destroyed
      modifies this`colliders, this`paused, this`destroyed
      ensures Valid()
      ensures destroyed && paused && colliders == map[]
    {
      destroyed := true;
      colliders := map[];
      paused := true;
    }

    /** The `pause` setter: the player's body sleeps while paused and wakes otherwise. */
    method SetPause(pause: bool)
      requires Valid() && player.Some?
      modifies this`bodies, this`paused
      ensures Valid()
      ensures paused == pause
      ensures bodies == old(bodies)[player.value := Activated(old(bodies)[player.value], if pause then DISABLE else ENABLE)]
    {
      var p := player.value;
      bodies := bodies[p := Activated(bodies[p], if pause then DISABLE else ENABLE)];
      paused := pause;
    }
  }
}
