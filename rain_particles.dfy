/**
 * The rain worker: rain drops are spawned in batches as time accumulates,
 * fall, fade in along a spline, slow down under a drag, die when their life
 * runs out, and are handed to the renderer farthest-from-camera first, as
 * flat position and opacity arrays.
 *
 * The module-level `rainDrops`, `timeElapsed` and camera `position` are the
 * fields of one `Rain` object. `Math.random()` is the sequence of draws
 * `draws`, and the alpha spline's `getValue` is the function value `spline`.
 */
module RainParticles {

  import opened Geometry
  import Numbers

  /** The control points of the alpha spline: no opacity for the first half of a life, then half opacity. */
  const SPLINE_POINTS: seq<(real, real)> := [(0.0, 0.0), (0.5, 0.0), (0.8, 0.5), (1.0, 0.5)]
  /** Drops spawned per hundredth of a second. */
  const PER_TICK: int := 50

  datatype Drop = Drop(velocity: Vec3, position: Vec3, maxLife: real, alpha: real, life: real)

  /** `Math.sign`. */
  function Sign(x: real): real
  {
    if x > 0.0 then 1.0 else if x < 0.0 then -1.0 else 0.0
  }

  /**
   * One component of the drag of `updateParticles`: the velocity component
   * scaled by the frame time and by 0.1, but never larger than the component
   * itself, with its sign.
   */
  function Drag(x: real, delta: real): real
  {
    var scaled := x * delta * 0.1;
    Sign(x) * Min(Abs(scaled), Abs(x))
  }

  /** For a frame of at most ten seconds the drag takes exactly a tenth of the velocity per second off it. */
  lemma DragIsProportional(x: real, delta: real)
    requires 0.0 <= delta <= 10.0
    ensures x - Drag(x, delta) == x * (1.0 - 0.1 * delta)
  {
    var k := delta * 0.1;
    assert x * delta * 0.1 == x * k;
    if x > 0.0 {
      assert 0.0 <= x * k by { MulMonotone(x, 0.0, k); }
      assert x * k <= x by { MulMonotone(x, k, 1.0); }
      assert Min(x * k, Abs(x)) == x * k;
      assert Drag(x, delta) == 1.0 * (x * k);
    } else if x < 0.0 {
      var m := -x;
      assert 0.0 <= m * k by { MulMonotone(m, 0.0, k); }
      assert m * k <= m by { MulMonotone(m, k, 1.0); }
      assert x * k == -(m * k);
      assert Abs(x * delta * 0.1) == m * k;
      assert Min(m * k, Abs(x)) == m * k;
      assert Drag(x, delta) == -1.0 * (m * k);
    } else {
      assert Drag(x, delta) == 0.0 == x * k;
    }
    assert x * (1.0 - 0.1 * delta) == x - x * k;
  }

  /** Whatever the frame time, the drag slows a velocity component down without reversing it. */
  lemma DragNeverReverses(x: real, delta: real)
    requires delta >= 0.0
    ensures x >= 0.0 ==> 0.0 <= x - Drag(x, delta) <= x
    ensures x <= 0.0 ==> x <= x - Drag(x, delta) <= 0.0
  {
    var scaled := x * delta * 0.1;
    if x > 0.0 {
      MulMonotone(x, 0.0, delta * 0.1);
      assert scaled == x * (delta * 0.1);
    } else if x < 0.0 {
      MulMonotone(-x, 0.0, delta * 0.1);
      assert -scaled == (-x) * (delta * 0.1);
    }
  }

  /** The velocity after a frame's drag. */
  function Slowed(v: Vec3, delta: real): Vec3
  {
    Vec3(v.x - Drag(v.x, delta), v.y - Drag(v.y, delta), v.z - Drag(v.z, delta))
  }

  /**
   * A new drop from its four draws: how far below the top it starts (which
   * also shortens its life), its fall speed, and where it is over the level.
   */
  function NewDrop(offset: real, speed: real, u: real, w: real, minCoords: Coords, maxCoords: Coords, top: real): (d: Drop)
    requires 0.0 <= offset < 1.0 && 0.0 <= speed < 1.0 && 0.0 <= u < 1.0 && 0.0 <= w < 1.0
    ensures 3.75 < d.maxLife <= 5.25 && d.life == d.maxLife && d.alpha == 0.0
    ensures d.velocity.x == 0.0 && d.velocity.z == 0.0 && -75.0 < d.velocity.y <= -50.0
    ensures top - 50.0 < d.position.y <= top
    ensures minCoords.0 < maxCoords.0 ==> minCoords.0 <= d.position.x < maxCoords.0
    ensures minCoords.1 < maxCoords.1 ==> minCoords.1 <= d.position.z < maxCoords.1
  {
    var life := 5.25 - offset * 1.5;
    var velocity := speed * 25.0 + 50.0;
    Drop(Vec3(0.0, -velocity, 0.0),
         Vec3(Numbers.Random(minCoords.0, maxCoords.0, u), top - offset * 50.0, Numbers.Random(minCoords.1, maxCoords.1, w)),
         life, 0.0, life)
  }

  /**
   * One drop through one frame of `updateParticles`: its life shrinks by the
   * frame time; a drop still alive moves by its velocity over the frame,
   * takes its opacity from the spline at the fraction of its life spent, and
   * is slowed by the drag.
   */
  function Step(d: Drop, delta: real, spline: real -> real): (r: Drop)
    requires d.maxLife > 0.0
    ensures r.life == d.life - delta && r.maxLife == d.maxLife
    ensures r.life <= 0.0 ==> r == d.(life := d.life - delta)
    ensures r.life > 0.0 ==> r.velocity == Slowed(d.velocity, delta) && r.position == Add(d.position, Scale(d.velocity, delta))
    ensures r.life > 0.0 ==> r.alpha == spline(1.0 - r.life / d.maxLife)
  {
    var life := d.life - delta;
    if life <= 0.0 then d.(life := life)
    else
      d.(life := life,
         position := Add(d.position, Scale(d.velocity, delta)),
         alpha := spline(1.0 - life / d.maxLife),
         velocity := Slowed(d.velocity, delta))
  }

  /** `filter(particle => particle.life > 0)`. */
  function Living(s: seq<Drop>): (r: seq<Drop>)
    ensures forall d :: d in r <==> d in s && d.life > 0.0
    ensures multiset(r) <= multiset(s)
  {
    if |s| == 0 then []
    else
      assert s == [s[0]] + s[1..];
      if s[0].life > 0.0 then [s[0]] + Living(s[1..])
      else Living(s[1..])
  }

  /** How far a drop is from the camera, for ordering. */
  function Key(d: Drop, camera: Vec3): real
  {
    SquaredDistance(camera, d.position)
  }

  /** Farthest first: no drop is closer to the camera than the one after it. */
  predicate FarthestFirst(s: seq<Drop>, camera: Vec3)
  {
    forall i :: 0 <= i < |s| - 1 ==> Key(s[i], camera) >= Key(s[i + 1], camera)
  }

  /** `x` placed before the first drop no farther from the camera than it. */
  function Insert(x: Drop, s: seq<Drop>, camera: Vec3): (r: seq<Drop>)
    ensures multiset(r) == multiset(s) + multiset{x}
    ensures |r| == |s| + 1
    ensures |s| > 0 ==> r[0] == x || r[0] == s[0]
    ensures FarthestFirst(s, camera) ==> FarthestFirst(r, camera)
  {
    if |s| == 0 then [x]
    else if Key(x, camera) >= Key(s[0], camera) then [x] + s
    else
      assert s == [s[0]] + s[1..];
      [s[0]] + Insert(x, s[1..], camera)
  }

  /**
   * The comparator sort of `updateParticles`: descending squared distance to
   * the camera, as an insertion sort.
   */
  function SortByDistance(s: seq<Drop>, camera: Vec3): (r: seq<Drop>)
    ensures FarthestFirst(r, camera)
    ensures multiset(r) == multiset(s)
  {
    if |s| == 0 then []
    else
      assert s == [s[0]] + s[1..];
      Insert(s[0], SortByDistance(s[1..], camera), camera)
  }

  /** Every drop through one frame, in place; a frame keeps every drop's life span. */
  function Stepped(s: seq<Drop>, delta: real, spline: real -> real): (r: seq<Drop>)
    requires forall i :: 0 <= i < |s| ==> s[i].maxLife > 0.0
    ensures |r| == |s|
    ensures forall i :: 0 <= i < |s| ==> r[i] == Step(s[i], delta, spline)
    ensures LifeSpans(s) ==> LifeSpans(r)
  {
    seq(|s|, i requires 0 <= i < |s| => Step(s[i], delta, spline))
  }

  /**
   * The drops one batch of `n` spawns, in order: drop `k` uses draws `4k` to
   * `4k + 3`, and each has a life span a new drop can have.
   */
  function Batch(n: nat, draws: seq<real>, minCoords: Coords, maxCoords: Coords, top: real): (r: seq<Drop>)
    requires 4 * n <= |draws| && forall i :: 0 <= i < |draws| ==> 0.0 <= draws[i] < 1.0
    ensures |r| == n && LifeSpans(r)
    ensures forall k :: 0 <= k < n ==>
      r[k] == NewDrop(draws[4 * k], draws[4 * k + 1], draws[4 * k + 2], draws[4 * k + 3], minCoords, maxCoords, top)
  {
    if n == 0 then []
    else
      var k := n - 1;
      Batch(k, draws, minCoords, maxCoords, top)
        + [NewDrop(draws[4 * k], draws[4 * k + 1], draws[4 * k + 2], draws[4 * k + 3], minCoords, maxCoords, top)]
  }

  /** How many drops `addParticles` spawns for the accumulated time: fifty per whole hundredth of a second. */
  function BatchSize(timeElapsed: real): (n: nat)
    ensures timeElapsed >= 0.0 ==> n as int == (timeElapsed * 100.0).Floor * PER_TICK
  {
    var time := (timeElapsed * 100.0).Floor;
    if time * PER_TICK > 0 then time * PER_TICK else 0
  }

  /** What is left of an accumulated time once its whole hundredths of a second are taken off. */
  function Remainder(t: real): real
  {
    t - (t * 100.0).Floor as real / 100.0
  }

  class Rain {
    const spline: real -> real

    var drops: seq<Drop>
    var timeElapsed: real
    var camera: Vec3

    /** Every drop has the life it was given at birth, between 3.75 and 5.25 seconds. */
    ghost predicate Valid()
      reads this
    {
      LifeSpans(drops)
    }

    constructor (alpha: real -> real)
      ensures Valid() && spline == alpha && drops == [] && timeElapsed == 0.0 && camera == ZERO
    {
      spline := alpha;
      drops := [];
      timeElapsed := 0.0;
      camera := ZERO;
    }

    /**
     * `addParticles(params)`: the whole hundredths of a second accumulated
     * are taken off `timeElapsed`, leaving less than one, and fifty drops per
     * hundredth are appended.
     */
    method AddParticles(draws: seq<real>, minCoords: Coords, maxCoords: Coords, top: real)
      requires Valid()
      requires 4 * BatchSize(timeElapsed) <= |draws| && forall i :: 0 <= i < |draws| ==> 0.0 <= draws[i] < 1.0
      modifies this`drops, this`timeElapsed
      ensures Valid()
      ensures 0.0 <= timeElapsed < 0.01
      ensures timeElapsed == Remainder(old(timeElapsed))
      ensures drops == old(drops) + Batch(BatchSize(old(timeElapsed)), draws, minCoords, maxCoords, top)
    {
      var time := (timeElapsed * 100.0).Floor;
      ghost var n := BatchSize(timeElapsed);
      TickRemainder(timeElapsed);
      timeElapsed := timeElapsed - time as real / 100.0;
      ghost var left := timeElapsed;
      var particles := time * PER_TICK;
      var i := 0;
      while i < particles
        invariant 0 <= i <= n && (particles > 0 ==> particles == n)
        invariant drops == old(drops) + Batch(i, draws, minCoords, maxCoords, top)
        invariant Valid() && timeElapsed == left
      {
        var d := NewDrop(draws[4 * i], draws[4 * i + 1], draws[4 * i + 2], draws[4 * i + 3], minCoords, maxCoords, top);
        drops := drops + [d];
        i := i + 1;
      }
    }

    /**
     * `updateParticles(params)`: every drop goes through one frame in place,
     * then the dead ones are dropped and the rest sorted farthest first.
     */
    method UpdateParticles(delta: real)
      requires Valid()
      modifies this`drops
      ensures Valid()
      ensures drops == SortByDistance(Living(Stepped(old(drops), delta, spline)), camera)
      ensures FarthestFirst(drops, camera) && forall d :: d in drops ==> d.life > 0.0
    {
      StepAll(delta);
      LivingLifeSpans(drops, camera);
      var living := Living(drops);
      drops := SortByDistance(living, camera);
      forall d | d in drops
        ensures d.life > 0.0
      {
        assert d in multiset(drops);
        assert d in living;
      }
    }

    /** The loop of `updateParticles`: every drop through one frame, in place. */
    method StepAll(delta: real)
      requires Valid()
      modifies this`drops
      ensures drops == Stepped(old(drops), delta, spline)
      ensures Valid()
    {
      ghost var start := drops;
      for p := 0 to |drops|
        invariant |drops| == |start|
        invariant forall k :: 0 <= k < p ==> drops[k] == Step(start[k], delta, spline)
        invariant forall k :: p <= k < |drops| ==> drops[k] == start[k]
      {
        drops := drops[p := Step(drops[p], delta, spline)];
      }
    }

    /** `updateGeometry()`: three coordinates and one opacity per drop, in drop order. */
    method UpdateGeometry() returns (positions: seq<real>, opacity: seq<real>)
      ensures |positions| == 3 * |drops| && |opacity| == |drops|
      ensures forall p :: 0 <= p < |drops| ==>
        && positions[3 * p] == drops[p].position.x
        && positions[3 * p + 1] == drops[p].position.y
        && positions[3 * p + 2] == drops[p].position.z
        && opacity[p] == drops[p].alpha
    {
      positions := [];
      opacity := [];
      for p := 0 to |drops|
        invariant |positions| == 3 * p && |opacity| == p
        invariant forall q :: 0 <= q < p ==>
          && positions[3 * q] == drops[q].position.x
          && positions[3 * q + 1] == drops[q].position.y
          && positions[3 * q + 2] == drops[q].position.z
          && opacity[q] == drops[q].alpha
      {
        var d := drops[p];
        positions := positions + [d.position.x, d.position.y, d.position.z];
        opacity := opacity + [d.alpha];
      }
    }

    /**
     * `updateRainParticles(params)`: the camera position is recorded, the
     * frame time accumulated, drops spawned and moved, and the buffers built.
     */
    method UpdateRainParticles(cameraNow: Vec3, delta: real, draws: seq<real>, minCoords: Coords, maxCoords: Coords, top: real)
      returns (positions: seq<real>, opacity: seq<real>)
      requires Valid()
      requires 4 * BatchSize(timeElapsed + delta) <= |draws| && forall i :: 0 <= i < |draws| ==> 0.0 <= draws[i] < 1.0
      modifies this`drops, this`timeElapsed, this`camera
      ensures Valid()
      ensures camera == cameraNow && 0.0 <= timeElapsed < 0.01
      ensures timeElapsed == Remainder(old(timeElapsed) + delta)
      ensures var batch := Batch(BatchSize(old(timeElapsed) + delta), draws, minCoords, maxCoords, top);
        drops == SortByDistance(Living(Stepped(old(drops) + batch, delta, spline)), cameraNow)
      ensures FarthestFirst(drops, camera) && forall d :: d in drops ==> d.life > 0.0
      ensures |positions| == 3 * |drops| && |opacity| == |drops|
      ensures forall p :: 0 <= p < |drops| ==>
        && positions[3 * p] == drops[p].position.x
        && positions[3 * p + 1] == drops[p].position.y
        && positions[3 * p + 2] == drops[p].position.z
        && opacity[p] == drops[p].alpha
    {
      camera := cameraNow;
      var total := timeElapsed + delta;
      timeElapsed := total;
      AddParticles(draws, minCoords, maxCoords, top);
      ghost var left := timeElapsed;
      assert left == Remainder(old(timeElapsed) + delta) by {
        assert left == Remainder(total);
        assert total == old(timeElapsed) + delta;
      }
      UpdateParticles(delta);
      positions, opacity := UpdateGeometry();
    }
  }

  /**
   * After a frame, every drop left is the frame's step of some drop that was
   * there before, alive, with exactly the frame time less to live.
   */
  lemma SurvivorsAged(s: seq<Drop>, delta: real, spline: real -> real, camera: Vec3)
    requires forall i :: 0 <= i < |s| ==> s[i].maxLife > 0.0
    ensures var r := SortByDistance(Living(Stepped(s, delta, spline)), camera);
      forall d :: d in r ==> d.life > 0.0 && exists k :: 0 <= k < |s| && d == Step(s[k], delta, spline) && d.life == s[k].life - delta
  {
    var stepped := Stepped(s, delta, spline);
    var living := Living(stepped);
    var r := SortByDistance(living, camera);
    forall d | d in r
      ensures d.life > 0.0 && exists k :: 0 <= k < |s| && d == Step(s[k], delta, spline) && d.life == s[k].life - delta
    {
      assert d in multiset(r);
      assert d in living;
      var k :| 0 <= k < |stepped| && stepped[k] == d;
      assert d == Step(s[k], delta, spline);
    }
  }

  /** Every drop's life span is one a new drop can have. */
  predicate LifeSpans(s: seq<Drop>)
  {
    forall i :: 0 <= i < |s| ==> 3.75 < s[i].maxLife <= 5.25
  }

  /** The drops left after filtering and sorting keep their life spans. */
  lemma LivingLifeSpans(t: seq<Drop>, camera: Vec3)
    requires LifeSpans(t)
    ensures LifeSpans(SortByDistance(Living(t), camera))
  {
    var living := Living(t);
    var r := SortByDistance(living, camera);
    forall i | 0 <= i < |r|
      ensures 3.75 < r[i].maxLife <= 5.25
    {
      assert r[i] in multiset(r);
      assert r[i] in living;
      var k :| 0 <= k < |t| && t[k] == r[i];
    }
  }

  /** Taking the whole hundredths off a time leaves less than a hundredth, and never less than nothing. */
  lemma TickRemainder(t: real)
    ensures 0.0 <= Remainder(t) < 0.01
  {
    var f := (t * 100.0).Floor as real;
    assert f <= t * 100.0 < f + 1.0;
    assert t - f / 100.0 == (t * 100.0 - f) / 100.0;
  }
}
