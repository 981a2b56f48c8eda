/**
 * The JavaScript weapon: a ray cast from the centre of the screen against the
 * enemies' hit volumes, the classification of the volume it meets into a head,
 * body or leg hit, and the aiming state that moves the ray's near plane.
 *
 * The three.js ray cast is not modelled: its result, the volumes it meets in
 * order of distance, is a parameter. Sounds are counted, and the delayed
 * `Events.dispatch` of a hit is a queue of pending hits that `Deliver`
 * completes.
 */
module WeaponJs {

  import opened Geometry
  import opened Optional

  const AIM_NEAR: real := 3.0
  const NEAR: real := 4.5
  const DAMAGE: int := 10

  /** A hit volume (a collider mesh), with its position and the enemy of its `userData`. */
  datatype Target = Target(id: nat, position: Vec3, enemy: nat)

  /** A hit whose event waits `delay` milliseconds before it is dispatched with the enemy. */
  datatype Hit = Hit(delay: int, event: string, enemy: nat)

  /** JavaScript's `a % 6` on integers: the remainder takes the sign of the dividend. */
  function JsRem6(a: int): (r: int)
    ensures a >= 0 ==> r == a % 6
    ensures a < 0 ==> r == -((-a) % 6)
    ensures -6 < r < 6
    ensures r == 0 <==> a % 6 == 0
  {
    if a >= 0 then a % 6 else -((-a) % 6)
  }

  /** `Math.round`: the nearest integer, halves rounded up. */
  function Round(x: real): (r: int)
    ensures r as real - 0.5 <= x < r as real + 0.5
  {
    (x + 0.5).Floor
  }

  /**
   * `_getEvent(index)`: the volume's place among the six of its enemy names
   * the hit: the first is the head, the second the body, the rest the legs.
   */
  function GetEvent(index: int): (r: string)
    ensures r == "headshoot" || r == "bodyHit" || r == "legHit"
    ensures r == "headshoot" <==> index % 6 == 0
    ensures index >= 0 ==> (r == "bodyHit" <==> index % 6 == 1)
  {
    var collider := JsRem6(index);
    if collider == 0 then "headshoot" else if collider == 1 then "bodyHit" else "legHit"
  }

  /** Every enemy owns six consecutive volumes, so the classification repeats every six indices. */
  lemma GetEventPeriodic(index: int)
    requires index >= 0
    ensures GetEvent(index + 6) == GetEvent(index)
  {
    assert (index + 6) % 6 == index % 6;
  }

  /** `Array.prototype.indexOf`: the first position of `x` in `s`, or -1. */
  function IndexOf(s: seq<Target>, x: Target): (r: int)
    ensures -1 <= r < |s|
    ensures r == -1 <==> x !in s
    ensures r >= 0 ==> s[r] == x && x !in s[..r]
  {
    if |s| == 0 then -1
    else if s[0] == x then 0
    else
      var k := IndexOf(s[1..], x);
      if k == -1 then -1
      else
        assert s[..k + 1] == [s[0]] + s[1..][..k];
        k + 1
  }

  class Weapon {
    const math: MathLib
    /** The bullet speed the concrete weapon sets; the delay of a hit is its distance over this. */
    const speed: real

    /** `_raycaster.near`. */
    var near: real
    /** `_aiming`. */
    var aimingFlag: bool
    var targets: seq<Target>
    var damage: int
    /** How many times the shot sound was rewound and played. */
    var shots: nat
    /** Hits whose `setTimeout` has not fired yet. */
    var pending: seq<Hit>
    /** The `(event, enemy)` pairs dispatched so far. */
    var dispatched: seq<(string, nat)>

    /** The near plane always matches the aiming flag, and bullets travel forwards. */
    ghost predicate Valid()
      reads this
    {
      near == (if aimingFlag then AIM_NEAR else NEAR) && speed > 0.0
    }

    /** `constructor(asset, camera, onLoad)`, without the asset loading. */
    constructor (m: MathLib, bulletSpeed: real)
      requires bulletSpeed > 0.0
      ensures Valid()
      ensures math == m && speed == bulletSpeed
      ensures near == NEAR && !aimingFlag && targets == [] && damage == DAMAGE
      ensures shots == 0 && pending == [] && dispatched == []
    {
      math := m;
      speed := bulletSpeed;
      near := NEAR;
      aimingFlag := false;
      targets := [];
      damage := DAMAGE;
      shots := 0;
      pending := [];
      dispatched := [];
    }

    /**
     * The `target` getter, given the volumes the ray meets in order of
     * distance: the index in `targets` of the nearest, or -1 when the ray
     * meets nothing.
     */
    function Target(hits: seq<Target>): (r: int)
      reads this
      ensures -1 <= r < |targets|
      ensures r == -1 <==> |hits| == 0 || hits[0] !in targets
      ensures r >= 0 ==> targets[r] == hits[0] && hits[0] !in targets[..r]
    {
      if |hits| > 0 then IndexOf(targets, hits[0]) else -1
    }

    /**
     * `shoot(player)`: the shot sound always restarts; only when the ray meets
     * a volume is a hit scheduled, delayed by its distance over the bullet
     * speed and carrying the volume's enemy.
     */
    method Shoot(player: Vec3, hits: seq<Target>)
      requires Valid()
      modifies this`shots, this`pending
      ensures shots == old(shots) + 1
      ensures var t := Target(hits);
        pending == if t > -1 then old(pending) + [Hit(Round(Distance(math, targets[t].position, player) / speed), GetEvent(t), targets[t].enemy)]
                   else old(pending)
    {
      var target := Target(hits);
      shots := shots + 1;
      if target > -1 {
        var collider := targets[target];
        var distance := Distance(math, collider.position, player);
        var time := Round(distance / speed);
        var event := GetEvent(target);
        pending := pending + [Hit(time, event, collider.enemy)];
      }
    }

    /** The `setTimeout` of a scheduled hit fires: its event is dispatched with its enemy. */
    method Deliver(i: nat)
      requires i < |pending|
      modifies this`pending, this`dispatched
      ensures dispatched == old(dispatched) + [(old(pending)[i].event, old(pending)[i].enemy)]
      ensures pending == old(pending)[..i] + old(pending)[i + 1..]
    {
      dispatched := dispatched + [(pending[i].event, pending[i].enemy)];
      pending := pending[..i] + pending[i + 1..];
    }

    /** The `aiming` setter: the near plane comes closer while aiming. */
    method SetAiming(now: bool)
      requires Valid()
      modifies this`near, this`aimingFlag
      ensures Valid()
      ensures aimingFlag == now && near == (if now then AIM_NEAR else NEAR)
      ensures Aiming() == Some(now)
    {
      near := if now then AIM_NEAR else NEAR;
      aimingFlag := now;
    }

    /** The `aiming` getter as written: its body evaluates the flag but returns nothing, so it yields `undefined`. */
    function AimingAsWritten(): (r: Option<bool>)
      reads this
      ensures r.None?
    {
      None
    }

    /** The `aiming` getter as evidently intended (and as the TypeScript weapon's `aim` getter does): the flag last set. */
    function Aiming(): (r: Option<bool>)
      reads this
      ensures r.Some? && r.value == aimingFlag
    {
      Some(aimingFlag)
    }
  }

  /** The getter as written never reports the aiming state: after `aiming = true` it still yields `undefined`. */
  lemma AimingGetterLosesFlag(w: Weapon)
    requires w.aimingFlag
    ensures w.AimingAsWritten() != Some(true)
    ensures w.Aiming() == Some(true)
  {
  }
}
