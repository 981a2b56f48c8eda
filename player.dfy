/**
 * The player: which animation the pressed keys ask for, the guards that
 * decide whether a move, a run, a return to idle or a change of aim is taken
 * up, and what each one changes at once and what it leaves to a timer.
 *
 * The player is a JavaScript character (`base`) holding a JavaScript weapon.
 * `Date.now()` is the parameter `now`; every `setTimeout` body is a job in
 * `timers` that `Fire` runs, and `clearTimeout` removes one. Animation actions
 * (cross-fades, `play`, `stop`) and the anime.js camera tween are rendering:
 * the tween is recorded in `tweens`, the calls into the concrete weapon's
 * `cancelAim` and `aim` in `weaponCalls`.
 */
module Player {

  import opened Geometry
  import opened Optional
  import CharacterJs
  import WeaponJs

  /** A move less than this many milliseconds after the last accepted one is dropped. */
  const MOVE_DEBOUNCE: int := 150
  /** Releasing aim less than this many milliseconds after taking it cancels the aim. */
  const AIM_CANCEL_WINDOW: int := 900
  /** Below this many milliseconds a cancel also stops the player at once. */
  const IMMEDIATE_CANCEL: int := 100
  const AIM_DURATION: int := 400
  const AIM_DELAY: int := 100

  const AIM_CAMERA: Vec3 := Vec3(-0.75, 3.0, -1.25)
  const CAMERA: Vec3 := Vec3(-1.25, 3.0, -3.0)

  /** The W, A, S and D keys, pressed or not. */
  datatype Keys = Keys(w: bool, a: bool, s: bool, d: bool)

  /** `directions.includes(1)`: some key is pressed. */
  predicate AnyKey(k: Keys)
  {
    k.w || k.a || k.s || k.d
  }

  /**
   * `getMoveDirection(w, a, s, d)`: forward or backward (forward wins), then
   * left or right (left wins), or "Idle" when no key is pressed.
   */
  function GetMoveDirection(w: bool, a: bool, s: bool, d: bool): (r: string)
    ensures w && a ==> r == "ForwardLeft"
    ensures w && !a && d ==> r == "ForwardRight"
    ensures w && !a && !d ==> r == "Forward"
    ensures !w && s && a ==> r == "BackwardLeft"
    ensures !w && s && !a && d ==> r == "BackwardRight"
    ensures !w && s && !a && !d ==> r == "Backward"
    ensures !w && !s && a ==> r == "Left"
    ensures !w && !s && !a && d ==> r == "Right"
    ensures !w && !s && !a && !d ==> r == "Idle"
  {
    var vertical := if w then "Forward" else if s then "Backward" else "";
    var horizontal := if a then "Left" else if d then "Right" else "";
    var direction := vertical + horizontal;
    if direction == "" then "Idle" else direction
  }

  /** The direction is "Idle" exactly when no key is pressed. */
  lemma IdleIffNoKey(w: bool, a: bool, s: bool, d: bool)
    ensures GetMoveDirection(w, a, s, d) == "Idle" <==> !w && !a && !s && !d
  {
  }

  /** Forward overrides backward and left overrides right. */
  lemma DirectionPrecedence(a: bool, s: bool, d: bool, w: bool)
    ensures GetMoveDirection(true, a, s, d) == GetMoveDirection(true, a, false, d)
    ensures GetMoveDirection(w, true, s, d) == GetMoveDirection(w, true, s, false)
  {
  }

  /** `String.prototype.includes`: `part` occurs somewhere in `s`. */
  predicate Includes(s: string, part: string)
    decreases |s|
  {
    |part| <= |s| && (s[..|part|] == part || Includes(s[1..], part))
  }

  /** A text without the first character of `part` does not include `part`. */
  lemma {:induction false} Absent(s: string, part: string)
    requires |part| > 0 && part[0] !in s
    ensures !Includes(s, part)
    decreases |s|
  {
    if |part| <= |s| {
      assert s[..|part|][0] == s[0];
      Absent(s[1..], part);
    }
  }

  /** A direction mentions "Forward" exactly when W is pressed. */
  lemma ForwardIffW(w: bool, a: bool, s: bool, d: bool)
    ensures Includes(GetMoveDirection(w, a, s, d), "Forward") <==> w
  {
    var r := GetMoveDirection(w, a, s, d);
    if !w {
      assert 'F' !in r;
      Absent(r, "Forward");
    } else {
      assert r[..7] == "Forward";
    }
  }

  /** The name of an animation: "rifle" or "pistol", by the weapon held, then what it shows. */
  function Animation(hasRifle: bool, suffix: string): (r: string)
    ensures |r| == (if hasRifle then 5 else 6) + |suffix|
    ensures r[..(if hasRifle then 5 else 6)] == (if hasRifle then "rifle" else "pistol")
    ensures r[(if hasRifle then 5 else 6)..] == suffix
  {
    (if hasRifle then "rifle" else "pistol") + suffix
  }

  /** An animation name starts with the weapon's initial. */
  lemma FirstLetter(hasRifle: bool, suffix: string)
    ensures |Animation(hasRifle, suffix)| > 0
    ensures Animation(hasRifle, suffix)[0] == if hasRifle then 'r' else 'p'
  {
    var n := Animation(hasRifle, suffix);
    assert n[0] == n[..5][0];
  }

  /** An animation name tells both which weapon is held and what the animation shows. */
  lemma AnimationInjective(h1: bool, s1: string, h2: bool, s2: string)
    requires Animation(h1, s1) == Animation(h2, s2)
    ensures h1 == h2 && s1 == s2
  {
    var n := Animation(h1, s1);
    FirstLetter(h1, s1);
    FirstLetter(h2, s2);
    if h1 == h2 {
      assert s1 == n[(if h1 then 5 else 6)..] == s2;
    }
  }

  /** Moving with no key pressed asks for the idle animation, and any key for another one. */
  lemma MoveNamesIdle(hasRifle: bool, k: Keys)
    ensures Animation(hasRifle, GetMoveDirection(k.w, k.a, k.s, k.d)) == Animation(hasRifle, "Idle") <==> !AnyKey(k)
  {
    if Animation(hasRifle, GetMoveDirection(k.w, k.a, k.s, k.d)) == Animation(hasRifle, "Idle") {
      AnimationInjective(hasRifle, GetMoveDirection(k.w, k.a, k.s, k.d), hasRifle, "Idle");
    }
  }

  /** The body of a `setTimeout` the player has scheduled. */
  datatype Job =
    | Settle(direction: string, animation: string)   // set the direction, record the animation
    | SettleIdle                                     // the same for the idle animation, named when it fires
    | CallIdle                                       // `this.idle()`

  datatype Timer = Timer(id: nat, job: Job)

  /** An anime.js tween of the camera towards `target`. */
  datatype Tween = Tween(target: Vec3, duration: int, delay: int)

  /** A call into the concrete weapon. */
  datatype WeaponCall = CancelAim | AimWeapon(aiming: bool, duration: int, delay: int)

  /** `clearTimeout(id)`: every timer but the one with that id. */
  function Cleared(ts: seq<Timer>, id: nat): (r: seq<Timer>)
    ensures forall t :: t in r <==> t in ts && t.id != id
    ensures |r| <= |ts|
  {
    if |ts| == 0 then []
    else if ts[0].id == id then Cleared(ts[1..], id)
    else [ts[0]] + Cleared(ts[1..], id)
  }

  /** `now - t` for a time stamp that may be `null`, which JavaScript reads as 0. */
  function Since(now: int, t: Option<int>): int
  {
    match t
    case None => now
    case Some(v) => now - v
  }

  class Player {
    const base: CharacterJs.Character

    var lastAnimation: Option<string>
    var moveTime: Option<int>
    var hasRifle: bool
    var weapon: WeaponJs.Weapon?
    var aimTime: Option<int>
    var aiming: bool
    var aimTimeout: Option<nat>

    var timers: seq<Timer>
    var nextTimer: nat
    var tweens: seq<Tween>
    var weaponCalls: seq<WeaponCall>

    /** `constructor(onLoad)`: the player starts with the rifle, no weapon object, not aiming. */
    constructor (moves: map<string, (real, real)>, bounds: CharacterJs.Bounds,
                 translate: (Vec3, real, real) -> Vec3, start: Vec3)
      ensures fresh(base)
      ensures base.moveTable == moves && base.bounds == bounds && base.position == start
      ensures !base.running && !base.moving
      ensures lastAnimation == None && moveTime == None && hasRifle && weapon == null
      ensures aimTime == None && !aiming && aimTimeout == None
      ensures timers == [] && tweens == [] && weaponCalls == []
    {
      base := new CharacterJs.Character(moves, bounds, translate, start);
      lastAnimation := None;
      moveTime := None;
      hasRifle := true;
      weapon := null;
      aimTime := None;
      aiming := false;
      aimTimeout := None;
      timers := [];
      nextTimer := 0;
      tweens := [];
      weaponCalls := [];
    }

    /** The model has loaded: the rifle idle animation plays. */
    method Loaded()
      modifies this`lastAnimation
      ensures lastAnimation == Some("rifleIdle")
    {
      lastAnimation := Some("rifleIdle");
    }

    /** `setWeapon(weapon, colliders, rifle)`: the weapon is held and aims at the colliders. */
    method SetWeapon(w: WeaponJs.Weapon, colliders: seq<WeaponJs.Target>, rifle: bool)
      modifies this`weapon, this`hasRifle, w`targets
      ensures weapon == w && hasRifle == rifle && w.targets == colliders
    {
      weapon := w;
      hasRifle := rifle;
      w.targets := colliders;
    }

    /** `setTimeout(job, ...)`: the job waits in `timers` under a new id. */
    method Schedule(job: Job) returns (id: nat)
      modifies this`timers, this`nextTimer
      ensures id == old(nextTimer) && nextTimer == id + 1
      ensures timers == old(timers) + [Timer(id, job)]
    {
      id := nextTimer;
      timers := timers + [Timer(id, job)];
      nextTimer := nextTimer + 1;
    }

    /** The `_idle` getter. */
    function IdleName(): (r: string)
      reads this
      ensures r == Animation(hasRifle, "Idle")
    {
      if hasRifle then "rifleIdle" else "pistolIdle"
    }

    /**
     * `idle()`: ignored while aiming or when the idle animation is already
     * the last one; otherwise the player stops at once and settles into idle
     * when the timer fires.
     */
    method Idle()
      modifies base`running, base`moving, this`timers, this`nextTimer
      ensures lastAnimation == Some(IdleName()) || aiming ==>
                && base.running == old(base.running) && base.moving == old(base.moving)
                && timers == old(timers) && nextTimer == old(nextTimer)
      ensures !(lastAnimation == Some(IdleName()) || aiming) ==>
                && !base.running && !base.moving
                && timers == old(timers) + [Timer(old(nextTimer), SettleIdle)] && nextTimer == old(nextTimer) + 1
    {
      if lastAnimation == Some(IdleName()) || aiming {
        return;
      }
      base.running := false;
      base.moving := false;
      var _ := Schedule(SettleIdle);
    }

    /** Whether `move` takes up the keys at time `now` when the running flag is `running`. */
    predicate MoveTaken(k: Keys, now: int, running: bool)
      reads this
    {
      var direction := GetMoveDirection(k.w, k.a, k.s, k.d);
      && !aiming
      && lastAnimation != Some(Animation(hasRifle, direction))
      && !(running && Includes(direction, "Forward"))
      && Since(now, moveTime) >= MOVE_DEBOUNCE
    }

    /**
     * `move(directions)`: dropped while aiming, when the animation would not
     * change, when running forwards, or within 150 ms of the last accepted
     * move; otherwise the player walks, the move time is recorded and the
     * direction and animation settle when the timer fires.
     */
    method Move(k: Keys, now: int)
      modifies base`running, base`moving, this`moveTime, this`timers, this`nextTimer
      ensures var taken := old(MoveTaken(k, now, base.running));
        && (!taken ==>
              && base.running == old(base.running) && base.moving == old(base.moving)
              && moveTime == old(moveTime) && timers == old(timers) && nextTimer == old(nextTimer))
        && (taken ==>
              var direction := GetMoveDirection(k.w, k.a, k.s, k.d);
              && !base.running && base.moving && moveTime == Some(now)
              && timers == old(timers) + [Timer(old(nextTimer), Settle(direction, Animation(hasRifle, direction)))]
              && nextTimer == old(nextTimer) + 1)
    {
      var direction := GetMoveDirection(k.w, k.a, k.s, k.d);
      var animation := Animation(hasRifle, direction);
      if aiming || lastAnimation == Some(animation) {
        return;
      }
      if base.running && Includes(direction, "Forward") {
        return;
      }
      if Since(now, moveTime) < MOVE_DEBOUNCE {
        return;
      }
      base.running := false;
      moveTime := Some(now);
      base.moving := true;
      var _ := Schedule(Settle(direction, animation));
    }

    /**
     * `run(directions, running)`: ignored when asked to run while aiming.
     * Otherwise the running flag is recorded; a new run settles into the run
     * animation when the timer fires, and anything else falls back to idle
     * (no key pressed, not aiming) or to an ordinary move.
     */
    method Run(k: Keys, running: bool, now: int)
      modifies base`running, base`moving, this`moveTime, this`timers, this`nextTimer
      ensures running && aiming ==>
                && base.running == old(base.running) && base.moving == old(base.moving)
                && moveTime == old(moveTime) && timers == old(timers) && nextTimer == old(nextTimer)
      ensures !(running && aiming) && running && lastAnimation != Some(Animation(hasRifle, "Run")) ==>
                && base.running && base.moving == old(base.moving) && moveTime == old(moveTime)
                && timers == old(timers) + [Timer(old(nextTimer), Settle("Run", Animation(hasRifle, "Run")))]
      ensures !(running && aiming) && (!running || lastAnimation == Some(Animation(hasRifle, "Run"))) && !aiming && !AnyKey(k) ==>
                && base.running == running && base.moving == old(base.moving) && moveTime == old(moveTime)
                && timers == old(timers) + [Timer(old(nextTimer), CallIdle)]
      ensures !(running && aiming) && (!running || lastAnimation == Some(Animation(hasRifle, "Run"))) && (aiming || AnyKey(k)) ==>
                if old(MoveTaken(k, now, running)) then
                  && !base.running && base.moving && moveTime == Some(now)
                  && timers == old(timers) + [Timer(old(nextTimer), Settle(GetMoveDirection(k.w, k.a, k.s, k.d), Animation(hasRifle, GetMoveDirection(k.w, k.a, k.s, k.d))))]
                else
                  && base.running == running && base.moving == old(base.moving)
                  && moveTime == old(moveTime) && timers == old(timers)
    {
      if running && aiming {
        return;
      }
      var run := Animation(hasRifle, "Run");
      base.running := running;
      if !running || lastAnimation == Some(run) {
        if !aiming && !AnyKey(k) {
          var _ := Schedule(CallIdle);
        } else {
          Move(k, now);
        }
        return;
      }
      var _ := Schedule(Settle("Run", run));
    }

    /**
     * `_cancelAimAnimation(immediate)`: the pending aim timer is cleared, the
     * player goes back to idle, and an immediate cancel also stops it.
     */
    method CancelAimAnimation(immediate: bool)
      modifies base`running, base`moving, this`timers, this`nextTimer
      ensures var cleared := if aimTimeout.Some? then Cleared(old(timers), aimTimeout.value) else old(timers);
        && (lastAnimation == Some(IdleName()) || aiming ==> timers == cleared && nextTimer == old(nextTimer))
        && (!(lastAnimation == Some(IdleName()) || aiming) ==>
              timers == cleared + [Timer(old(nextTimer), SettleIdle)] && nextTimer == old(nextTimer) + 1)
      ensures immediate || !(lastAnimation == Some(IdleName()) || aiming) ==> !base.running && !base.moving
      ensures !immediate && (lastAnimation == Some(IdleName()) || aiming) ==>
                base.running == old(base.running) && base.moving == old(base.moving)
    {
      if aimTimeout.Some? {
        timers := Cleared(timers, aimTimeout.value);
      }
      Idle();
      if immediate {
        base.running := false;
        base.moving := false;
      }
    }

    /**
     * `_aimCameraAnimation(aiming, duration, cancel)`: unless the aim was
     * cancelled the weapon takes its aim pose, 100 ms shorter; the camera
     * tweens to the aiming or the normal position, after 100 ms when aiming.
     */
    method AimCameraAnimation(now: bool, duration: int, notCancelled: bool)
      modifies this`weaponCalls, this`tweens
      ensures var delay := if now then AIM_DELAY else 0;
        && weaponCalls == old(weaponCalls) + (if notCancelled then [AimWeapon(now, duration - 100, delay)] else [])
        && tweens == old(tweens) + [Tween(if now then AIM_CAMERA else CAMERA, duration, delay)]
    {
      var target := if now then AIM_CAMERA else CAMERA;
      var delay := if now then AIM_DELAY else 0;
      if notCancelled {
        weaponCalls := weaponCalls + [AimWeapon(now, duration - 100, delay)];
      }
      tweens := tweens + [Tween(target, duration, delay)];
    }

    /**
     * `aim(aiming)`: letting go of aim within 900 ms of taking it cancels the
     * aim, with a camera tween as long as the time aimed (at most 400 ms);
     * every other change takes 400 ms, records when aiming started, and
     * settles into the aim or idle animation when the timer fires. Either
     * way the player's and the weapon's aiming flags follow the request.
     */
    method Aim(a: bool, now: int)
      requires weapon != null && weapon.Valid()
      modifies this`aiming, this`aimTime, this`aimTimeout, this`timers, this`nextTimer
      modifies this`weaponCalls, this`tweens, base`running, base`moving
      modifies weapon`near, weapon`aimingFlag
      ensures aiming == a && weapon.aimingFlag == a && weapon.Valid()
      ensures var elapsed := Since(now, old(aimTime));
        var cancel := !a && elapsed < AIM_CANCEL_WINDOW;
        var duration := if cancel then (if elapsed < AIM_DURATION then elapsed else AIM_DURATION) else AIM_DURATION;
        var delay := if a then AIM_DELAY else 0;
        && tweens == old(tweens) + [Tween(if a then AIM_CAMERA else CAMERA, duration, delay)]
        && (cancel ==>
              && weaponCalls == old(weaponCalls) + [CancelAim]
              && aimTime == old(aimTime) && aimTimeout == old(aimTimeout)
              && (var cleared := if old(aimTimeout).Some? then Cleared(old(timers), old(aimTimeout).value) else old(timers);
                  && (lastAnimation == Some(IdleName()) ==> timers == cleared && nextTimer == old(nextTimer))
                  && (lastAnimation != Some(IdleName()) ==>
                        timers == cleared + [Timer(old(nextTimer), SettleIdle)] && nextTimer == old(nextTimer) + 1))
              && (elapsed < IMMEDIATE_CANCEL || lastAnimation != Some(IdleName()) ==> !base.running && !base.moving)
              && (elapsed >= IMMEDIATE_CANCEL && lastAnimation == Some(IdleName()) ==>
                    base.running == old(base.running) && base.moving == old(base.moving)))
        && (!cancel ==>
              && weaponCalls == old(weaponCalls) + [AimWeapon(a, AIM_DURATION - 100, delay)]
              && aimTime == (if a then Some(now) else None)
              && base.running == old(base.running) && base.moving == old(base.moving)
              && var next := if a then Animation(hasRifle, "Aim") else IdleName();
                 (lastAnimation != Some(next) ==>
                    aimTimeout == Some(old(nextTimer)) && timers == old(timers) + [Timer(old(nextTimer), Settle("Idle", next))])
                 && (lastAnimation == Some(next) ==> aimTimeout == old(aimTimeout) && timers == old(timers)))
    {
      var elapsed := Since(now, aimTime);
      var cancel := !a && elapsed < AIM_CANCEL_WINDOW;
      weapon.SetAiming(a);
      aiming := a;
      var duration := AIM_DURATION;
      if cancel {
        CancelAimAnimation(elapsed < IMMEDIATE_CANCEL);
        duration := if elapsed < AIM_DURATION then elapsed else AIM_DURATION;
        weaponCalls := weaponCalls + [CancelAim];
      } else {
        var next := if a then Animation(hasRifle, "Aim") else IdleName();
        aimTime := if a then Some(now) else None;
        if lastAnimation != Some(next) {
          var id := Schedule(Settle("Idle", next));
          aimTimeout := Some(id);
        }
      }
      AimCameraAnimation(a, duration, !cancel);
    }

    /** `shoot(now)`: the weapon fires from the player's position only when the trigger is down. */
    method Shoot(now: bool, hits: seq<WeaponJs.Target>)
      requires now ==> weapon != null && weapon.Valid()
      modifies if weapon == null then {} else {weapon}
      ensures weapon != null ==>
                && weapon.near == old(weapon.near) && weapon.aimingFlag == old(weapon.aimingFlag)
                && weapon.targets == old(weapon.targets) && weapon.damage == old(weapon.damage)
                && weapon.dispatched == old(weapon.dispatched)
      ensures now ==> weapon.shots == old(weapon.shots) + 1
      ensures now ==> var t := old(weapon.Target(hits));
        weapon.pending == old(weapon.pending) +
          if t > -1 then [WeaponJs.Hit(WeaponJs.Round(Distance(weapon.math, weapon.targets[t].position, base.position) / weapon.speed),
                                       WeaponJs.GetEvent(t), weapon.targets[t].enemy)]
          else []
      ensures !now && weapon != null ==> weapon.shots == old(weapon.shots) && weapon.pending == old(weapon.pending)
    {
      if now {
        weapon.Shoot(base.position, hits);
      }
    }

    /** `update(delta)`: the character's update. */
    method Update(delta: real)
      modifies base`position
      ensures base.moving ==> base.position == CharacterJs.Confine(base.translate(old(base.position), base.speedX, base.speedZ), base.bounds.front, base.bounds.side)
      ensures !base.moving ==> base.position == old(base.position)
    {
      base.Update(delta);
    }

    /** Whether a timer's job can run: the direction it sets is configured. */
    predicate Runnable(job: Job)
      reads this, base
    {
      match job
      case Settle(direction, _) => direction in base.moveTable
      case SettleIdle => "Idle" in base.moveTable
      case CallIdle => true
    }

    /**
     * A timer fires: it leaves `timers`, and its job runs. A settling job
     * sets the direction and records the animation as the last one; the
     * deferred idle runs `idle()`.
     */
    method Fire(i: nat)
      requires i < |timers| && Runnable(timers[i].job)
      modifies this`timers, this`nextTimer, this`lastAnimation, base`speedX, base`speedZ, base`running, base`moving
      ensures var job := old(timers[i].job);
        var rest := old(timers[..i] + timers[i + 1..]);
        && (job.Settle? ==>
              && lastAnimation == Some(job.animation) && timers == rest && nextTimer == old(nextTimer)
              && base.speedX == base.moveTable[job.direction].0 && base.speedZ == base.moveTable[job.direction].1
              && base.running == old(base.running) && base.moving == old(base.moving))
        && (job.SettleIdle? ==>
              && lastAnimation == Some(IdleName()) && timers == rest && nextTimer == old(nextTimer)
              && base.speedX == base.moveTable["Idle"].0 && base.speedZ == base.moveTable["Idle"].1
              && base.running == old(base.running) && base.moving == old(base.moving))
        && (job.CallIdle? ==>
              && lastAnimation == old(lastAnimation)
              && base.speedX == old(base.speedX) && base.speedZ == old(base.speedZ)
              && (lastAnimation == Some(IdleName()) || aiming ==>
                    && timers == rest && nextTimer == old(nextTimer)
                    && base.running == old(base.running) && base.moving == old(base.moving))
              && (!(lastAnimation == Some(IdleName()) || aiming) ==>
                    && timers == rest + [Timer(old(nextTimer), SettleIdle)] && nextTimer == old(nextTimer) + 1
                    && !base.running && !base.moving))
    {
      var job := timers[i].job;
      timers := timers[..i] + timers[i + 1..];
      match job {
        case Settle(direction, animation) =>
          base.SetDirection(direction);
          lastAnimation := Some(animation);
        case SettleIdle =>
          base.SetDirection("Idle");
          lastAnimation := Some(IdleName());
        case CallIdle =>
          Idle();
      }
    }
  }
}
