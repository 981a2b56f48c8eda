/**
 * The zombie: the six hit volumes it attaches to its bones once loaded, in
 * the order the weapon's hit classification counts on, and the flags its
 * animations set, at once or when their timers fire.
 *
 * The zombie is a JavaScript character (`base`). Every `setTimeout` body is a
 * job in `timers` that `Fire` runs; cross-fades and animation actions are
 * rendering, and `lookAt` is recorded in `lookedAt`.
 */
module Enemy {

  import opened Geometry
  import opened Optional
  import CharacterJs
  import WeaponJs

  /** The body part a hit volume covers. */
  datatype Part = Head | Body | RightUpLeg | LeftUpLeg | RightLeg | LeftLeg

  /** The geometry of a hit volume. */
  datatype Shape = Box(width: real, height: real, depth: real) | Capsule(radius: real, length: real)

  /** A hit volume: its part, the bone (by object id) it hangs from, its shape and its offset from the bone. */
  datatype Collider = Collider(part: Part, bone: nat, shape: Shape, offset: Vec3, turnX: real)

  const HEAD: Collider := Collider(Head, 10, Box(20.0, 25.0, 25.0), Vec3(0.0, 5.0, 0.0), 0.0)
  const BODY: Collider := Collider(Body, 6, Capsule(20.0, 50.0), Vec3(0.0, 12.5, 2.5), -HALF_PI)
  const UPPER_LEG: Shape := Box(15.0, 50.0, 15.0)
  const LOWER_LEG: Shape := Box(10.0, 50.0, 10.0)

  /** The volumes in the order loading pushes them. */
  const LAYOUT: seq<Collider> := [
    HEAD,
    BODY,
    Collider(RightUpLeg, 53, UPPER_LEG, Vec3(0.0, -20.0, 0.0), 0.0),
    Collider(LeftUpLeg, 49, UPPER_LEG, Vec3(0.0, -20.0, 0.0), 0.0),
    Collider(RightLeg, 54, LOWER_LEG, Vec3(0.0, -27.5, 0.0), 0.0),
    Collider(LeftLeg, 50, LOWER_LEG, Vec3(0.0, -27.5, 0.0), 0.0)
  ]

  /** The hit event a part should raise. */
  function Region(p: Part): string
  {
    match p
    case Head => "headshoot"
    case Body => "bodyHit"
    case _ => "legHit"
  }

  /**
   * With the zombies' volumes laid end to end in the weapon's targets, six
   * per zombie, the weapon's classification of any index names the part the
   * volume at that index covers.
   */
  lemma ClassifiesPart(j: nat)
    ensures WeaponJs.GetEvent(j) == Region(LAYOUT[j % 6].part)
  {
  }

  /** The volumes of `n` zombies, end to end. */
  function Targets(n: nat): (r: seq<Collider>)
    ensures |r| == 6 * n
    ensures forall j :: 0 <= j < |r| ==> r[j] == LAYOUT[j % 6]
  {
    if n == 0 then []
    else
      var before := Targets(n - 1);
      var r := before + LAYOUT;
      assert forall j :: 6 * (n - 1) <= j < 6 * n ==> j % 6 == j - 6 * (n - 1);
      r
  }

  /** Every volume among `n` zombies is classified by the part it covers. */
  lemma {:induction false} TargetsClassified(n: nat, j: nat)
    requires j < 6 * n
    ensures WeaponJs.GetEvent(j) == Region(Targets(n)[j].part)
  {
    ClassifiesPart(j);
  }

  /** The body of a `setTimeout` the zombie has scheduled. */
  datatype Job =
    | IdleSettles                                         // end of `idle`
    | WalkSettles                                         // end of `walk`
    | ScreamSettles(run: bool)                            // end of `scream`
    | StartRun                                            // `this.run()` after a scream
    | RunSettles                                          // end of `run`
    | AttackSettles(attack: string, previous: Option<string>)   // end of `attack`
    | Resume(previous: Option<string>)                    // `this[lastAnimation]()` after an attack

  datatype Timer = Timer(id: nat, delay: int, job: Job)

  class Enemy {
    const base: CharacterJs.Character

    var colliders: seq<Collider>
    var lastAnimation: Option<string>
    var playerPosition: Vec3
    var visiblePlayer: bool
    var nextToPlayer: bool
    var attacking: bool

    var timers: seq<Timer>
    var nextTimer: nat
    /** Targets of `lookAt` so far. */
    var lookedAt: seq<Vec3>

    /** `constructor(onLoad)`: the zombie does not see, reach or attack the player yet. */
    constructor (moves: map<string, (real, real)>, bounds: CharacterJs.Bounds,
                 translate: (Vec3, real, real) -> Vec3, start: Vec3)
      ensures fresh(base)
      ensures base.moveTable == moves && base.bounds == bounds && base.position == start
      ensures !base.running && !base.moving
      ensures !visiblePlayer && !nextToPlayer && !attacking
      ensures playerPosition == ZERO && colliders == [] && lastAnimation == None
      ensures timers == [] && lookedAt == []
    {
      base := new CharacterJs.Character(moves, bounds, translate, start);
      colliders := [];
      lastAnimation := None;
      playerPosition := ZERO;
      visiblePlayer := false;
      nextToPlayer := false;
      attacking := false;
      timers := [];
      nextTimer := 0;
      lookedAt := [];
    }

    /** `_addHeadCollider`: the head box, raised by 5. */
    method AddHeadCollider()
      modifies this`colliders
      ensures colliders == old(colliders) + [HEAD]
    {
      colliders := colliders + [Collider(Head, 10, Box(20.0, 25.0, 25.0), Vec3(0.0, 5.0, 0.0), 0.0)];
    }

    /** `_addBodyCollider`: the body capsule, laid along the spine and raised. */
    method AddBodyCollider()
      modifies this`colliders
      ensures colliders == old(colliders) + [BODY]
    {
      colliders := colliders + [Collider(Body, 6, Capsule(20.0, 50.0), Vec3(0.0, 12.5, 2.5), 0.0 - HALF_PI)];
    }

    /** `_addLegsCollider`: right and left upper legs, then right and left lower legs. */
    method AddLegsCollider()
      modifies this`colliders
      ensures colliders == old(colliders) + LAYOUT[2..]
    {
      var upperLeg := Collider(RightUpLeg, 0, Box(15.0, 50.0, 15.0), Vec3(0.0, -20.0, 0.0), 0.0);
      var lowerLeg := Collider(RightLeg, 0, Box(10.0, 50.0, 10.0), Vec3(0.0, -27.5, 0.0), 0.0);
      colliders := colliders + [upperLeg.(bone := 53)];
      colliders := colliders + [upperLeg.(part := LeftUpLeg, bone := 49)];
      colliders := colliders + [lowerLeg.(bone := 54)];
      colliders := colliders + [lowerLeg.(part := LeftLeg, bone := 50)];
    }

    /** The load callback: the volumes are attached anew, head first. */
    method Loaded()
      modifies this`colliders
      ensures colliders == LAYOUT
    {
      colliders := [];
      AddHeadCollider();
      AddBodyCollider();
      AddLegsCollider();
    }

    /** `setTimeout(job, delay)`: the job waits in `timers` under a new id. */
    method Schedule(job: Job, delay: int)
      modifies this`timers, this`nextTimer
      ensures timers == old(timers) + [Timer(old(nextTimer), delay, job)] && nextTimer == old(nextTimer) + 1
    {
      timers := timers + [Timer(nextTimer, delay, job)];
      nextTimer := nextTimer + 1;
    }

    /** `idle()`: the idle flags come after 250 ms. */
    method Idle()
      modifies this`timers, this`nextTimer
      ensures timers == old(timers) + [Timer(old(nextTimer), 250, IdleSettles)] && nextTimer == old(nextTimer) + 1
    {
      Schedule(IdleSettles, 250);
    }

    /** `walk()`: the walking flags come after 250 ms. */
    method Walk()
      modifies this`timers, this`nextTimer
      ensures timers == old(timers) + [Timer(old(nextTimer), 250, WalkSettles)] && nextTimer == old(nextTimer) + 1
    {
      Schedule(WalkSettles, 250);
    }

    /** `run()`: the running flags come after 100 ms. */
    method Run()
      modifies this`timers, this`nextTimer
      ensures timers == old(timers) + [Timer(old(nextTimer), 100, RunSettles)] && nextTimer == old(nextTimer) + 1
    {
      Schedule(RunSettles, 100);
    }

    /** `scream(run)`: the zombie halts at once; the scream settles after 133 ms. */
    method Scream(run: bool)
      modifies this`attacking, base`running, base`moving, this`timers, this`nextTimer
      ensures !attacking && !base.running && !base.moving
      ensures timers == old(timers) + [Timer(old(nextTimer), 133, ScreamSettles(run))] && nextTimer == old(nextTimer) + 1
    {
      attacking := false;
      base.running := false;
      base.moving := false;
      Schedule(ScreamSettles(run), 133);
    }

    /**
     * `attack(hard)`: the zombie attacks standing still, at once; the attack
     * settles after 166 ms, remembering the animation it interrupted.
     */
    method Attack(hard: bool)
      modifies this`attacking, base`running, base`moving, this`timers, this`nextTimer
      ensures attacking && !base.running && !base.moving
      ensures var attack := if hard then "hardAttack" else "softAttack";
        timers == old(timers) + [Timer(old(nextTimer), 166, AttackSettles(attack, lastAnimation))]
      ensures nextTimer == old(nextTimer) + 1
    {
      var attack := if hard then "hardAttack" else "softAttack";
      var previous := lastAnimation;
      attacking := true;
      base.running := false;
      base.moving := false;
      Schedule(AttackSettles(attack, previous), 166);
    }

    /** `update(delta)`: the character's update, and the zombie turns to a player it sees. */
    method Update(delta: real)
      modifies base`position, this`lookedAt
      ensures lookedAt == if visiblePlayer then old(lookedAt) + [playerPosition] else old(lookedAt)
      ensures base.moving ==>
                base.position == CharacterJs.Confine(base.translate(old(base.position), base.speedX, base.speedZ), base.bounds.front, base.bounds.side)
      ensures !base.moving ==> base.position == old(base.position)
    {
      base.Update(delta);
      if visiblePlayer {
        lookedAt := lookedAt + [playerPosition];
      }
    }

    /** The directions a settling job sets are configured. */
    predicate Runnable(job: Job)
      reads this, base
    {
      match job
      case IdleSettles => "Idle" in base.moveTable
      case WalkSettles => "Walking" in base.moveTable
      case RunSettles => "Running" in base.moveTable
      case _ => true
    }

    /** The end of `idle`: standing, not attacking. */
    method IdleDone()
      requires "Idle" in base.moveTable
      modifies base`moving, base`running, this`attacking, this`lastAnimation, base`speedX, base`speedZ
      ensures !base.moving && !base.running && !attacking && lastAnimation == Some("idle")
      ensures base.speedX == base.moveTable["Idle"].0 && base.speedZ == base.moveTable["Idle"].1
    {
      base.moving := false;
      base.running := false;
      attacking := false;
      lastAnimation := Some("idle");
      base.SetDirection("Idle");
    }

    /** The end of `walk`: moving, not running, not attacking. */
    method WalkDone()
      requires "Walking" in base.moveTable
      modifies base`moving, base`running, this`attacking, this`lastAnimation, base`speedX, base`speedZ
      ensures base.moving && !base.running && !attacking && lastAnimation == Some("walk")
      ensures base.speedX == base.moveTable["Walking"].0 && base.speedZ == base.moveTable["Walking"].1
    {
      base.moving := true;
      base.running := false;
      attacking := false;
      lastAnimation := Some("walk");
      base.SetDirection("Walking");
    }

    /** The end of `run`: moving and running, not attacking. */
    method RunDone()
      requires "Running" in base.moveTable
      modifies base`moving, base`running, this`attacking, this`lastAnimation, base`speedX, base`speedZ
      ensures base.moving && base.running && !attacking && lastAnimation == Some("run")
      ensures base.speedX == base.moveTable["Running"].0 && base.speedZ == base.moveTable["Running"].1
    {
      base.moving := true;
      base.running := true;
      attacking := false;
      lastAnimation := Some("run");
      base.SetDirection("Running");
    }

    /** The end of `scream`: a scream that leads to a run starts it 2500 ms later. */
    method ScreamDone(run: bool)
      modifies this`lastAnimation, this`timers, this`nextTimer
      ensures lastAnimation == Some("scream")
      ensures timers == old(timers) + (if run then [Timer(old(nextTimer), 2500, StartRun)] else [])
      ensures nextTimer == old(nextTimer) + (if run then 1 else 0)
    {
      lastAnimation := Some("scream");
      if run {
        Schedule(StartRun, 2500);
      }
    }

    /** The end of `attack`: the interrupted animation resumes 4400 ms (hard) or 2500 ms (soft) later. */
    method AttackDone(attack: string, previous: Option<string>)
      modifies this`lastAnimation, this`timers, this`nextTimer
      ensures lastAnimation == Some(attack)
      ensures timers == old(timers) + [Timer(old(nextTimer), if attack == "hardAttack" then 4400 else 2500, Resume(previous))]
      ensures nextTimer == old(nextTimer) + 1
    {
      lastAnimation := Some(attack);
      Schedule(Resume(previous), if attack == "hardAttack" then 4400 else 2500);
    }

    /**
     * `this[lastAnimation]()`: the method named by the animation an attack
     * interrupted runs again. A name that is no method (an attack, or none
     * yet) makes the callback throw, which changes nothing.
     */
    method ResumePrevious(previous: Option<string>)
      modifies this`attacking, base`running, base`moving, this`timers, this`nextTimer
      ensures previous == Some("idle") ==> timers == old(timers) + [Timer(old(nextTimer), 250, IdleSettles)]
      ensures previous == Some("walk") ==> timers == old(timers) + [Timer(old(nextTimer), 250, WalkSettles)]
      ensures previous == Some("run") ==> timers == old(timers) + [Timer(old(nextTimer), 100, RunSettles)]
      ensures previous == Some("scream") ==>
                timers == old(timers) + [Timer(old(nextTimer), 133, ScreamSettles(true))] && !attacking && !base.running && !base.moving
      ensures previous !in {Some("idle"), Some("walk"), Some("run"), Some("scream")} ==>
                timers == old(timers) && nextTimer == old(nextTimer)
      ensures previous in {Some("idle"), Some("walk"), Some("run"), Some("scream")} ==> nextTimer == old(nextTimer) + 1
      ensures previous != Some("scream") ==>
                attacking == old(attacking) && base.running == old(base.running) && base.moving == old(base.moving)
    {
      if previous == Some("idle") {
        Idle();
      } else if previous == Some("walk") {
        Walk();
      } else if previous == Some("scream") {
        Scream(true);
      } else if previous == Some("run") {
        Run();
      }
    }

    /** A timer fires: it leaves `timers`, and its job runs. */
    method Fire(i: nat)
      requires i < |timers| && Runnable(timers[i].job)
      modifies this`timers, this`nextTimer, this`lastAnimation, this`attacking
      modifies base`moving, base`running, base`speedX, base`speedZ
      ensures var job := old(timers[i].job);
        var rest := old(timers[..i] + timers[i + 1..]);
        && (job.IdleSettles? ==>
              && lastAnimation == Some("idle") && !base.moving && !base.running && !attacking
              && base.speedX == base.moveTable["Idle"].0 && base.speedZ == base.moveTable["Idle"].1
              && timers == rest && nextTimer == old(nextTimer))
        && (job.WalkSettles? ==>
              && lastAnimation == Some("walk") && base.moving && !base.running && !attacking
              && base.speedX == base.moveTable["Walking"].0 && base.speedZ == base.moveTable["Walking"].1
              && timers == rest && nextTimer == old(nextTimer))
        && (job.RunSettles? ==>
              && lastAnimation == Some("run") && base.moving && base.running && !attacking
              && base.speedX == base.moveTable["Running"].0 && base.speedZ == base.moveTable["Running"].1
              && timers == rest && nextTimer == old(nextTimer))
      ensures var job := old(timers[i].job);
        var rest := old(timers[..i] + timers[i + 1..]);
        && (job.ScreamSettles? ==>
              && lastAnimation == Some("scream")
              && timers == rest + (if job.run then [Timer(old(nextTimer), 2500, StartRun)] else [])
              && nextTimer == old(nextTimer) + (if job.run then 1 else 0))
        && (job.StartRun? ==>
              && lastAnimation == old(lastAnimation)
              && timers == rest + [Timer(old(nextTimer), 100, RunSettles)] && nextTimer == old(nextTimer) + 1)
        && (job.AttackSettles? ==>
              && lastAnimation == Some(job.attack)
              && timers == rest + [Timer(old(nextTimer), if job.attack == "hardAttack" then 4400 else 2500, Resume(job.previous))]
              && nextTimer == old(nextTimer) + 1)
        && (job.Resume? ==>
              && lastAnimation == old(lastAnimation)
              && (job.previous == Some("idle") ==> timers == rest + [Timer(old(nextTimer), 250, IdleSettles)])
              && (job.previous == Some("walk") ==> timers == rest + [Timer(old(nextTimer), 250, WalkSettles)])
              && (job.previous == Some("run") ==> timers == rest + [Timer(old(nextTimer), 100, RunSettles)])
              && (job.previous == Some("scream") ==>
                    timers == rest + [Timer(old(nextTimer), 133, ScreamSettles(true))] && !attacking && !base.running && !base.moving)
              && (job.previous !in {Some("idle"), Some("walk"), Some("run"), Some("scream")} ==> timers == rest))
      ensures var job := old(timers[i].job);
        !job.IdleSettles? && !job.WalkSettles? && !job.RunSettles? && !(job.Resume? && job.previous == Some("scream")) ==>
          && attacking == old(attacking) && base.running == old(base.running) && base.moving == old(base.moving)
          && base.speedX == old(base.speedX) && base.speedZ == old(base.speedZ)
    {
      var job := timers[i].job;
      timers := timers[..i] + timers[i + 1..];
      match job {
        case IdleSettles => IdleDone();
        case WalkSettles => WalkDone();
        case RunSettles => RunDone();
        case ScreamSettles(run) => ScreamDone(run);
        case StartRun => Run();
        case AttackSettles(attack, previous) => AttackDone(attack, previous);
        case Resume(previous) => ResumePrevious(previous);
      }
    }
  }
}
