/**
 * The rifle: its reload and restock arithmetic on whole numbers of rounds,
 * the reloading and on-stage flags, the pose of the first-person model while
 * aiming or reloading, and the pickup clone that spins on the level until the
 * player walks up to it.
 *
 * The rifle extends a weapon base whose ammunition members (`magazine`,
 * `loadedAmmo`, `totalAmmo`, `inStock`) and sound and clone helpers are not
 * shown; here they are plain fields. Sounds and game events are appended
 * logs, the 500 ms timer that ends a reload is a count of pending timers with
 * a completion step, and `distanceTo` comes from the math library.
 */
module Rifle {

  import opened Geometry
  import opened Optional

  const PI: real := 3.141592653589793
  /** How far the pickup clone turns every frame. */
  const SPIN: real := 0.025
  /** The pickup radius. */
  const PICK_DISTANCE: real := 2.5
  /** The height the pickup clone floats at. */
  const CLONE_HEIGHT: real := 1.75

  /** A scene object cloned from the rifle model: which clone it is and its transform. */
  datatype Clone = Clone(id: nat, position: Vec3, rotation: Vec3, scale: Vec3)

  /** A dispatched game event. */
  datatype Event =
    | Reload(loaded: int, inStock: int, ammo: int)   // 'weapon:reload'
    | Pick(clone: Clone)                             // 'weapon:pick'
    | AddObject(clone: Clone)                        // 'add:object'

  /** A call into the weapon's sounds. */
  datatype Sound = Play(name: string, loop: bool) | Stop(name: string)

  /**
   * The reload branch of `addAmmo`: how many rounds go into the magazine, and
   * the new loaded and total counts. A magazine holding between none and a
   * full load is always topped up to a full load; the stock never goes below
   * zero, and it pays exactly for the rounds loaded whenever it can.
   */
  function Reloaded(magazine: int, loaded: int, total: int): (r: (int, int))
    ensures 0 <= loaded <= magazine ==> r.0 == magazine && (total >= 0 ==> r.1 <= total)
    ensures r.1 >= 0
    ensures 0 <= loaded <= magazine && total >= magazine - loaded ==> r.0 + r.1 == loaded + total
    ensures 0 <= loaded <= magazine && total < magazine - loaded ==> r == (magazine, 0)
  {
    var toLoad := if magazine - loaded < magazine then magazine - loaded else magazine;
    var rest := if total - toLoad > 0 then total - toLoad else 0;
    (loaded + toLoad, rest)
  }

  /**
   * The restock branch of `addAmmo`: the stock becomes what is in stock plus
   * the rounds picked up, but never more than the maximum stock.
   */
  function Restocked(inStock: int, ammo: int, maxStock: int): (r: int)
    ensures r <= maxStock
    ensures r == inStock + ammo || r == maxStock
    ensures inStock + ammo <= maxStock ==> r == inStock + ammo
  {
    if inStock + ammo < maxStock then inStock + ammo else maxStock
  }

  /**
   * A reload does not look at the stock before filling the magazine: when
   * the stock holds fewer rounds than the magazine lacks, the magazine is
   * still filled and the stock drops to 0, so rounds appear from nowhere.
   */
  lemma ReloadIgnoresStock(magazine: int, loaded: int, total: int)
    requires 0 <= loaded <= magazine && 0 <= total < magazine - loaded
    ensures Reloaded(magazine, loaded, total) == (magazine, 0)
    ensures Reloaded(magazine, loaded, total).0 + Reloaded(magazine, loaded, total).1 > loaded + total
  {
  }

  /** Reloading a full magazine changes nothing. */
  lemma ReloadFullIsIdentity(magazine: int, total: int)
    requires magazine >= 0 && total >= 0
    ensures Reloaded(magazine, magazine, total) == (magazine, total)
  {
  }

  class Rifle {
    const math: MathLib
    /** `Config.Rifle.position`, `.rotation`, `.worldScale` and `.maxStock`. */
    const position: Vec3
    const rotation: Vec3
    const worldScale: Vec3
    const maxStock: int

    /** The ammunition members of the weapon base. */
    var magazine: int
    var loadedAmmo: int
    var totalAmmo: int
    var inStock: int

    var reloading: bool
    var onStage: bool
    var clone: Option<Clone>

    /** The transform of the first-person model. */
    var modelPosition: Vec3
    var modelRotation: Vec3

    var events: seq<Event>
    var sounds: seq<Sound>
    /** `stopReloading` timers scheduled by a reload that have not fired yet. */
    var stopTimers: nat

    /** The magazine holds between none and a full load. */
    ghost predicate Loaded()
      reads this
    {
      0 <= loadedAmmo <= magazine
    }

    /** `constructor()`: not reloading, not on stage, no clone yet. */
    constructor (m: MathLib, pos: Vec3, rot: Vec3, scale: Vec3, stock: int,
                 mag: int, loaded: int, total: int, inStockNow: int)
      ensures math == m && position == pos && rotation == rot && worldScale == scale && maxStock == stock
      ensures magazine == mag && loadedAmmo == loaded && totalAmmo == total && inStock == inStockNow
      ensures !reloading && !onStage && clone == None
      ensures modelPosition == pos && modelRotation == rot
      ensures events == [] && sounds == [] && stopTimers == 0
    {
      math := m;
      position := pos;
      rotation := rot;
      worldScale := scale;
      maxStock := stock;
      magazine := mag;
      loadedAmmo := loaded;
      totalAmmo := total;
      inStock := inStockNow;
      reloading := false;
      onStage := false;
      clone := None;
      modelPosition := pos;
      modelRotation := rot;
      events := [];
      sounds := [];
      stopTimers := 0;
    }

    /** `setAim()`: the model is brought to the centre of the view, turned half a circle and tilted. */
    method SetAim()
      modifies this`modelPosition, this`modelRotation
      ensures modelRotation == Vec3(rotation.x, PI, -0.1)
      ensures modelPosition == Vec3(position.x, 0.0, -1.0)
    {
      modelRotation := Vec3(rotation.x, PI, -0.1);
      modelPosition := Vec3(position.x, 0.0, -1.0);
    }

    /** `reset()`: the model goes back to its configured pose. */
    method Reset()
      modifies this`modelPosition, this`modelRotation
      ensures modelPosition == position && modelRotation == rotation
    {
      modelPosition := position;
      modelRotation := rotation;
    }

    /** `cancelAim()`: the configured pose again. */
    method CancelAim()
      modifies this`modelPosition, this`modelRotation
      ensures modelPosition == position && modelRotation == rotation
    {
      Reset();
    }

    /** `startReloading()`: the model drops its depth and roll, the looping reload sound starts. */
    method StartReloading()
      modifies this`modelPosition, this`modelRotation, this`sounds, this`reloading
      ensures modelPosition == Vec3(position.x, position.y, 0.0)
      ensures modelRotation == Vec3(rotation.x, rotation.y, 0.0)
      ensures sounds == old(sounds) + [Play("reload", true)]
      ensures reloading
    {
      modelPosition := Vec3(position.x, position.y, 0.0);
      modelRotation := Vec3(rotation.x, rotation.y, 0.0);
      sounds := sounds + [Play("reload", true)];
      reloading := true;
    }

    /**
     * `addAmmo(ammo)`: no rounds means a reload (the magazine is topped up
     * from the stock and a timer will end the reload); otherwise the stock is
     * refilled up to its maximum. Both report the counts.
     */
    method AddAmmo(ammo: int)
      modifies this`totalAmmo, this`loadedAmmo, this`stopTimers, this`events
      ensures ammo == 0 ==> (loadedAmmo, totalAmmo) == Reloaded(magazine, old(loadedAmmo), old(totalAmmo))
      ensures ammo == 0 ==> stopTimers == old(stopTimers) + 1
      ensures ammo != 0 ==> totalAmmo == Restocked(inStock, ammo, maxStock)
      ensures ammo != 0 ==> loadedAmmo == old(loadedAmmo) && stopTimers == old(stopTimers)
      ensures events == old(events) + [Reload(loadedAmmo, inStock, totalAmmo)]
      ensures ammo == 0 && old(Loaded()) ==> Loaded() && loadedAmmo == magazine
      ensures ammo == 0 ==> totalAmmo >= 0
      ensures ammo != 0 ==> totalAmmo <= maxStock
    {
      if ammo == 0 {
        var toLoad := if magazine - loadedAmmo < magazine then magazine - loadedAmmo else magazine;
        totalAmmo := if totalAmmo - toLoad > 0 then totalAmmo - toLoad else 0;
        stopTimers := stopTimers + 1;
        loadedAmmo := loadedAmmo + toLoad;
      } else {
        totalAmmo := if inStock + ammo < maxStock then inStock + ammo else maxStock;
      }
      events := events + [Reload(loadedAmmo, inStock, totalAmmo)];
    }

    /** `stopReloading()`: the reload sound stops only if a reload was running; the pose is reset. */
    method StopReloading()
      modifies this`sounds, this`reloading, this`modelPosition, this`modelRotation
      ensures sounds == if old(reloading) then old(sounds) + [Stop("reload")] else old(sounds)
      ensures !reloading
      ensures modelPosition == position && modelRotation == rotation
    {
      if reloading {
        sounds := sounds + [Stop("reload")];
      }
      reloading := false;
      Reset();
    }

    /** The reload timer fires 500 ms after `addAmmo(0)`. */
    method ReloadTimerFires()
      requires stopTimers > 0
      modifies this`stopTimers, this`sounds, this`reloading, this`modelPosition, this`modelRotation
      ensures stopTimers == old(stopTimers) - 1
      ensures sounds == if old(reloading) then old(sounds) + [Stop("reload")] else old(sounds)
      ensures !reloading
      ensures modelPosition == position && modelRotation == rotation
    {
      stopTimers := stopTimers - 1;
      StopReloading();
    }

    /**
     * `update(player)`: a clone on stage spins by 0.025 a frame and is picked
     * up, once, when the player comes within 2.5 of it.
     */
    method Update(player: Vec3)
      modifies this`clone, this`events, this`onStage
      ensures !old(onStage) || old(clone).None? ==>
                clone == old(clone) && events == old(events) && onStage == old(onStage)
      ensures old(onStage) && old(clone).Some? ==>
                var c := old(clone).value;
                var spun := c.(rotation := c.rotation.(y := c.rotation.y - SPIN));
                && clone == Some(spun)
                && (Distance(math, c.position, player) < PICK_DISTANCE ==> events == old(events) + [Pick(spun)] && !onStage)
                && (Distance(math, c.position, player) >= PICK_DISTANCE ==> events == old(events) && onStage)
    {
      if !onStage || clone.None? {
        return;
      }
      var c := clone.value;
      var spun := c.(rotation := c.rotation.(y := c.rotation.y - SPIN));
      clone := Some(spun);
      if Distance(math, spun.position, player) < PICK_DISTANCE {
        events := events + [Pick(spun)];
        onStage := false;
      }
    }

    /**
     * `spawn(coord)`: the clone (made from `made` the first time, reused
     * afterwards) floats at 1.75 over the coordinate, unrotated and at world
     * scale, is added to the scene and is on stage.
     */
    method Spawn(coord: Coords, made: Clone)
      modifies this`clone, this`events, this`onStage
      ensures clone.Some?
      ensures clone.value.id == if old(clone).Some? then old(clone).value.id else made.id
      ensures clone.value.position == Vec3(coord.0, CLONE_HEIGHT, coord.1)
      ensures clone.value.rotation == ZERO && clone.value.scale == worldScale
      ensures events == old(events) + [AddObject(clone.value)]
      ensures onStage
    {
      var c := if clone.Some? then clone.value else made;
      c := c.(position := Vec3(coord.0, CLONE_HEIGHT, coord.1), scale := worldScale, rotation := Vec3(0.0, 0.0, 0.0));
      clone := Some(c);
      events := events + [AddObject(c)];
      onStage := true;
    }
  }
}
