/**
 * The TypeScript weapon base class: the ray caster's near plane follows the
 * aiming state, the enemies' hit volumes are replaced as a whole, and the
 * damage comes from the weapon's settings. Loading the model and its sounds
 * is asynchronous asset work and is not part of this model.
 */
module WeaponTs {

  import opened Optional

  /** A hit volume of an enemy. */
  datatype Mesh = Mesh(id: nat)

  /** The part of a weapon's settings that the base class reads after loading. */
  datatype Settings = Settings(damage: real)

  class Weapon {
    const aimNear: real := 3.0
    const near: real := 4.5
    const settings: Settings

    /** `raycaster.near`. */
    var rayNear: real
    var aiming: bool
    /** `enemies`, undefined until the `targets` setter first runs. */
    var enemies: Option<seq<Mesh>>

    /** The near plane always matches the aiming state. */
    ghost predicate Valid()
      reads this
    {
      rayNear == if aiming then aimNear else near
    }

    /** `constructor(settings, camera)`: the ray starts at the far near plane, not aiming. */
    constructor (s: Settings)
      ensures Valid()
      ensures settings == s && rayNear == 4.5 && !aiming && enemies == None
    {
      settings := s;
      rayNear := near;
      aiming := false;
      enemies := None;
    }

    /** The `targets` setter: the list of hit volumes is replaced wholesale. */
    method SetTargets(colliders: seq<Mesh>)
      modifies this`enemies
      ensures enemies == Some(colliders)
    {
      enemies := Some(colliders);
    }

    /** The `aim` setter: aiming brings the near plane to 3, not aiming puts it back at 4.5. */
    method SetAim(a: bool)
      requires Valid()
      modifies this`rayNear, this`aiming
      ensures Valid()
      ensures rayNear == (if a then 3.0 else 4.5)
      ensures Aim() == a
    {
      rayNear := if a then aimNear else near;
      aiming := a;
    }

    /** The `aim` getter: the state the setter last recorded. */
    function Aim(): (r: bool)
      reads this
      requires Valid()
      ensures r <==> rayNear == aimNear
    {
      aiming
    }

    /** The `damage` getter: the damage of the weapon's settings. */
    function Damage(): (r: real)
      ensures r == settings.damage
    {
      settings.damage
    }
  }
}
