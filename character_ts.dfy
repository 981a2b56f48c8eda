/**
 * The TypeScript character base: the speed and angle its current animation
 * moves it at, the frame update that forwards a move to the physics while the
 * character moves and stops it once when it comes to rest, and its health and
 * death.
 *
 * The physics manager it calls is not shown; its calls are an appended log.
 * The mesh, the animation mixer, materials, audio and asset loading are not
 * part of this model.
 */
module CharacterTs {

  /** The `{ speed, angle }` record handed to the physics on every move. */
  datatype Moves = Moves(speed: real, angle: real)

  /** A call into the physics manager. */
  datatype PhysicsCall = Move(moves: Moves) | Stop

  const STILL: Moves := Moves(0.0, 0.0)
  const FULL_HEALTH: int := 100

  /**
   * One frame of `update`: whether the character is still afterwards and the
   * physics calls made. A moving character always moves and is not still; a
   * character at rest stops only on the first frame of its rest.
   */
  function Frame(moving: bool, still: bool, moves: Moves): (r: (bool, seq<PhysicsCall>))
    ensures moving ==> r == (false, [Move(moves)])
    ensures !moving ==> r.0
    ensures !moving ==> (r.1 == [Stop] <==> !still) && (r.1 == [] <==> still)
  {
    if moving then (false, [Move(moves)])
    else if !still then (true, [Stop])
    else (still, [])
  }

  /** A run of frames, each with its own `moving` flag: the final `still` and all calls in order. */
  function Frames(moving: seq<bool>, still: bool, moves: Moves): (bool, seq<PhysicsCall>)
    decreases |moving|
  {
    if |moving| == 0 then (still, [])
    else
      var first := Frame(moving[0], still, moves);
      var rest := Frames(moving[1..], first.0, moves);
      (rest.0, first.1 + rest.1)
  }

  /**
   * However many frames a character stands still, the physics is stopped
   * once at most: exactly once when it was not already still, and never
   * when it was.
   */
  lemma {:induction false} RestStopsOnce(moving: seq<bool>, still: bool, moves: Moves)
    requires |moving| > 0
    requires forall i :: 0 <= i < |moving| ==> !moving[i]
    ensures Frames(moving, still, moves) == (true, if still then [] else [Stop])
    decreases |moving|
  {
    var first := Frame(moving[0], still, moves);
    assert first.0;
    if |moving| > 1 {
      RestStopsOnce(moving[1..], true, moves);
    }
    assert Frames(moving[1..], first.0, moves) == (true, []);
    assert first.1 + [] == first.1;
  }

  /** A frame of motion followed by any rest stops the physics exactly once more. */
  lemma MoveThenRest(moving: seq<bool>, still: bool, moves: Moves)
    requires |moving| > 1 && moving[0]
    requires forall i :: 1 <= i < |moving| ==> !moving[i]
    ensures Frames(moving, still, moves) == (true, [Move(moves), Stop])
  {
    var first := Frame(moving[0], still, moves);
    assert first == (false, [Move(moves)]);
    RestStopsOnce(moving[1..], false, moves);
    assert [Move(moves)] + [Stop] == [Move(moves), Stop];
  }

  class Character {
    /** `settings.animations`: the speed and angle of each animation. */
    const animations: map<string, (real, real)>

    var moves: Moves
    var running: bool
    var moving: bool
    var dead: bool
    var still: bool
    var health: int
    /** Calls made to the physics manager so far. */
    var calls: seq<PhysicsCall>

    constructor (settings: map<string, (real, real)>)
      ensures animations == settings
      ensures moves == STILL && !running && !moving && !dead && !still && health == FULL_HEALTH
      ensures calls == []
    {
      animations := settings;
      moves := STILL;
      running := false;
      moving := false;
      dead := false;
      still := false;
      health := FULL_HEALTH;
      calls := [];
    }

    /** `setAnimation(a)`: the speed and angle become the two entries configured for `a`. */
    method SetAnimation(a: string)
      requires a in animations
      modifies this`moves
      ensures moves == Moves(animations[a].0, animations[a].1)
    {
      moves := Moves(animations[a].0, animations[a].1);
    }

    /** `update(delta)`: one frame of movement, as `Frame` describes it. */
    method Update(delta: real)
      modifies this`still, this`calls
      ensures var f := Frame(moving, old(still), moves); still == f.0 && calls == old(calls) + f.1
    {
      if moving {
        calls := calls + [Move(moves)];
        still := false;
      } else if !still {
        still := true;
        calls := calls + [Stop];
      }
    }

    /** `checkIfAlive()`: a character dies when its health is gone, and is never revived. */
    method CheckIfAlive()
      modifies this`dead
      ensures dead <==> old(dead) || health == 0
      ensures old(dead) ==> dead
    {
      if dead {
        return;
      }
      dead := dead || health == 0;
    }

    /** `reset()`: back to full health, alive, at rest, with no animation speed; nothing else changes. */
    method Reset()
      modifies this`moves, this`running, this`moving, this`health, this`dead
      ensures moves == STILL && !running && !moving && health == FULL_HEALTH && !dead
      ensures Alive()
    {
      moves := STILL;
      running := false;
      moving := false;
      health := FULL_HEALTH;
      dead := false;
    }

    /** The `alive` getter. */
    function Alive(): (r: bool)
      reads this
      ensures r <==> !dead
    {
      !dead
    }
  }
}
