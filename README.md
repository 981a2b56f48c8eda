# Zombie shooter core, in Dafny

This project models the core of a browser first-person zombie shooter written in TypeScript and JavaScript.

- **Physics world.** The world is an ammo.js (Bullet) simulation. It holds static box colliders for a level's walls, walkway strips and ground, and capsule colliders for characters. It also carries the player's velocity and activation state, and the per-frame copy of simulated transforms back onto the scene meshes. `createBounds` derives the wall and floor-strip boxes from a level's closed outline.
- **Weapons.** A JavaScript weapon casts a ray against the zombies' hit volumes. It classifies the volume it meets by its index (six per zombie: head, body, four legs) and dispatches a delayed hit event. A TypeScript weapon base keeps the ray's near plane in step with aiming. The rifle handles reload and restock arithmetic and a pickup clone that spins on the level.
- **Characters.** Two character bases exist. The TypeScript one forwards moves to the physics and stops it once at rest. The JavaScript one moves by its direction's speed and is confined to the level's bounds. The player turns the WASD keys into animations, with debouncing, running and aiming. The zombie attaches its six hit volumes and runs timed animation states.
- **Workers.** One worker samples enemy spawn points inside the level outline, away from the player. Another spawns, steps, filters and depth-sorts rain drops.
- **Number helpers.** These are `clamp`, `map`, `smoothstep`, `lerp`, `mix` and `random`, plus the `Elastic` follower, the `Vector` constants and the map-component helpers.

Each source file is one Dafny module:

| module | file |
|---|---|
| `AmmoPhysics` | `ammo_physics.dfy` |
| `RandomCoords` | `random_coords.dfy` |
| `RainParticles` | `rain_particles.dfy` |
| `WeaponJs` | `weapon_js.dfy` |
| `WeaponTs` | `weapon_ts.dfy` |
| `Rifle` | `rifle.dfy` |
| `CharacterTs` | `character_ts.dfy` |
| `CharacterJs` | `character_js.dfy` |
| `Player` | `player.dfy` |
| `Enemy` | `enemy.dfy` |
| `Numbers` | `numbers.dfy` |
| `Vector` | `vector.dfy` |
| `ComponentUtils` | `component_utils.dfy` |

Shared support lives in two modules:

- `Geometry` holds vectors, the math library and basic lemmas.
- `Optional` holds `Option`.

How the source is modelled:

- **Mutated objects are classes.** The physics manager, the weapons, the rifle, the characters, the rain worker's module state and `Elastic` are Dafny classes. Their methods carry `modifies` clauses.
- **Pure helpers are functions.** They come with lemmas.
- **Loops stay loops.** The loops of `createBounds`, `update`, `getRandomCoord`, `addParticles`, `updateParticles` and `updateGeometry` are `while`/`for` loops. Each is proved against a specification function.
- **The spawn outline stays an array.** The sampler rotates it in place.

Things the program cannot see are passed in:

- **Math.** `Math.sqrt`, `Math.atan` and three.js's Euler-to-quaternion conversion form a record of function values (`Geometry.MathLib`). Only the geometry lemmas assume the laws they need (`Geometry.Lawful`).
- **Randomness.** `Math.random()` is a sequence of draws in [0, 1).
- **Time.** `Date.now()` is a parameter.
- **Timers.** Every `setTimeout` body is a pending job in a `timers` sequence. A `Fire` (or `Deliver`, `ReloadTimerFires`) method runs it.
- **Outputs.** Game events, sounds, camera tweens, physics calls and weapon calls are appended logs.
- **Simulation.** The Bullet simulation step is a parameter: the transforms it produces.

Behaviours of the code that the model keeps as written:

- **Thin-side guard.** `createBound` (src/managers/physics/AmmoPhysics.ts:129-130) replaces the width by 0.01 when it is below the depth, and then the depth by 0.01 when it is below the new width. A zero-length edge therefore gives a box with no extent. When the width is strictly the longer side (an edge along x, or a diagonal no deeper than it is wide), the box keeps that width even below 0.01 while its depth becomes 0.01. When the depth is the longer side, both sides end up at least 0.01. `AmmoPhysics.BoundGeometry` states these sizes.
- **Destroying twice.** `destroy()` (src/managers/physics/AmmoPhysics.ts:211-215) frees the Bullet world unconditionally, so a second call frees it again. `AmmoPhysics.AmmoPhysics.Destroy` therefore requires a world that has not been destroyed yet.
- **Collision groups.** `createStaticCollider` adds static boxes in group 2 and `createCharacterCollider` adds characters in group 128, both with mask 0xFFFF, so every body collides with every other. The model keeps these constants.
- **Spawn retries.** `getRandomCoord` draws the depth again only while it lies below the level's top coordinate (37) and within 10 of the player. It draws x again only while both coordinates are within 10 of the player. Neither loop has a bound.
- **Rain drag.** `multiplyScalar(delta)` mutates the cloned velocity, so each component's drag is `0.1 · delta · v`, capped at `|v|`, with the sign of `v` (`RainParticles.Drag`).
- **Health.** `checkIfAlive` in src/characters/Character.ts tests `!health`, so only a health of exactly 0 kills. Negative health leaves the character alive, and the model keeps that.
- **Rifle reload.** The reload branch of the rifle's `addAmmo` fills the magazine whatever the stock holds (`Rifle.ReloadIgnoresStock`). The weapon base that owns the ammunition counts is not part of this model, so the model records this behaviour without correcting it.

## Model

| member | source | states |
|---|---|---|
| AmmoPhysics.RigidBody | src/managers/physics/AmmoPhysics.ts:52-70 | a new body sits at the given pose, never damps, bounces or rubs, and gets local inertia exactly when it has mass |
| AmmoPhysics.StaticBody | src/managers/physics/AmmoPhysics.ts:72-84 | a static collider is a massless box of half the given size, at the box's position and turned by the quaternion of its Euler rotation, in the static group, colliding with everything |
| AmmoPhysics.CharacterBody | src/managers/physics/AmmoPhysics.ts:86-99 | a character collider is a capsule of the mesh's radius and height at the mesh's pose, in the character group, with no angular freedom and full linear freedom |
| AmmoPhysics.StaticBodies | src/managers/physics/AmmoPhysics.ts:146-164 | the bodies added for a list of boxes are one static body per box, in order |
| AmmoPhysics.BoxMeshes | src/managers/physics/AmmoPhysics.ts:146-164 | the scene receives one box mesh per box, in order, with the box's size, position, rotation and material |
| AmmoPhysics.StaticBodiesAppend | src/managers/physics/AmmoPhysics.ts:146-164 | the bodies of two runs of boxes are the bodies of the first run followed by those of the second |
| AmmoPhysics.BoxMeshesAppend | src/managers/physics/AmmoPhysics.ts:146-164 | the meshes of two runs of boxes are those of the first run followed by those of the second |
| AmmoPhysics.Stepped | src/managers/physics/AmmoPhysics.ts:191-193 | a simulation step gives each body the transform computed for it; putting the old transform back gives the old entry, so shape, mass, group, mask and velocity are kept; a well-formed body stays well-formed |
| AmmoPhysics.Synced | src/managers/physics/AmmoPhysics.ts:195-208 | a registered mesh takes its body's origin and rotation and keeps its identity, radius and height |
| AmmoPhysics.Bound | src/managers/physics/AmmoPhysics.ts:106-138 | an edge's box is centred on the edge's midpoint, at the requested height and level |
| AmmoPhysics.BoundGeometry | src/managers/physics/AmmoPhysics.ts:106-138 | an axis-aligned edge gives an unrotated box and a zero-length edge a box with no extent; for a diagonal edge the box's long side is the edge's length and its turn about the vertical is a right angle plus or minus the slope angle, in the matching quadrant; the thin side is 0.01 |
| AmmoPhysics.BoundSpansEdge | src/managers/physics/AmmoPhysics.ts:106-138 | a wall along the z axis at least 0.01 long reaches exactly from one corner to the other |
| AmmoPhysics.FloorStrip | src/managers/physics/AmmoPhysics.ts:153-161 | the floor strip lies halfway between wall and walkway and keeps the walkway's height and turn; its z side becomes 95% of half their distance when the walkway's z side is 0.01, and its x side otherwise; a turned walkway stretches the strip by a tenth, along z when the strip's centre has x < 0 and along x otherwise |
| AmmoPhysics.Closed | src/managers/physics/AmmoPhysics.ts:143-144 | closing an outline appends its first corner and keeps every other corner in place |
| AmmoPhysics.EdgeBoxes | src/managers/physics/AmmoPhysics.ts:146-164 | each edge adds its wall box first, and a second box, the floor strip, exactly when the walkway does not overflow the wall |
| AmmoPhysics.BoundsStep | src/managers/physics/AmmoPhysics.ts:146-164 | the bodies and meshes of one more edge extend those of the edges before it |
| AmmoPhysics.BoundsCount | src/managers/physics/AmmoPhysics.ts:146-164 | k edges add between k and 2k boxes, exactly 2k when no walkway overflows |
| AmmoPhysics.OverflowIsFarther | src/managers/physics/AmmoPhysics.ts:101-104 | a walkway that overflows its wall lies off both axes and farther from the level's centre than the wall, measured across the ground |
| AmmoPhysics.SquareYardFits | src/managers/physics/AmmoPhysics.ts:101-104 | no edge of a square yard with a wider square walkway overflows its wall |
| AmmoPhysics.SquareYardCount | src/managers/physics/AmmoPhysics.ts:140-165 | a square yard gets four walls and four floor strips |
| AmmoPhysics.SquareYardWalk | src/managers/physics/AmmoPhysics.ts:106-138 | the square yard's first walkway box lies along the x axis, unrotated, 24 long and 0.01 thin |
| AmmoPhysics.SquareYardStrip | src/managers/physics/AmmoPhysics.ts:153-161 | the square yard's first floor strip lies halfway between wall and walkway, 24 long and 0.95 wide |
| AmmoPhysics.AmmoPhysics.constructor | src/managers/physics/AmmoPhysics.ts:39-50 | a new world has gravity -9.81 along y, no bodies, no colliders and no player, and is neither paused nor destroyed |
| AmmoPhysics.AmmoPhysics.CreateStaticCollider | src/managers/physics/AmmoPhysics.ts:72-84 | the world gains the static body of the scratch box and the scene gains its mesh; registered meshes stay on their bodies |
| AmmoPhysics.AmmoPhysics.CreateCharacterCollider | src/managers/physics/AmmoPhysics.ts:86-99 | the world gains the mesh's capsule body, the collider is registered under the mesh's uuid with that body, and the scene gains the mesh |
| AmmoPhysics.AmmoPhysics.CreateBound | src/managers/physics/AmmoPhysics.ts:106-138 | the scratch position, rotation and size become the edge's box |
| AmmoPhysics.AmmoPhysics.CreateBounds | src/managers/physics/AmmoPhysics.ts:140-165 | the world and the scene gain every edge's wall and floor-strip boxes in outline order; the scratch vectors keep what the last edge left in them |
| AmmoPhysics.AmmoPhysics.CreateEdge | src/managers/physics/AmmoPhysics.ts:146-164 | one turn of the loop keeps the loop invariant: the boxes of the edges done so far have been added, in order |
| AmmoPhysics.AmmoPhysics.CreateWall | src/managers/physics/AmmoPhysics.ts:147-148 | the edge's wall box is built and added as a static collider |
| AmmoPhysics.AmmoPhysics.CreateWalkway | src/managers/physics/AmmoPhysics.ts:150-163 | the walkway box is built; unless it overflows the wall, the floor strip made from it is added |
| AmmoPhysics.AmmoPhysics.PlaceStrip | src/managers/physics/AmmoPhysics.ts:154-161 | the scratch walkway box is moved and resized into the floor strip next to the wall |
| AmmoPhysics.AmmoPhysics.CreateGround | src/managers/physics/AmmoPhysics.ts:167-171 | the ground is a transparent box 0.01 thick whose x and z extents run exactly between the two corners; it keeps whatever rotation the scratch rotation holds, which is what the last `createBound` left there |
| AmmoPhysics.AmmoPhysics.SetPlayer | src/managers/physics/AmmoPhysics.ts:173-177 | the player is a 90 kg character capsule, added asleep and remembered as the player's body |
| AmmoPhysics.AmmoPhysics.Move | src/managers/physics/AmmoPhysics.ts:179-183 | only the player's body changes: it takes the direction as its velocity and wakes |
| AmmoPhysics.AmmoPhysics.Stop | src/managers/physics/AmmoPhysics.ts:185-189 | only the player's body changes: it comes to rest and sleeps |
| AmmoPhysics.AmmoPhysics.Update | src/managers/physics/AmmoPhysics.ts:191-209 | a paused world stays as it was; otherwise every body takes its stepped transform and every registered mesh then sits where its body is |
| AmmoPhysics.AmmoPhysics.SyncMeshes | src/managers/physics/AmmoPhysics.ts:195-208 | every registered mesh takes its body's transform and no collider is added or lost |
| AmmoPhysics.AmmoPhysics.Destroy | src/managers/physics/AmmoPhysics.ts:211-215 | the registry is emptied and the world is paused and destroyed |
| AmmoPhysics.AmmoPhysics.SetPause | src/managers/physics/AmmoPhysics.ts:217-220 | the paused flag follows the request, and only the player's body changes: it sleeps while paused and wakes otherwise |
| RandomCoords.ExtMax | src/managers/Worker/randomCoords.ts:66 | `Math.max` over the numbers with both infinities returns one of its arguments, and neither argument exceeds it |
| RandomCoords.ExtMin | src/managers/Worker/randomCoords.ts:67 | `Math.min` over the numbers with both infinities returns one of its arguments, and it exceeds neither |
| RandomCoords.Shift | src/managers/Worker/randomCoords.ts:66-67 | adding half a unit keeps a number finite and leaves an infinity infinite |
| RandomCoords.RotatedLeftAt | src/managers/Worker/randomCoords.ts:16-17 | rotating the outline moves every point one place forward and the first to the back, and loses none |
| RandomCoords.RotateLeft | src/managers/Worker/randomCoords.ts:16-17 | the in-place rotation leaves the array holding the rotated outline |
| RandomCoords.Filter | src/managers/Worker/randomCoords.ts:19-20 | filtering keeps exactly the points that pass the test and never adds any |
| RandomCoords.FilterAppend | src/managers/Worker/randomCoords.ts:19-20 | filtering keeps the outline's order |
| RandomCoords.Sides | src/managers/Worker/randomCoords.ts:19-20 | the right side holds exactly the points with x < 0 and the left side those with x > 0; a point on the centre line is on neither |
| RandomCoords.ScanPointFields | src/managers/Worker/randomCoords.ts:38-50 | a point's callback updates the bracket below the depth and the one above it separately |
| RandomCoords.LowerUnique | src/managers/Worker/randomCoords.ts:38-64 | at most one point is the tightest below the depth |
| RandomCoords.UpperUnique | src/managers/Worker/randomCoords.ts:38-64 | at most one point is the tightest above the depth |
| RandomCoords.LowerExtend | src/managers/Worker/randomCoords.ts:38-64 | one more point becomes the tightest below exactly when it lies below the depth and above the current one |
| RandomCoords.LowerFirst | src/managers/Worker/randomCoords.ts:38-64 | the first point below the depth is the tightest so far |
| RandomCoords.UpperExtend | src/managers/Worker/randomCoords.ts:38-64 | one more point becomes the tightest above exactly when it lies above the depth and below the current one |
| RandomCoords.UpperFirst | src/managers/Worker/randomCoords.ts:38-64 | the first point above the depth is the tightest so far |
| RandomCoords.LowerExists | src/managers/Worker/randomCoords.ts:38-64 | if some point lies below the depth, one of them is the tightest |
| RandomCoords.UpperExists | src/managers/Worker/randomCoords.ts:38-64 | if some point lies above the depth, one of them is the tightest |
| RandomCoords.ScanLowerNone | src/managers/Worker/randomCoords.ts:38-64 | with no point below the depth, both lower values stay at -Infinity |
| RandomCoords.ScanLowerAt | src/managers/Worker/randomCoords.ts:38-64 | the scan's lower values are the x and z of the tightest point below the depth |
| RandomCoords.ScanLower | src/managers/Worker/randomCoords.ts:38-64 | the scan's lower values are -Infinity exactly when no point lies below, and otherwise those of the tightest point below |
| RandomCoords.ScanUpperNone | src/managers/Worker/randomCoords.ts:38-64 | with no point above the depth, both upper values stay at Infinity |
| RandomCoords.ScanUpperAt | src/managers/Worker/randomCoords.ts:38-64 | the scan's upper values are the x and z of the tightest point above the depth |
| RandomCoords.ScanUpper | src/managers/Worker/randomCoords.ts:38-64 | the scan's upper values are Infinity exactly when no point lies above, and otherwise those of the tightest point above |
| RandomCoords.ScanSide | src/managers/Worker/randomCoords.ts:38-50 | the `forEach` with its four running variables computes the side's scan |
| RandomCoords.ScanFinite | src/managers/Worker/randomCoords.ts:38-64 | a side's lower value is finite exactly when some point lies below the depth, and its upper value exactly when some point lies above it |
| RandomCoords.XRangeFinite | src/managers/Worker/randomCoords.ts:66-67 | the lower x end is finite exactly when some right point lies above z; below the top coordinate, the upper end is finite exactly when some left point lies below z, and from it on exactly when some left point lies above z |
| RandomCoords.FirstZ | src/managers/Worker/randomCoords.ts:33-36 | the z loop settles on the first draw whose depth needs no retry, and every earlier draw needed one; it runs out only when every remaining draw needs a retry |
| RandomCoords.FirstX | src/managers/Worker/randomCoords.ts:69-72 | the x loop settles on the first draw whose x needs no retry, and every earlier draw needed one; it runs out only when every remaining draw needs a retry |
| RandomCoords.DrawZ | src/managers/Worker/randomCoords.ts:33-36 | the `do … while` loop for z computes `FirstZ` |
| RandomCoords.DrawX | src/managers/Worker/randomCoords.ts:69-72 | the `do … while` loop for x computes `FirstX` |
| RandomCoords.Sample | src/managers/Worker/randomCoords.ts:15-74 | the point is never the empty-outline result; its z lies half a unit inside the level's depth and needs no retry; a spawn point's x lies in the finite x range read off the outline at that depth, and the point is never within 10 of the player on both axes; a non-finite x is returned only when an end of that range is infinite |
| RandomCoords.GetRandomCoord | src/managers/Worker/randomCoords.ts:15-74 | exactly an empty outline gives `EmptyBounds`; any other outline is rotated in place and the result is `Sample` of the rotated outline: the depth is `FirstZ` of the draws, a missing bracket gives a non-finite x when a draw remains and no point otherwise, and a spawn point's x is `FirstX` of the draws after the depth's |
| RainParticles.DragIsProportional | src/managers/worker/rainParticles.ts:67-73 | for a frame of at most ten seconds the drag takes exactly a tenth of the velocity per second of frame time |
| RainParticles.DragNeverReverses | src/managers/worker/rainParticles.ts:67-73 | whatever the frame time, the drag slows each velocity component without reversing it |
| RainParticles.NewDrop | src/managers/worker/rainParticles.ts:33-49 | a new drop lives between 3.75 and 5.25 seconds, starts transparent with its full life, falls at 50 to 75, starts up to 50 below the top, and lies within the level's x and z range |
| RainParticles.Step | src/managers/worker/rainParticles.ts:58-73 | a frame takes the frame time off a drop's life; a drop still alive moves by its old velocity over the frame, takes its opacity from the spline at the fraction of its life spent, and is slowed by the drag; a dead drop changes in nothing else |
| RainParticles.Living | src/managers/worker/rainParticles.ts:76-77 | the filter keeps exactly the drops with life left and adds none |
| RainParticles.Insert | src/managers/worker/rainParticles.ts:78-84 | insertion adds the drop to the multiset and keeps the order farthest first |
| RainParticles.SortByDistance | src/managers/worker/rainParticles.ts:78-84 | the sort is a permutation, and no drop is closer to the camera than the one after it |
| RainParticles.Stepped | src/managers/worker/rainParticles.ts:54-74 | every drop goes through one frame in its own place, and every life span stays between 3.75 and 5.25 |
| RainParticles.BatchSize | src/managers/worker/rainParticles.ts:27-30 | fifty drops are spawned per whole hundredth of a second accumulated |
| RainParticles.SurvivorsAged | src/managers/worker/rainParticles.ts:53-85 | every drop left after a frame is alive and is the step of a drop that was there before, with exactly the frame time less to live |
| RainParticles.LivingLifeSpans | src/managers/worker/rainParticles.ts:76-84 | filtering and sorting keep every drop's life span |
| RainParticles.TickRemainder | src/managers/worker/rainParticles.ts:27-29 | taking the whole hundredths off the accumulated time leaves less than a hundredth and never less than nothing |
| RainParticles.Batch | src/managers/worker/rainParticles.ts:32-50 | a batch of n has n drops, drop k made from draws 4k to 4k + 3, each with a life span between 3.75 and 5.25 |
| RainParticles.Rain.constructor | src/managers/worker/rainParticles.ts:6-14 | the worker starts with no drops, no accumulated time and the camera at the origin |
| RainParticles.Rain.AddParticles | src/managers/worker/rainParticles.ts:25-51 | the whole hundredths are taken off the accumulated time, leaving less than one; the drops become the old ones followed by a `Batch` of fifty per hundredth |
| RainParticles.Rain.UpdateParticles | src/managers/worker/rainParticles.ts:53-85 | the drops become the living ones after a frame, sorted farthest first, each with life left; every life span stays valid |
| RainParticles.Rain.StepAll | src/managers/worker/rainParticles.ts:54-74 | the loop puts every drop through one frame in place |
| RainParticles.Rain.UpdateGeometry | src/managers/worker/rainParticles.ts:87-100 | the buffers hold three coordinates and one opacity per drop, in drop order |
| RainParticles.Rain.UpdateRainParticles | src/managers/worker/rainParticles.ts:16-23 | the camera is recorded; the frame time is added and the whole hundredths taken off; the drops become the old ones plus the new batch, put through one frame, filtered to the living and sorted farthest first from the new camera; the buffers hold each drop's three coordinates and opacity in that order |
| WeaponJs.JsRem6 | src/weapons/Weapon.js:75 | JavaScript's `% 6` keeps the sign of the dividend, lies strictly between -6 and 6, and is 0 exactly when 6 divides the index |
| WeaponJs.Round | src/weapons/Weapon.js:63 | `Math.round` gives the integer nearest to x, rounding halves up |
| WeaponJs.GetEvent | src/weapons/Weapon.js:74-78 | a hit is a head shot exactly when the index is a multiple of six; a non-negative index one past a multiple of six is a body hit; any other index is a leg hit |
| WeaponJs.GetEventPeriodic | src/weapons/Weapon.js:74-78 | the classification repeats every six indices |
| WeaponJs.IndexOf | src/weapons/Weapon.js:83 | `indexOf` is -1 exactly when the volume is absent, and otherwise the position of its first occurrence |
| WeaponJs.Weapon.constructor | src/weapons/Weapon.js:14-26 | a new weapon has the far near plane 4.5, is not aiming, has no targets, and deals damage 10 |
| WeaponJs.Weapon.Target | src/weapons/Weapon.js:80-84 | the target is the index of the nearest volume the ray meets, and -1 when the ray meets nothing or a volume that is not a target |
| WeaponJs.Weapon.Shoot | src/weapons/Weapon.js:54-70 | the shot sound always plays; a hit is scheduled only when there is a target, delayed by its distance over the bullet speed, rounded, and carrying the target's enemy and region |
| WeaponJs.Weapon.Deliver | src/weapons/Weapon.js:66-68 | a hit's timer fires: its event is dispatched with its enemy and it leaves the pending hits |
| WeaponJs.Weapon.SetAiming | src/weapons/Weapon.js:86-89 | the near plane is 3 while aiming and 4.5 otherwise, and the intended getter then reports the state set |
| WeaponJs.Weapon.AimingAsWritten | src/weapons/Weapon.js:91-93 | the getter as written returns nothing |
| WeaponJs.Weapon.Aiming | src/weapons/Weapon.js:91-93 | the getter as intended returns the aiming flag |
| WeaponJs.AimingGetterLosesFlag | src/weapons/Weapon.js:86-93 | after aiming is set, the getter as written still does not report it, while the intended getter does |
| WeaponTs.Weapon.constructor | src/weapons/Weapon.ts:24-36 | the ray starts at the far near plane 4.5, not aiming, with no targets set |
| WeaponTs.Weapon.SetTargets | src/weapons/Weapon.ts:64-66 | the hit volumes are replaced as a whole |
| WeaponTs.Weapon.SetAim | src/weapons/Weapon.ts:68-71 | the near plane is 3 while aiming and 4.5 otherwise, and the getter then reports the state set |
| WeaponTs.Weapon.Aim | src/weapons/Weapon.ts:73-75 | the weapon is aiming exactly when the near plane is the aiming one |
| WeaponTs.Weapon.Damage | src/weapons/Weapon.ts:77-79 | the damage is the one in the weapon's settings |
| Rifle.Reloaded | src/weapons/Rifle.ts:46-52 | a reload fills the magazine; the stock never goes negative, pays exactly for the rounds loaded when it can, and otherwise ends empty |
| Rifle.Restocked | src/weapons/Rifle.ts:54 | a pickup adds to the stock up to the maximum stock, and exactly when that is not exceeded |
| Rifle.ReloadIgnoresStock | src/weapons/Rifle.ts:46-52 | whenever the stock holds fewer rounds than the magazine lacks, the magazine is still filled and the stock empties, so rounds appear |
| Rifle.ReloadFullIsIdentity | src/weapons/Rifle.ts:46-52 | reloading a full magazine changes nothing |
| Rifle.Rifle.constructor | src/weapons/Rifle.ts:12-22 | a new rifle is not reloading, not on stage and has no clone; its model has the configured pose |
| Rifle.Rifle.SetAim | src/weapons/Rifle.ts:25-28 | the model comes to the centre of the view, turned half a circle and tilted by 0.1 |
| Rifle.Rifle.CancelAim | src/weapons/Rifle.ts:31-33 | the model goes back to its configured pose |
| Rifle.Rifle.StartReloading | src/weapons/Rifle.ts:36-42 | the model drops its depth and roll, the looping reload sound starts, and the rifle is reloading |
| Rifle.Rifle.AddAmmo | src/weapons/Rifle.ts:45-61 | no rounds means a reload: the magazine is filled as `Reloaded` says and a timer is set; any other count restocks as `Restocked` says; both report the counts |
| Rifle.Rifle.StopReloading | src/weapons/Rifle.ts:64-68 | the reload sound stops only if a reload was running; the rifle is no longer reloading and its pose is reset |
| Rifle.Rifle.ReloadTimerFires | src/weapons/Rifle.ts:50 | the reload timer fires 500 ms later and stops the reload |
| Rifle.Rifle.Update | src/weapons/Rifle.ts:70-79 | a clone on stage spins by 0.025 per frame and is picked up once, when the player comes within 2.5; otherwise nothing changes |
| Rifle.Rifle.Spawn | src/weapons/Rifle.ts:81-91 | the clone, reused after the first time, floats 1.75 over the coordinate, unrotated and at world scale, is added to the scene and is on stage |
| Rifle.Rifle.Reset | src/weapons/Rifle.ts:93-96 | the model returns to its configured position and rotation |
| CharacterTs.Frame | src/characters/Character.ts:94-106 | a moving character forwards its move and is not still; a character at rest stops the physics exactly when it was not yet still |
| CharacterTs.RestStopsOnce | src/characters/Character.ts:94-106 | however many frames a character stands still, the physics is stopped once when it was not still, and never when it was |
| CharacterTs.MoveThenRest | src/characters/Character.ts:94-106 | a frame of motion followed by rest moves the physics once and stops it once |
| CharacterTs.Character.constructor | src/characters/Character.ts:24-46 | a new character has full health, is alive, not moving or running, and has no speed |
| CharacterTs.Character.SetAnimation | src/characters/Character.ts:78-83 | the speed and angle become the animation's configured pair |
| CharacterTs.Character.Update | src/characters/Character.ts:94-106 | one frame of movement, as `Frame` describes it |
| CharacterTs.Character.CheckIfAlive | src/characters/Character.ts:108-112 | a character is dead exactly when it was already dead or its health is 0, and is never revived |
| CharacterTs.Character.Reset | src/characters/Character.ts:161-168 | full health, alive, at rest, with no speed |
| CharacterTs.Character.Alive | src/characters/Character.ts:174-176 | a character is alive exactly when it is not dead |
| CharacterJs.ClampTo | src/characters/Character.js:75-85 | an infinite bound leaves a coordinate alone; a finite bound keeps it within the bound, leaves a value already inside unchanged, and moves a value outside to the nearer end |
| CharacterJs.ClampToIdempotent | src/characters/Character.js:75-85 | clamping twice is clamping once |
| CharacterJs.ConfineWithin | src/characters/Character.js:71-86 | a confined position lies within non-negative bounds, keeps its height, and is not changed by confining it again |
| CharacterJs.Bounds.constructor | src/characters/Character.js:9-12 | the shared bounds start unbounded |
| CharacterJs.Bounds.SetBounds | src/characters/Character.js:96-99 | the stage's extents become the bounds for every character |
| CharacterJs.Character.constructor | src/characters/Character.js:15-28 | a new character has health 100, no speed, and is not moving or running |
| CharacterJs.Character.SetDirection | src/characters/Character.js:66-69 | the speed becomes the direction's configured pair |
| CharacterJs.Character.UpdatePosition | src/characters/Character.js:71-86 | the character takes one step at its speed and is then confined within the shared bounds |
| CharacterJs.Character.Update | src/characters/Character.js:88-94 | only a moving character changes position |
| Player.GetMoveDirection | src/characters/Player.js:96-100 | forward beats backward and left beats right, and with no key pressed the direction is "Idle" |
| Player.IdleIffNoKey | src/characters/Player.js:96-100 | the direction is "Idle" exactly when no key is pressed |
| Player.DirectionPrecedence | src/characters/Player.js:96-100 | holding W makes S irrelevant, and holding A makes D irrelevant |
| Player.Absent | src/characters/Player.js:77 | a text without the first letter of a word does not include the word |
| Player.ForwardIffW | src/characters/Player.js:77 | a direction mentions "Forward" exactly when W is pressed |
| Player.Animation | src/characters/Player.js:74 | an animation name is the weapon's name followed by what the animation shows |
| Player.FirstLetter | src/characters/Player.js:74 | an animation name starts with the held weapon's initial |
| Player.AnimationInjective | src/characters/Player.js:74 | an animation name determines both the weapon and what the animation shows |
| Player.MoveNamesIdle | src/characters/Player.js:71-94 | moving asks for the idle animation exactly when no key is pressed |
| Player.Cleared | src/characters/Player.js:192 | `clearTimeout` removes exactly the timers with that id |
| Player.Player.constructor | src/characters/Player.js:14-42 | a new player holds the rifle, has no weapon object yet, is not aiming and has no move or aim time |
| Player.Player.Loaded | src/characters/Player.js:15-32 | once loaded, the rifle idle animation is the last one |
| Player.Player.SetWeapon | src/characters/Player.js:44-52 | the weapon is held, the weapon kind is recorded, and the weapon aims at the colliders |
| Player.Player.Schedule | src/characters/Player.js:63-68 | a timer job waits under a fresh id |
| Player.Player.IdleName | src/characters/Player.js:219-221 | the idle animation of the held weapon (the `_aim` getter at lines 223-225 is `Animation(hasRifle, "Aim")`, used by `Aim`) |
| Player.Player.Idle | src/characters/Player.js:54-69 | idle is ignored while aiming or when already idle; otherwise the player stops at once and settles into idle when its timer fires |
| Player.Player.Move | src/characters/Player.js:71-94 | a move is dropped while aiming, when the animation would not change, when running forwards, or within 150 ms of the last accepted move; otherwise the player walks, the time is recorded, and direction and animation settle when the timer fires |
| Player.Player.Run | src/characters/Player.js:102-128 | a run is ignored while aiming; a new run settles into the run animation; anything else falls back to idle with no key pressed and not aiming, or to an ordinary move |
| Player.Player.CancelAimAnimation | src/characters/Player.js:191-202 | the pending aim timer is cleared, the player returns to idle, and an immediate cancel also stops it |
| Player.Player.AimCameraAnimation | src/characters/Player.js:168-189 | unless cancelled, the weapon takes its aim pose 100 ms faster; the camera tweens to the aiming or normal position, after 100 ms when aiming |
| Player.Player.Aim | src/characters/Player.js:135-166 | releasing aim within 900 ms cancels it: the aim timer is cleared, the idle timer is added unless idle was the last animation, the player stops under 100 ms or when it goes idle, and the tween lasts as long as the time aimed up to 400 ms; any other change takes 400 ms, records the aim time and adds the timer that settles the aim or idle animation unless it is already the last one; the player's and the weapon's flags follow the request |
| Player.Player.Shoot | src/characters/Player.js:204-208 | only while the trigger is down the weapon fires from the player's position: the shot sound plays, and a hit on the target the ray meets is scheduled as `WeaponJs.Weapon.Shoot` describes; nothing else of the weapon changes |
| Player.Player.Update | src/characters/Player.js:210-212 | the character's update: only a moving player changes position |
| Player.Player.Fire | src/characters/Player.js:63-68 | a timer leaves the queue and its job runs: a settling job sets the direction's speed and records the animation, keeping the running and moving flags; the deferred idle does what `Idle` does |
| Enemy.ClassifiesPart | src/characters/Enemy.js:56-118 | with the zombies' volumes laid end to end, the weapon's classification of any index names the part the volume there covers |
| Enemy.Targets | src/characters/Enemy.js:40-45 | n zombies give 6n volumes, with volume j laid out like volume j mod 6 |
| Enemy.TargetsClassified | src/characters/Enemy.js:56-118 | every volume among n zombies is classified by the part it covers |
| Enemy.Enemy.constructor | src/characters/Enemy.js:20-54 | a new zombie does not see, reach or attack the player, and has no volumes and no timers |
| Enemy.Enemy.AddHeadCollider | src/characters/Enemy.js:56-67 | the head box is appended |
| Enemy.Enemy.AddBodyCollider | src/characters/Enemy.js:69-83 | the body capsule is appended |
| Enemy.Enemy.AddLegsCollider | src/characters/Enemy.js:85-118 | the right and left upper legs, then the right and left lower legs, are appended |
| Enemy.Enemy.Loaded | src/characters/Enemy.js:40-45 | after loading the volumes are exactly head, body and four legs, in that order |
| Enemy.Enemy.Schedule | src/characters/Enemy.js:124-134 | a timer job waits under a fresh id with its delay |
| Enemy.Enemy.Idle | src/characters/Enemy.js:120-135 | the idle flags are set after 250 ms |
| Enemy.Enemy.Walk | src/characters/Enemy.js:137-152 | the walking flags are set after 250 ms |
| Enemy.Enemy.Run | src/characters/Enemy.js:170-185 | the running flags are set after 100 ms |
| Enemy.Enemy.Scream | src/characters/Enemy.js:154-168 | the zombie halts at once and the scream settles after 133 ms |
| Enemy.Enemy.Attack | src/characters/Enemy.js:187-205 | the zombie attacks standing still, at once; the attack settles after 166 ms and remembers the animation it interrupted |
| Enemy.Enemy.Update | src/characters/Enemy.js:207-213 | a moving zombie takes one step at its speed, confined to the bounds, and one at rest stays put; the zombie turns to a player it sees |
| Enemy.Enemy.IdleDone | src/characters/Enemy.js:124-134 | when idle settles the zombie stands, not attacking, at the idle speed |
| Enemy.Enemy.WalkDone | src/characters/Enemy.js:141-151 | when walking settles the zombie moves without running or attacking, at the walking speed |
| Enemy.Enemy.RunDone | src/characters/Enemy.js:174-184 | when running settles the zombie moves and runs without attacking, at the running speed |
| Enemy.Enemy.ScreamDone | src/characters/Enemy.js:162-167 | a scream that leads to a run starts it 2500 ms later |
| Enemy.Enemy.AttackDone | src/characters/Enemy.js:198-204 | the interrupted animation resumes 4400 ms after a hard attack and 2500 ms after a soft one |
| Enemy.Enemy.ResumePrevious | src/characters/Enemy.js:203 | the method named by the interrupted animation runs again; a name that is no method changes nothing |
| Enemy.Enemy.Fire | src/characters/Enemy.js:124-134 | a timer leaves the queue and its job runs: a settling job sets the flags, the animation and the direction's speed; the end of a scream or an attack adds its follow-up timer; a deferred run adds the run timer; a resumed animation adds its timer, or halts the zombie for a scream; every other job keeps the flags and the speed |
| Numbers.Clamp | src/utils/number.js:3 | the result lies between the bounds, and a value already between them is unchanged |
| Numbers.Map | src/utils/number.js:5 | the result lies in [0, 1]: 0 at or below the lower end, 1 at or above the upper end, and in between the fraction of the range the value has covered |
| Numbers.QuotientBounds | src/utils/number.js:5 | a value within the range has its position in the range between 0 and 1 |
| Numbers.Smoothstep | src/utils/number.js:1 | smoothstep is the same as `map` |
| Numbers.Random | src/utils/number.js:6 | a draw in [0, 1) lands in [lo, hi), or in (hi, lo] when the ends are swapped |
| Numbers.Below1 | src/utils/number.js:6 | a draw below 1 keeps the result short of the upper end |
| Numbers.NegativeScale | src/utils/number.js:6 | with the ends swapped, a draw below 1 keeps the result above the upper end and not past the lower one |
| Numbers.TowardBetween | src/utils/number.js:7 | moving a fraction between 0 and 1 of the way lands between the start and the target |
| Numbers.Lerp | src/utils/number.js:7 | lerp gives the start at 0 and the end at 1, and lies between them for t in [0, 1] |
| Numbers.Mix | src/utils/number.js:2 | mix is the same interpolation as lerp |
| Numbers.ElasticFixedPoint | src/utils/number.js:16-19 | a value at its target stays there |
| Numbers.ElasticApproaches | src/utils/number.js:16-19 | a step whose rate is between 0 and 1 keeps the value on its side of the target and never moves it farther away |
| Numbers.Elastic.constructor | src/utils/number.js:10-14 | the target and the value start at the initial value, with speed 3 |
| Numbers.Elastic.Update | src/utils/number.js:16-19 | the value moves toward the target by speed times delta of the remaining distance, and a value at its target stays there |
| Vector.DirectionConstants | src/utils/Vector.ts:4-11 | the six constants are unit vectors along the axes, and each is the opposite of its partner |
| Vector.Random | src/utils/Vector.ts:13-17 | every component lies in [-1, 1) |
| ComponentUtils.GetScaledCoords | src/components/utils/index.ts:3-4 | the coordinates are shifted by the minimum and scaled |
| ComponentUtils.ScaledOrigin | src/components/utils/index.ts:3-4 | at scale 1 the origin lands on the minimum coordinates |
| ComponentUtils.ScaledExample | src/components/utils/index.ts:3-4 | scaling (50, 50) from (0, 0) by 5 gives (250, 250) |
| ComponentUtils.PointInCircleIff | src/components/utils/index.ts:6-7 | for a non-negative radius a point is inside exactly when its squared distance is below the squared radius, so the rim is outside |
| ComponentUtils.ZeroRadiusIsEmpty | src/components/utils/index.ts:6-7 | no point lies inside a circle of radius 0 |
| ComponentUtils.PointInCircleExamples | src/components/utils/index.ts:6-7 | (1.25, 1.25) is outside the unit circle around (0.5, 0.5), and (0, 0) is inside the 0.75 circle around it |
| Geometry.HypotenuseExceeds | src/managers/physics/AmmoPhysics.ts:123 | a diagonal edge is longer than each of its two axis extents |

## Left out

- **Bullet internals.** Ammo.js / Bullet are not modelled: the dispatcher, broadphase, solver and motion states. `stepSimulation` is represented by the transforms it produces, passed to `AmmoPhysics.AmmoPhysics.Update`. Every body is assumed to have a motion state, as every body the game creates does.
- **Math.** `Math.sqrt`, `Math.atan` and three.js's Euler-to-quaternion conversion are uninterpreted functions in `Geometry.MathLib`. Only the laws in `Geometry.Lawful` are assumed, and only by the geometry lemmas.
- **Floating point.** Numbers are exact reals. IEEE rounding, `NaN` and the infinities of ordinary arithmetic are not modelled. The infinities the spawn sampler starts its scan from are modelled (`RandomCoords.Ext`).
- **Randomness.** `Math.random()` is a caller-supplied sequence of draws in [0, 1).
- RandomCoords.GetRandomCoord: the unbounded `do … while` retry loops become `OutOfDraws` once the draws are used up. Where the source throws on an empty outline, the model returns `EmptyBounds`. Where it would return `NaN` or an infinite x, the model returns `NonFiniteX`.
- **Timers and time.** `setTimeout` and `clearTimeout` become explicit queues of jobs that `Fire`-style methods run. The delays are recorded but no clock orders the jobs. `Date.now()` is the parameter `now`.
- **Rendering and assets.** GLTF and audio loading, asynchronous promises, animation mixers, cross-fades, `play`/`stop` and materials are not modelled. So are the `Object3D` scene graph, camera handling (`Player.camera` and `addCamera`), sounds (counted or logged only), and the anime.js tween (recorded in `tweens`).
- **Loading helpers.** These are asset and render work and are not modelled: `Character.ts` `dispose`, `createAnimations`, `createAudio`, `setCharacterMaterial`, `load` and the `collider` getter; `Character.js` `load` and `createAnimations`; `Weapon.js` `load` and `setToPlayer`; `Weapon.ts` `load`, `loadSounds` and the `model` getter.
- **Enemy volume geometry.** The shapes and offsets of the zombie's hit volumes are recorded as the constants of `Enemy.LAYOUT`. The bone lookup `getObjectById` is not modelled.
- **Alpha spline.** The rain worker's `Spline.getValue` is the function value `spline`. Its points are recorded in `RainParticles.SPLINE_POINTS`, but its interpolation is not modelled.
- **Ray casting.** `Raycaster.intersectObjects` is represented by its result: the volumes met, nearest first.
- **Bullet speed.** The concrete JavaScript weapon sets its bullet speed; it is not part of this model and becomes a constructor argument.
- **Missing source files.** Neither the physics manager `@/managers/Physics` called by `Character.ts` nor the rifle's weapon base is shown; both are not part of this model. The physics calls are logged, and the base's ammunition counts are rifle fields.
- **Throwing lookups.** These members require what the source would otherwise throw on, by indexing `undefined`:
  - CharacterTs.Character.SetAnimation: requires a configured animation.
  - CharacterJs.Character.SetDirection: requires a configured direction.
  - Player.Player.Fire: requires a job whose direction is configured.
  - Enemy.Enemy.Fire: requires a job whose direction is configured.
  - Player.Player.Aim: requires a weapon, since `this.weapon.aiming` throws on the missing weapon.
  - Player.Player.Shoot: requires a weapon when the trigger is down, since `this.weapon.shoot` throws otherwise.
- AmmoPhysics.AmmoPhysics.Destroy: requires a world that has not been destroyed; a second `destroy()` frees the Bullet world twice.
- AmmoPhysics.AmmoPhysics.CreateBounds: requires a walkway outline with at least as many corners as the wall outline, since the source reads `undefined` past its end.
- AmmoPhysics.AmmoPhysics.Move: requires `setPlayer` to have run, because the source reads the undefined player otherwise. The same holds for AmmoPhysics.AmmoPhysics.Stop and AmmoPhysics.AmmoPhysics.SetPause.
- CharacterTs.Character.Update: the `moves` object handed to the physics is copied by value. The source passes the same object every frame, so a later `setAnimation` would also change what the physics holds.
- RainParticles.SortByDistance: the sort is stated to be a permutation ordered farthest first; that it keeps drops at equal distance in their old order, as JavaScript's stable sort does, is not stated.
- **Keys.** The `directions` key array is the record `Player.Keys` of four booleans.
- **Outside the core.** The game loop, stage, level loading, the worker message plumbing and the string and array utilities are not modelled.

## Findings

| source | as written | input that shows it | evidently intended | confidence | as-written member | corrected member |
|---|---|---|---|---|---|---|
| src/weapons/Weapon.js:91-93 | the `aiming` getter evaluates `this._aiming` but has no `return`, so it yields `undefined` | `weapon.aiming = true; weapon.aiming` gives `undefined` | return the flag the setter stored, as the TypeScript weapon's `aim` getter does | high (not executed) | WeaponJs.Weapon.AimingAsWritten, WeaponJs.AimingGetterLosesFlag | WeaponJs.Weapon.Aiming |
