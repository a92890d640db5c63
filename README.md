# Nintendo DS tanks game: a Dafny model

This project models the game logic of a Nintendo DS tank game and the
Node scripts that turn stage images into the C++ barrier tables the game
compiles in. Dafny proves properties of the model.

The shipped game lives in `source/`. It is modelled with:

- tanks (`Tank`) that move one pixel at a time with sub-pixel accumulators;
- tanks that turn their body towards the held direction five degrees per
  frame, keep a position history and fire from a fixed pool of bullets;
- bullets (`Bullet`) that walk pixel by pixel and ricochet off the walls of
  the barrier grid;
- the stage (`Stage`) that owns the tanks and sweeps every bullet in flight
  against every other bullet and every tank;
- the button and touch handlers (`input.cpp`) and the main loop's per-frame
  order (`main.cpp`).

Four earlier revisions of the same game are modelled separately, each in
its own module:

- the bitmap prototype (`v1_bitmap`);
- the first sprite version (`v2_sprites`) and its template;
- the sprite-and-background version (`v2_sprites_and_backgrounds`), whose
  movement code `v3_projectiles` also carries.

The three converters come from `utils/convert.js`,
`map_to_barrier/convert.js` and `utils/convertToJSON.js`. Each reads
RGBA pixels, classifies every pixel into a barrier code and writes the grid
as C++ text or as JSON. The model proves that this text parses back to the
grid, and that the grid renders back to the very pixels that were read.

Modules:

- `Geometry` (geometry.dfy): screen size, positions, boxes, C-style
  truncation and `fmod`.
- `TankDefs` (tank_defs.dfy): colours, directions and angles, and the
  per-colour tunables.
- `Tanks` (tank.dfy): the `Tank` class and the functions that specify its
  methods.
- `Bullets` (bullet.dfy): the `Bullet` class, ricochet detection and
  reflection.
- `Sweep` (sweep.dfy): the collision sweep as a function on a value
  snapshot (`Arena`) of all tanks and bullets.
- `Stages` (stage.dfy): the `Stage` class, whose methods are proved
  against `Sweep`.
- `Input` (input.dfy): button and touch input.
- `Frames` (frame.dfy): the sprite pass and one whole frame of the main
  loop.
- `SpriteRevision`, `PlainRevision` and `BitmapRevision` (rev_sprites.dfy,
  rev_plain.dfy and rev_bitmap.dfy): the earlier revisions.
- `Converters` (converters.dfy): the three scripts.

Classes follow the source's objects. Each class exposes a ghost `State()`
or `Snapshot()`. Each method is proved to move that state exactly as a
specification function says. The lemmas then prove what the game promises
about those functions: collisions are symmetric, a sweep explodes exactly
the bullets that have a reason, input keeps every tank valid, and the body
rotation reaches its target within 36 frames.

Where the code and its description differ, the model follows the code. For
example, the game loop constructs stage 4, but `Stage::Stage` loads only
stage 1. `Stages.Stage.constructor` models both cases: a stage number
other than 1 loads nothing. There is one exception: `Tank::reset`. As
written it reads `position_history[0]` (source/Tank.cpp:616), so it does
not return the tank to its spawn. The tank game uses the corrected reset
to the spawn instead, and `Tanks.ResetAsWrittenState` models the code as
written (Findings, row 1).

Inputs the model cannot compute are parameters:

- the hardware key registers (`held` and `down` bit masks);
- the touch angle, which comes from `atan2`;
- the unit-velocity function `unit`, which comes from `cos`/`sin`;
- the turret muzzle position;
- whether an explosion animation has finished (`finished`);
- the random roll of the bitmap prototype's enemy;
- the file listing and the decoded PNG images of the converters.

## Model

| member | source | states |
|---|---|---|
| Geometry.WithinBounds | source/Tank.cpp:41-47 | for a non-empty box, true exactly when every pixel of the box lies on the 256x192 screen |
| Geometry.Overlap | source/Tank.cpp:57-60 | for non-empty boxes, true exactly when some pixel lies in both boxes |
| Geometry.TruncReal | source/Tank.cpp:375 | the `(int)` cast truncates toward zero: the result is within one of the value, on the zero side |
| Geometry.Fmod360 | source/Bullet.cpp:28 | `fmod(a, 360)` keeps the sign of `a`, stays below 360 in magnitude and differs from `a` by whole turns |
| TankDefs.ColorCode | source/Tank.h:25-39 | every tank colour has a code from 0 to 10 |
| TankDefs.DirectionOfAngle | source/Tank.h:41-50 | an angle names a direction exactly when it is a multiple of 45 in [0, 360) |
| TankDefs.AngleIsCompassTurn | source/Tank.h:41-50 | north is 0 and each clockwise compass step takes 45 degrees off the angle, modulo 360; the angle maps back to the same direction |
| TankDefs.AngleInjective | source/Tank.h:41-50 | two directions with the same angle are the same direction |
| TankDefs.ComponentsDetermineDirection | source/Tank.cpp:366-401 | each direction moves on at least one axis, and its x and y signs identify it |
| TankDefs.TunablesFor | source/Tank.cpp:112-198 | every colour gets 1 to 5 bullets and 0 to 2 ricochets; only the player's colours are controlled, get the controlled cooldown and the normal defaults |
| TankDefs.NonRicochetingColors | source/Tank.cpp:112-198 | exactly the marine and black tanks fire bullets that never ricochet |
| Tanks.NoTanksCollided | source/Tank.cpp:49-67 | true exactly when the box overlaps no other tank's box; the tank itself is skipped |
| Tanks.NoBarrierCollisions | source/Tank.cpp:69-94 | a box that passes is on screen; an on-screen box none of whose pixels is a wall or a hole passes |
| Tanks.ValidMove | source/Tank.cpp:96-99 | a valid place keeps every pixel of the box on screen and overlaps no other tank |
| Tanks.ValidMoveMeans | source/Tank.cpp:96-99 | a move is valid exactly when the tank stays on screen, overlaps no other tank, and no on-screen corner stands on a tank barrier |
| Tanks.SelfIsIgnored | source/Tank.cpp:51 | the mover's own box never decides validity: two tank lists that differ only in the mover's entry give the same answer |
| Tanks.AxisCommitIgnoresSelf | source/Tank.cpp:51 | an axis step gives the same result whatever the mover's own box in the list |
| Tanks.AddHistory | source/Tank.cpp:101-108 | only the history and its counter change; the old history stays a prefix; an entry with the current position and direction is appended exactly when the counter has reached three, and the counter then restarts at one |
| Tanks.HistoryCadence | source/Tank.cpp:101-108 | after n calls, the history has grown by one entry per third call, counting from the current counter; old entries are kept as a prefix |
| Tanks.AxisMoveFacts | source/Tank.cpp:366-393 | an axis step moves one pixel exactly when the accumulated fraction reaches one and the next pixel is a valid move; the accumulator then drops by one, otherwise it keeps the fraction below one |
| Tanks.AxisCommitFacts | source/Tank.cpp:366-393 | an axis step keeps the heading and the history counter in range, and leaves the tank in place or one valid pixel along the axis |
| Tanks.MoveTurnGate | source/Tank.cpp:352-354 | while the body angle differs from the requested direction, a move only turns the tank and moves nothing |
| Tanks.MoveSpec | source/Tank.cpp:352-428 | a move always records the requested direction; while the body still turns, the position and both accumulators stay |
| Tanks.MoveSteps | source/Tank.cpp:352-428 | a move changes each coordinate by zero or by the direction's sign, ends on a valid position or where it started, and keeps both accumulators in [0, 1) |
| Tanks.StraightMoveIsWholePixel | source/Tank.cpp:352-428 | a straight move with the body already turned advances exactly one pixel when that pixel is a valid move, stays otherwise, and leaves the accumulators alone |
| Tanks.Fmod360Int | source/Tank.cpp:348-349 | `fmod` on whole degrees keeps the sign and differs by a multiple of 360 |
| Tanks.NormalizeIsMod | source/Tank.cpp:348-349 | the double `fmod` normalisation yields the angle modulo 360 |
| Tanks.InterpolateAngle | source/Tank.cpp:321-350 | the interpolated body angle lies in [0, 360) |
| Tanks.InterpolateClosesGap | source/Tank.cpp:321-350 | each frame the body turns five degrees the short way round, and the arc left to the target shrinks by exactly five |
| Tanks.InterpolateConverges | source/Tank.cpp:321-350 | after k frames, with 5k at least the remaining arc, the body angle equals the target |
| Tanks.InterpolateWithin36 | source/Tank.cpp:321-350 | any turn between multiples of five ends within 36 frames |
| Tanks.FirstIdle | source/Tank.cpp:465-472 | finds the first bullet not in flight; all earlier ones are in flight |
| Tanks.FireLaunchesOne | source/Tank.cpp:465-472 | firing launches the first idle bullet and no other, so one more bullet is in flight; with every bullet in flight nothing changes |
| Tanks.ResetAsWrittenMissesSpawn | source/Tank.cpp:609-624 | the reset as written reads history entry 0: for a tank moved three times after construction, that entry is its current position, not its spawn |
| Tanks.ResetRestoresSpawn | source/Tank.cpp:609-624 | a reset puts the tank back at its spawn, alive and visible, facing north with zero angles, and keeps its history |
| Tanks.Accumulators.constructor | source/Tank.cpp:359-361 | both sub-pixel accumulators start at zero |
| Tanks.CreateBullets | source/Tank.cpp:457-463 | creates max-bullets distinct fresh idle bullets with the tank's speed and ricochet limit |
| Tanks.Tank.BoxesOf | source/Tank.cpp:50-55 | one box per tank, at its position and of the tank's size, marking the tank itself |
| Tanks.Tank.constructor | source/Tank.cpp:110-253 | a new tank stands at its spawn with the given colour and direction and its pool idle |
| Tanks.Tank.AddPositionHistory | source/Tank.cpp:101-108 | the tank's new state is the history step applied to the old one |
| Tanks.Tank.SetPosition | source/Tank.cpp:291-298 | the tank moves to the position and records the history step |
| Tanks.Tank.MoveAxis | source/Tank.cpp:366-393 | one axis of a move: the tank and that axis' accumulator follow the axis step; the other accumulator is unchanged |
| Tanks.Tank.Move | source/Tank.cpp:352-428 | the tank and both accumulators end as the move specification says, and validity is kept |
| Tanks.Tank.MoveAxes | source/Tank.cpp:366-422 | the y axis then the x axis, as the move specification says, keeping the body angle |
| Tanks.Tank.InterpolateBodyRotation | source/Tank.cpp:321-350 | only the body angle changes, to the interpolated angle |
| Tanks.Tank.UpdateOam | source/Tank.cpp:626-666 | a hidden body stays as it is; otherwise the body angle takes one interpolation step |
| Tanks.Tank.FaceDirection | source/Tank.cpp:448-455 | sets the direction, and turns body and turret to its angle at once |
| Tanks.Tank.RotateTurret | source/Tank.cpp:444-446 | the whole-degree overload: only the turret angle changes, to the given angle |
| Tanks.CalculateAngle | source/Tank.cpp:28-33 | an atan2 result in [-180, 180] degrees becomes an angle in [0, 360), the same direction up to one whole turn |
| Tanks.TurretAngle | source/Tank.cpp:436-437 | `fmod(270 - a, 360)` with a turn added when negative lies in [0, 360) and differs from 270 − a by whole turns |
| Tanks.TurretAngleOnCircle | source/Tank.cpp:436-437 | for an aim in [0, 360), the turret angle is 270 − aim up to 270 degrees, and 630 − aim past it |
| Tanks.TouchTurretAngle | source/Tank.cpp:430-438 | the turret angle a touch produces lies in [0, 360), and equals 270 − c (or 630 − c past 270) for the calculated angle c of any atan2 result in [-180, 180] |
| Tanks.Tank.RotateTurretToward | source/Tank.cpp:430-438 | only the turret angle changes, to the touch turret angle, which lies in [0, 360) |
| Tanks.Tank.Fire | source/Tank.cpp:465-472 | the pool's states change exactly as the firing specification says, launching from the muzzle spawn |
| Tanks.Tank.Explode | source/Tank.cpp:598-607 | the tank's state becomes the exploded state |
| Tanks.Tank.Reset | source/Tank.cpp:609-624 | the corrected reset of Findings row 1: the tank's state becomes the reset state at its spawn, not at `position_history[0]` as line 616 reads (the as-written reset is `Tanks.ResetAsWrittenState`) |
| Tanks.Tank.OffsetPosition | source/Tank.cpp:316-319 | the sprite position is the tank position moved back by the tile offset |
| Bullets.ReflectionMirrors | source/Bullet.cpp:24-52 | a side wall mirrors the heading to its negation and a south wall to 180 minus it; a north wall does the same only for headings in [0, 90) or above 270, and otherwise sets exactly 180; a corner reverses the heading |
| Bullets.ReflectionExamples | source/Bullet.cpp:24-52 | the reflection is not normalised: 45 off a north wall gives 495, and 495 off a west wall gives -135 |
| Bullets.ReflectionDirection | source/Bullet.cpp:24-52 | for a heading in [0, 360) the new heading lies strictly between -180 and 540: it is not normalised, but stays within a turn and a half |
| Bullets.ScanRowsFindsWalls | source/Bullet.cpp:65-68 | from column i on, the top-and-bottom scan then the side scan report no ricochet exactly when every scanned pixel is on screen and not a bullet wall; a north report means the top row is off screen or closed; never a corner |
| Bullets.ScanSidesFindsWalls | source/Bullet.cpp:70-73 | from row i on, the side scan reports no ricochet exactly when every scanned side pixel is on screen and not a bullet wall; it reports only east or west, and west means the left column is off screen or closed |
| Bullets.CheckForRicochet | source/Bullet.cpp:54-90 | never reports a corner, since the corner flags are never set; reports no ricochet exactly when the bullet's box is clear; a north report means the top row is off screen or closed |
| Bullets.RicochetSeesOnlyWalls | source/Bullet.cpp:54-90 | two grids with the same bullet walls give the same ricochet answer |
| Bullets.Bounce | source/Bullet.cpp:207-218 | under the ricochet limit, the bullet turns to the reflected heading, counts one more ricochet and restarts its sub-pixel; at the limit it explodes without turning |
| Bullets.AxisScan | source/Bullet.cpp:202-223 | stepping along one axis keeps the other coordinate and stays inside; without a hit less than one pixel is left over; a hit names a wall |
| Bullets.ScanRestsOnClear | source/Bullet.cpp:202-223 | the scan ends where it started or on a clear position |
| Bullets.ScanStopsBeforeWall | source/Bullet.cpp:202-223 | when the j-th pixel along the way is blocked, the scan hits and stops less than j pixels away |
| Bullets.ScanTravels | source/Bullet.cpp:202-223 | without a hit the scan takes every whole pixel the amount allows, in its direction, and keeps only the unconsumed remainder |
| Bullets.StepAxis | source/Bullet.cpp:202-223 | one axis of the update: without a hit the ricochet count and explosion state stay and the fraction is below one; with a hit exactly one ricochet or the explosion happens |
| Bullets.Advance | source/Bullet.cpp:193-250 | the move keeps the bullet inside, keeps its speed and limit, and causes at most one ricochet or explosion |
| Bullets.UnobstructedLeavesFraction | source/Bullet.cpp:193-250 | a move without a ricochet leaves both sub-pixel fractions strictly between -1 and 1 |
| Bullets.AdvanceRestsOnClear | source/Bullet.cpp:193-250 | the move ends where it started or on a clear position |
| Bullets.UnobstructedTravels | source/Bullet.cpp:193-250 | a frame that meets no wall moves the bullet by every whole pixel of its accumulated x movement, then every whole pixel of its y movement, and keeps both remainders |
| Bullets.StopsBeforeFirstWall | source/Bullet.cpp:202-223 | a bullet whose x path is blocked at step j stops short of it on the x axis and ricochets or explodes |
| Bullets.UpdateKeepsValid | source/Bullet.cpp:177-254 | a frame's update keeps the bullet valid, its speed and limit, adds at most one ricochet, and an exploded bullet stays in flight only while its effect plays |
| Bullets.UpdateSpec | source/Bullet.cpp:177-254 | a frame keeps the bullet's speed and ricochet limit, and an idle bullet is left exactly as it was |
| Bullets.ScanAxis | source/Bullet.cpp:202-223 | the loop's final position, remainder, hit flag and wall are those of the scan specification |
| Bullets.Bullet.constructor | source/Bullet.cpp:124-154 | a new bullet is idle and hidden at the origin with the given speed and ricochet limit |
| Bullets.Bullet.UpdateDirection | source/Bullet.cpp:92-103 | sets the heading and the matching velocity |
| Bullets.Bullet.Reset | source/Bullet.cpp:105-116 | the state becomes the reset state |
| Bullets.Bullet.Fire | source/Bullet.cpp:156-175 | the state becomes the fired state at the spawn with the heading, and validity is kept |
| Bullets.Bullet.Explode | source/Bullet.cpp:256-261 | the state becomes the exploded state |
| Bullets.Bullet.Ricochet | source/Bullet.cpp:207-218 | the state becomes the bounce off the given wall |
| Bullets.Bullet.StepLoop | source/Bullet.cpp:202-223 | the state, the reached position and the hit flag are those of the axis step |
| Bullets.Bullet.Move | source/Bullet.cpp:193-253 | the state becomes the advanced state |
| Bullets.Bullet.UpdatePosition | source/Bullet.cpp:177-254 | the state becomes the frame update, and validity is kept |
| Sweep.BoxHit | source/Stage.cpp:67-71 | the bounding-box test is the box overlap |
| Sweep.BulletsCollideSymmetric | source/Stage.cpp:67-71 | bullet A hits bullet B exactly when B hits A |
| Sweep.PairStep | source/Stage.cpp:61-76 | checking a bullet pair keeps the arena's shape |
| Sweep.TankStep | source/Stage.cpp:82-96 | checking a bullet against a tank keeps the arena's shape |
| Sweep.SweepAll | source/Stage.cpp:52-100 | the whole sweep keeps the arena's shape |
| Sweep.SweepOnlyExplodes | source/Stage.cpp:52-100 | the sweep changes a bullet only by exploding one that was in flight, and a tank only by exploding one that was alive |
| Sweep.SweepKills | source/Stage.cpp:52-100 | a tank survives the sweep exactly when it was alive and no bullet is eligible to hit it |
| Sweep.TurnExplodesPair | source/Stage.cpp:59-78 | when a bullet's turn comes and it collides with a partner, both explode |
| Sweep.SweepExplodesPartners | source/Stage.cpp:52-100 | two colliding bullets in flight are both exploded by the sweep |
| Sweep.TurnHits | source/Stage.cpp:81-97 | a bullet eligible to hit a live tank explodes on its turn |
| Sweep.SweepExplodesFirstHit | source/Stage.cpp:52-100 | the first bullet in sweep order eligible to hit a live tank explodes |
| Sweep.SweepExplodesOnlyWithReason | source/Stage.cpp:52-100 | a bullet the sweep changes is exploded, and it had a colliding partner or a tank to hit |
| Sweep.SweepKeepsValid | source/Stage.cpp:52-100 | the sweep keeps every tank and bullet valid |
| Stages.Stage1Roster | source/stages/stage-1.cpp:22-34 | stage 1 has two tanks on the same row, mirrored about the screen: the blue player first and one enemy |
| Stages.BuildTank | source/stages/stage-1.cpp:26-31 | a fresh tank at the roster's spawn with its colour and an idle pool |
| Stages.CreateStage1Tanks | source/stages/stage-1.cpp:22-34 | one distinct fresh tank per roster entry, each with its own idle pool |
| Stages.ArenaBoxes | source/Tank.cpp:50-55 | one box per tank of the snapshot, marking the mover |
| Stages.Stage.constructor | source/Stage.cpp:28-36 | stage 1 loads its roster and barriers with every bullet idle; any other number loads nothing |
| Stages.Stage.ExplodeShotAt | source/Stage.cpp:74-75 | the snapshot changes by exploding that one bullet |
| Stages.Stage.KillTankAt | source/Stage.cpp:94-95 | the snapshot changes by exploding that one tank |
| Stages.Stage.CheckPair | source/Stage.cpp:61-76 | the snapshot changes as the pair check says |
| Stages.Stage.CheckTank | source/Stage.cpp:82-96 | the snapshot changes as the tank check says |
| Stages.Stage.CheckBullet | source/Stage.cpp:55-97 | the snapshot changes as the bullet's turn says |
| Stages.Stage.CheckAgainstBullets | source/Stage.cpp:59-78 | the loop over all pools does what the pair sweep from the first pool does |
| Stages.Stage.CheckAgainstPool | source/Stage.cpp:60-77 | the loop over one pool advances the pair sweep by that pool |
| Stages.Stage.CheckAgainstTanks | source/Stage.cpp:81-97 | the loop over all tanks does what the tank sweep does |
| Stages.Stage.CheckForBulletCollision | source/Stage.cpp:52-100 | the snapshot becomes the whole sweep of the old one, and validity is kept |
| Stages.Stage.CheckPool | source/Stage.cpp:54-98 | the loop over one tank's pool advances the sweep by that pool |
| Stages.Stage.ResetTankAt | source/input.cpp:31 | only that tank changes, to its reset state at its spawn |
| Stages.Stage.MoveTankAt | source/input.cpp:75 | only that tank and the accumulators change, as the move specification says |
| Stages.Stage.FireTankAt | source/input.cpp:84 | only that tank's pool changes, by the launch |
| Stages.Stage.TurnTurretAt | source/input.cpp:107 | only that tank's turret angle changes, to the touch turret angle of `rotateTurret(touch)` |
| Stages.Stage.UpdateOamAt | source/main.cpp:84 | only that tank changes, by its sprite update |
| Stages.Stage.UpdateBulletAt | source/main.cpp:88 | only that bullet changes, by its frame update |
| Input.ResolveDirection | source/input.cpp:48-70 | with an arrow held, left beats right and up beats down; with none held, the current direction stays |
| Input.DirectionIgnoresCurrent | source/input.cpp:48-70 | with an arrow held, the result does not depend on the current direction |
| Input.DebugKeysEffect | source/input.cpp:28-37 | START resets every tank to its spawn; otherwise SELECT explodes every tank in place; otherwise nothing changes; bullets are untouched |
| Input.DebugKeysKeepValid | source/input.cpp:28-37 | the debug keys keep every tank and bullet valid |
| Input.DeadPlayerIgnored | source/input.cpp:40-42 | when the player is dead after the debug keys, the handler does nothing more |
| Input.OnlyPlayerActs | source/input.cpp:39-85 | after the debug keys, only the player's tank and pool can change |
| Input.NoArrowNoMove | source/input.cpp:72-76 | with no arrow held, no tank moves and the accumulators stay |
| Input.FiresOnlyOnL | source/input.cpp:82-85 | a newly pressed L fires exactly one more bullet when the player is alive and has one idle; otherwise the pool is unchanged |
| Input.MoveKeepsTankValid | source/Tank.cpp:352-428 | a move keeps the history counter in range and the body angle |
| Input.ButtonKeepsValid | source/input.cpp:22-89 | button handling keeps every tank and bullet valid and the accumulators in [0, 1) |
| Input.LaunchKeepsValid | source/Tank.cpp:465-472 | a launch keeps the arena valid and the pool's size |
| Input.TouchOnlyTurnsTurret | source/input.cpp:91-111 | touch changes only the player's turret angle, only while the player is alive and the screen is touched, and then to the touch turret angle |
| Input.ResetAll | source/input.cpp:29-32 | the loop resets every tank, as the reset-all function says |
| Input.ExplodeAll | source/input.cpp:33-36 | the loop explodes every tank, as the explode-all function says |
| Input.HandleButtonInput | source/input.cpp:22-89 | the stage and accumulators change as the button specification says, and validity is kept |
| Input.ButtonSpec | source/input.cpp:22-89 | the handler keeps the number of tanks; with no debug key pressed and the player dead it changes nothing |
| Input.DebugKeysStep | source/input.cpp:28-37 | the stage changes as the debug-key specification says |
| Input.PlayerStep | source/input.cpp:39-85 | the player's move and shot change the stage as the player-turn specification says |
| Input.MoveKeepsArenaValid | source/input.cpp:72-76 | moving the player keeps the arena valid |
| Input.HandleTouchInput | source/input.cpp:91-111 | the stage changes as the touch specification says, and validity is kept |
| Input.TouchSpec | source/input.cpp:91-111 | touch leaves the bullets and every other tank alone; of the player's tank at most the turret angle changes, and a changed angle lies in [0, 360) |
| Frames.AdvancePool | source/main.cpp:87-90 | updating the first n bullets of a pool keeps its size |
| Frames.SpritesUpTo | source/main.cpp:83-91 | the sprite pass over the first n tanks keeps the arena's shape |
| Frames.SpritesStep | source/main.cpp:83-91 | the pass over n+1 tanks is the pass over n, plus tank n's sprite update and its pool's update |
| Frames.SpritesKeepValid | source/main.cpp:83-91 | the sprite pass keeps the arena valid |
| Frames.AngleIsWholeStep | source/Tank.h:41-50 | every direction's angle is a multiple of five in [0, 360) |
| Frames.OamNInterpolates | source/Tank.cpp:626-666 | n sprite updates of a visible tank turn its body exactly as n interpolation steps do |
| Frames.TurnGateOpensWithin36 | source/Tank.cpp:321-354 | after 36 frames of sprite updates the body faces the direction, so the move gate opens |
| Frames.ExplodedBodyStill | source/Tank.cpp:626-633 | an exploded tank is dead and its sprite update changes nothing |
| Frames.InputKeepsValid | source/main.cpp:144-145 | button then touch input keeps the arena valid and the accumulators in [0, 1) |
| Frames.FrameKeepsValid | source/main.cpp:142-157 | a whole frame keeps the arena valid, its tanks and the accumulators in [0, 1) |
| Frames.UpdateTankSprites | source/main.cpp:84-90 | one tank's sprite update and its pool's update, nothing else |
| Frames.UpdatePoolSprites | source/main.cpp:87-90 | the pool loop updates that pool as the pool function says |
| Frames.UpdateAllSprites | source/main.cpp:83-91 | the loop over all tanks does the whole sprite pass |
| Frames.UpdateSprites | source/main.cpp:76-95 | the sprite pass then the collision sweep, keeping validity |
| Frames.FrameSteps | source/main.cpp:143-147 | input, sprites and sweep in the loop's order, as the frame specification says |
| Frames.FrameSpec | source/main.cpp:142-157 | a frame keeps the number of tanks |
| Frames.Game.constructor | source/main.cpp:136-140 | the game starts on the loaded stage with its two tanks and a zero frame counter |
| Frames.Game.RunFrame | source/main.cpp:142-157 | one frame changes the stage as the frame specification says, counts one frame and keeps validity |
| SpriteRevision.NewSpriteTank | v2_sprites_and_backgrounds/source/main.cpp:412-420 | a new tank at the position with the colour, full tank size, facing up, first animation frame |
| SpriteRevision.Boxes | v2_sprites_and_backgrounds/source/main.cpp:136-163 | one box per tank at its position and size, marking the mover |
| SpriteRevision.NoWallCollisionsMeans | v2_sprites_and_backgrounds/source/main.cpp:165-184 | no wall collision exactly when the box is on screen and no on-screen corner is on a white barrier |
| SpriteRevision.NoWallCollisions | v2_sprites_and_backgrounds/source/main.cpp:165-184 | a box that passes is on screen; an on-screen box with no white pixel passes |
| SpriteRevision.ValidateInput | v2_sprites_and_backgrounds/source/main.cpp:197-200 | a valid place keeps every pixel on screen and overlaps no tank other than the mover |
| SpriteRevision.ProductionAddsHoles | source/Tank.cpp:69-94 | the shipped check is the earlier check plus one extra rule: no corner on a blue, tank-only barrier |
| SpriteRevision.MoverNeverBlocksItself | v2_sprites_and_backgrounds/source/main.cpp:136-163 | skipping the mover's own slot (the address test there matches exactly that slot, because the mover is passed by reference from the global array at main.cpp:529): the check does not depend on the mover's own entry |
| SpriteRevision.ByValueBlocksOwnNeighbourhood | v3_projectiles/source/input.cpp:25-43 | skipping by the address of a copied list never skips: every position closer than a tank's width to the mover is refused |
| SpriteRevision.ValidateInputByValue | v3_projectiles/source/input.cpp:66-69 | a place it accepts overlaps no tank of the copied list at all, the mover's own copy included |
| SpriteRevision.CompassDirection | v2_sprites_and_backgrounds/source/main.cpp:455-486 | each code 0 to 7 names the compass direction with that index |
| SpriteRevision.DirectionAngle | v2_sprites_and_backgrounds/source/main.cpp:455-486 | each code gets a multiple of 45 in [0, 360); an unknown code gets 0 |
| SpriteRevision.DirectionAngleMatchesEnum | v2_sprites_and_backgrounds/source/main.cpp:455-486 | the earlier angle table agrees with the shipped direction angles |
| SpriteRevision.DirectionCode | v2_sprites_and_backgrounds/source/main.cpp:208-250 | with an arrow held, right beats left, and vertically up beats down with a horizontal arrow but down wins alone; with none held, the code stays |
| SpriteRevision.DirectionCodeMatchesProduction | v2_sprites_and_backgrounds/source/main.cpp:208-250 | unless opposite arrows are held together, the earlier code picks the same direction as the shipped handler |
| SpriteRevision.OppositeArrowsDisagree | v2_sprites_and_backgrounds/source/main.cpp:208-250 | with up and down held the earlier code faces south and the shipped one north; with left and right, east against west |
| SpriteRevision.CRem | v2_sprites_and_backgrounds/source/main.cpp:257 | C's `%` keeps the sign of the dividend and stays below the divisor in magnitude |
| SpriteRevision.AnimStep | v2_sprites_and_backgrounds/source/main.cpp:257 | the animation frame steps back by one modulo three |
| SpriteRevision.DirectionKeepsPlacement | v2_sprites_and_backgrounds/source/main.cpp:208-250 | from a valid placement the tank ends on a valid placement at most one pixel per axis away, and an axis with neither or both arrows held does not move |
| SpriteRevision.IdleFrameChangesNothing | v2_sprites_and_backgrounds/source/main.cpp:208-262 | only the mover can change, and with no arrow held nothing changes |
| SpriteRevision.AnimationFollowsArrows | v2_sprites_and_backgrounds/source/main.cpp:252-262 | with an arrow held and the counter due, the counter restarts and the frame steps; otherwise both stay |
| SpriteRevision.SpriteGame.constructor | v2_sprites_and_backgrounds/source/main.cpp:522-524 | the two tanks at their start positions and a zero frame counter |
| SpriteRevision.SpriteGame.HandleDirectionInput | v2_sprites_and_backgrounds/source/main.cpp:208-262 | the state changes as the direction specification says |
| SpriteRevision.SpriteGame.RunFrame | v2_sprites_and_backgrounds/source/main.cpp:529-535 | the player's input, then the frame counter grows by one |
| PlainRevision.Boxes | v2_sprites/source/main.cpp:91-105 | one box per tank at its position and size, marking the mover |
| PlainRevision.ValidateInputMeans | v2_sprites/source/main.cpp:118-120 | a placement is valid exactly when it is on screen and overlaps no other tank |
| PlainRevision.ValidateInput | v2_sprites/source/main.cpp:118-120 | a valid place overlaps no tank other than the mover |
| PlainRevision.WallsAreTheOnlyAddition | v2_sprites_and_backgrounds/source/main.cpp:197-200 | on a grid without walls the later check agrees with the earlier one |
| PlainRevision.MoveKeepsPlacement | v2_sprites/source/main.cpp:128-141 | from a valid placement the tank ends on a valid placement at most one pixel per axis away; no arrow, no move |
| PlainRevision.SameMoveOnOpenGround | v2_sprites_and_backgrounds/source/main.cpp:208-250 | on a grid without walls the later revision moves a tank exactly as this one does |
| PlainRevision.PlainGame.Main | v2_sprites/source/main.cpp:250-253 | the two tanks at their start positions |
| PlainRevision.PlainGame.Template | v2_sprites/source/template.cpp:205-209 | the template's two tanks at their start positions, mirrored on one row |
| PlainRevision.PlainGame.HandleInput | v2_sprites/source/main.cpp:128-141 | only the mover's position changes, to the move's target |
| PlainRevision.PaletteWord | v2_sprites/source/template.cpp:150 | both bytes of the word hold the palette index |
| PlainRevision.FillSpriteGfx | v2_sprites/source/template.cpp:144-154 | every word of the sprite's graphics holds the palette word, and the rest of the buffer is unchanged |
| BitmapRevision.CheckCollisionMatchesDrawing | v1_bitmap/source/main.cpp:209-233 | a cell collides exactly when one of its pixels is off screen or on a drawn barrier |
| BitmapRevision.CheckCollision | v1_bitmap/source/main.cpp:209-233 | a free cell lies on screen, below the top wall row and above the bottom one |
| BitmapRevision.EnemyCodesAreTheNineMoves | v1_bitmap/source/main.cpp:111-126 | the nine enemy codes are the nine unit moves, code 0 alone standing still |
| BitmapRevision.SeparateAxesEntersBarrier | v1_bitmap/source/main.cpp:90-126 | from (48, 32) right and down, each axis alone is clear but the diagonal lands inside a barrier |
| BitmapRevision.ChainedAxesStaysClear | v1_bitmap/source/main.cpp:90-126 | checking y from the already moved x keeps a clear cell clear |
| BitmapRevision.HitResetsBoth | v1_bitmap/source/main.cpp:147-166 | a touch on the enemy puts both cells back at their clear start positions and restarts the frame count; otherwise the count and headings stay |
| BitmapRevision.BitmapGame.constructor | v1_bitmap/source/main.cpp:55-61 | the user and enemy at their start positions, frame zero |
| BitmapRevision.BitmapGame.DrawFrame | v1_bitmap/source/main.cpp:87-179 | the state changes as the frame-drawing specification says |
| BitmapRevision.BitmapGame.MoveUser | v1_bitmap/source/main.cpp:89-109 | only the user moves, by the keys' axis checks |
| BitmapRevision.BitmapGame.MoveEnemy | v1_bitmap/source/main.cpp:111-126 | only the enemy moves, by its code's axis checks |
| BitmapRevision.BitmapGame.Tick | v1_bitmap/source/main.cpp:63-75 | the frame counter grows; past 60 frames, every 30th takes a new enemy code; then the frame is drawn |
| Converters.RowStartIsProduct | utils/convert.js:29 | the running row offset equals four bytes per pixel times width times row |
| Converters.PixelInside | utils/convert.js:26-33 | every pixel's four bytes lie inside the image data |
| Converters.Classify | utils/convert.js:35-50 | a pixel gets code c exactly when it is exactly that code's colour; any other pixel is rejected |
| Converters.BlackWhiteIsTheFirstTwoCodes | map_to_barrier/convert.js:28-35 | the two-colour converter accepts exactly black and white, coded as the stage converter codes them |
| Converters.Decode | utils/convert.js:26-53 | succeeds exactly when every pixel is classified, giving a height-by-width grid of palette codes |
| Converters.ReadGrid | utils/convert.js:24-53 | the nested loop returns the decoding of the image |
| Converters.DecodeIsRenderInverse | utils/convert.js:26-53 | an image decodes to a grid exactly when its pixel data is that grid's rendering |
| Converters.RenderDecodes | utils/convert.js:26-53 | the rendering of a grid decodes back to it |
| Converters.DecodeRenders | utils/convert.js:26-53 | a decoded grid renders back to the image's pixels |
| Converters.Render | utils/convert.js:26-33 | a rendering is four bytes per pixel, and is empty exactly when every row is |
| Converters.ParseListJoin | utils/convert.js:71 | a row joined with the separator parses back to the row |
| Converters.ParseRowText | utils/convert.js:70-72 | a row's text, followed by anything, parses back to the row and leaves the rest |
| Converters.RowEnd | utils/convert.js:71 | the first closing character of a row's text ends that row |
| Converters.ParseRowsText | utils/convert.js:70-72 | the rows joined as written parse back to the grid |
| Converters.HeaderRoundTrip | utils/convert.js:56-73 | the generated header starts with the prefix and its table parses back to the grid |
| Converters.JsonRoundTrip | utils/convertToJSON.js:40 | the JSON text of a grid parses back to the grid |
| Converters.StageImageMeans | utils/convert.js:14 | a name matches exactly when it is `stage-`, a stem without line breaks, and `_barriers.png` |
| Converters.StageImages | utils/convert.js:14 | the filter keeps exactly the matching names, in order |
| Converters.IndexOf | utils/convert.js:16 | finds the first occurrence of the pattern, if any |
| Converters.OnlyTheFirstSuffixIsReplaced | utils/convert.js:16 | replacing with a string pattern replaces only its first occurrence |
| Converters.Identifier | utils/convert.js:55 | the identifier holds no hyphen and no lower-case letter |
| Converters.IdentifierOfHeader | utils/convert.js:55 | a stage header's identifier is `STAGE_` followed by the upper-cased stem with hyphens turned into underscores |
| Converters.StageNames | utils/convert.js:16-55 | a stage image's output file is the stem with `.h`, and its identifier is as above |
| Converters.Arguments | map_to_barrier/convert.js:4-10 | fewer than four arguments fail; otherwise input and output are the third and fourth |
| Converters.MapToBarrier | map_to_barrier/convert.js:4-60 | the script's outcome is the barrier-script specification's |
| Converters.BarrierScriptHoldsImage | map_to_barrier/convert.js:4-60 | the usage error exactly for too few arguments; the pixel error exactly for a non-black-white image; otherwise the output path is the fourth argument and the header parses to a grid that renders to the image |
| Converters.BarrierScript | map_to_barrier/convert.js:4-60 | fails exactly on too few arguments (the usage message) or a pixel that is not pure black or white (the pixel message); otherwise writes to the fourth argument |
| Converters.ConvertToJson | utils/convertToJSON.js:4-41 | the script's outcome is the JSON-script specification's |
| Converters.JsonScriptHoldsImage | utils/convertToJSON.js:4-41 | the same errors as above; otherwise the written JSON parses to a grid that renders to the image |
| Converters.JsonScript | utils/convertToJSON.js:4-41 | fails exactly on too few arguments (the usage message) or a pixel that is not pure black or white (the pixel message); otherwise writes to the fourth argument |
| Converters.ConvertStage | utils/convert.js:15-77 | one file's outcome is the stage-script specification's |
| Converters.StageScriptHoldsImage | utils/convert.js:15-77 | a pixel outside the four colours fails; otherwise the header goes to the derived file name, and its table parses to a grid that renders to the image |
| Converters.StageScript | utils/convert.js:15-77 | a failure is always the pixel message, and a written file always goes to the stage image's derived `.h` name |
| Converters.ConvertStages | utils/convert.js:8-78 | a listing failure gives the directory error; otherwise one outcome per matching file, in order |
| Converters.ConvertEach | utils/convert.js:14-78 | one outcome per file, each the stage-script specification's |

## Left out

- Trigonometry: `cos`, `sin` and `atan2` are not computed. The unit-velocity function, the atan2 result of the touch offset (in degrees) and the turret muzzle are parameters.
- Rendering is not modelled: OAM and sprite attributes, the GL drawing, `drawStage`, `Cursor`, tread marks, palettes and DMA copies. The model keeps only the state that rendering reads, such as hidden flags and angles.
- Floating point is modelled as exact reals. Rounding of `float` and `double` is not captured, and the diagonal factor 0.707 is exact.
- The hardware key constants header is not part of this model. Keys are bits of a `bv32` mask with distinct constants.
- Frames.Game.constructor: constructs stage 1 rather than the loop's `Stage(4)`. `Stage::Stage` loads nothing for 4, and the loop would then read uninitialised tanks; `Stages.Stage.constructor` models the empty case.
- The end of an explosion animation is the parameter `finished`, because the sprite library's animation state is not modelled.
- The bitmap prototype's `rand()` is the parameter `roll` of `BitmapRevision.BitmapGame.Tick`.
- Node I/O is not modelled: directory listing, PNG decoding, file writing, console messages and the asynchronous order of conversions. The listing and the decoded images are inputs; a written file is the outcome `Written(path, text)`.
- `process.exit` on a bad pixel ends the whole Node process, and with it the other conversions in flight. The model gives each file its own outcome.
- `path.join` and `path.basename` directory handling is not modelled. Output names are the file names alone.
- Converters.Identifier: `toUpperCase` is modelled for ASCII letters only.
- Converters.HeaderRoundTrip: the parser reads back only the text the converters write, not arbitrary C++ or JSON.
- SpriteRevision.DirectionCode: the earlier revision's key-by-key code updates are folded into one function of the held keys.
- SpriteRevision.CRem: only its sign and range are stated, which is what the animation step needs.
- PlainRevision.PlainTank leaves out the `state` and `anim_frame` fields of `v2_sprites`. `createTank` zero-initialises them, nothing writes them afterwards, and only rendering reads them.
- The sprite colour written to `SPRITE_PALETTE` is not modelled; PlainRevision.FillSpriteGfx models only the graphics words.
- map_to_barrier/convert.js writes fixed declarations (stage 1's name, the tank count line) before the table. The model keeps its prefix text, and states only that the table parses back.
- The tank constructor's sprite-ID and graphics bookkeeping and the tank and bullet destructors are not modelled.
- `getPosition(char)` returning -1 for an unknown axis is not modelled, since the model's axis type has two values.
- Tanks.InterpolateAngle: its own contract states only the range. The turn step and convergence are stated by Tanks.InterpolateClosesGap and Tanks.InterpolateConverges.
- Tanks.Tank.Fire, Bullets.Bullet.Fire, Stages.Stage.FireTankAt, Input.HandleButtonInput, Frames.FrameSteps and Frames.Game.RunFrame: firing, and a frame that fires, is modelled only when the new bullet's scan box and its one-pixel neighbours lie on the barrier grid (`Interior` of the spawn, through `Stages.CanLaunch` and `Input.LaunchInside`). The game fires from anywhere, but the first scan of a bullet further out reads `barriers[adjPosY][adjPosX + i]` outside the array (source/Bullet.cpp:65-72), which the model cannot give a value.
- Sweep.PairStep, Sweep.TankStep and Sweep.SweepAll: their own contracts state only that the shape is kept. What they explode is stated by the Sweep lemmas.

## Findings

| source | as written | input that shows it | evidently intended | confidence | as-written member | corrected member |
|---|---|---|---|---|---|---|
| source/Tank.cpp:616 | reset moves the tank to `position_history[0]`; a new tank's history is empty, and entry 0 is wherever the tank stood at its third position change after construction (each axis commit calls `setPosition`, so a diagonal move counts twice) | a tank built at (32, 32) that moves to (32, 31), (32, 30), (32, 29): entry 0 is (32, 29), so reset leaves it there | reset returns the tank to its spawn | not executed | Tanks.ResetAsWrittenMissesSpawn | Tanks.ResetRestoresSpawn |
| v3_projectiles/source/input.cpp:25-27 | `noTanksCollided` takes the tank list by value and skips by address, so the mover's copy is never skipped; nothing calls this version, since v3_projectiles/source/main.cpp defines and calls its own two-argument `validateInput` (main.cpp:182, 213, 240) and does not include `input.h`, so the defect is in code the game never runs | any step smaller than a tank's width from the mover's own position | the mover is skipped, as in v2_sprites_and_backgrounds/source/main.cpp:138, where the address test against the global array matches the mover because it is passed by reference (main.cpp:529) | not executed | SpriteRevision.ByValueBlocksOwnNeighbourhood | SpriteRevision.MoverNeverBlocksItself |
| v1_bitmap/source/main.cpp:90-126 | x and y are checked separately from the old position, then both are applied | a cell at (48, 32) moving right and down lands at (49, 33), inside a barrier | the diagonal is checked from the moved position | not executed | BitmapRevision.SeparateAxesEntersBarrier | BitmapRevision.ChainedAxesStaysClear |

The tank game uses the corrected reset throughout. The earlier revisions
are models of those revisions' own code, which is well defined as written:
`BitmapRevision.BitmapGame` keeps the separate axis checks, and the corrected
step `ChainedAxes` is proved beside it.
