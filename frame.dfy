/**
 * One frame of the main loop: the button handler, the touch handler, the
 * sprite update (each tank's body rotation, then each of its bullets'
 * frame, for every tank in roster order, dead ones included) and the
 * collision sweep, then the frame counter advances. Drawing, the cursor
 * and waiting for the vertical blank do not change the arena and are left
 * out.
 */
module Frames {
  import opened Geometry
  import opened Bullets
  import opened TankDefs
  import opened Tanks
  import opened Sweep
  import opened Stages
  import opened Input

  /*-------------------------------------------------------------------------
   * The sprite update on values
   *-------------------------------------------------------------------------*/

  /** Every bullet of a pool is valid. */
  predicate PoolStatesValid(pool: seq<BulletState>)
  {
    forall l :: 0 <= l < |pool| ==> ValidState(pool[l])
  }

  lemma ArenaPoolsValid(a: Arena)
    requires ArenaValid(a)
    ensures forall k :: 0 <= k < |a.shots| ==> PoolStatesValid(a.shots[k])
  {
    forall k, l | 0 <= k < |a.shots| && 0 <= l < |a.shots[k]|
      ensures ValidState(a.shots[k][l])
    {
      assert IsShot(a, k, l);
    }
  }

  /**
   * Pool k after its first n bullets ran their frame; `finished(k, l)` says
   * whether the effect animation of slot l ends this frame.
   */
  function AdvancePool(pool: seq<BulletState>, grid: Grid, unit: real -> Velocity,
                       finished: (int, int) -> bool, k: int, n: int): (r: seq<BulletState>)
    requires WellFormed(grid) && 0 <= n <= |pool| && PoolStatesValid(pool)
    ensures |r| == |pool|
  {
    seq(|pool|, l requires 0 <= l < |pool| =>
      if l < n then UpdateSpec(pool[l], grid, unit, finished(k, l)) else pool[l])
  }

  /** The arena once the first n tanks and their pools had their sprite update. */
  function SpritesUpTo(a: Arena, grid: Grid, unit: real -> Velocity, finished: (int, int) -> bool,
                       n: int): (r: Arena)
    requires Shaped(a) && WellFormed(grid) && 0 <= n <= |a.tanks|
    requires forall k :: 0 <= k < |a.shots| ==> PoolStatesValid(a.shots[k])
    ensures SameShape(a, r)
  {
    Arena(seq(|a.tanks|, k requires 0 <= k < |a.tanks| =>
                if k < n then OamState(a.tanks[k]) else a.tanks[k]),
          seq(|a.shots|, k requires 0 <= k < |a.shots| =>
                if k < n then AdvancePool(a.shots[k], grid, unit, finished, k, |a.shots[k]|)
                else a.shots[k]))
  }

  /** One more tank's sprite update: its state and its whole pool, nothing else. */
  lemma SpritesStep(a: Arena, grid: Grid, unit: real -> Velocity, finished: (int, int) -> bool, n: int)
    requires Shaped(a) && WellFormed(grid) && 0 <= n < |a.tanks|
    requires forall k :: 0 <= k < |a.shots| ==> PoolStatesValid(a.shots[k])
    ensures var s := SpritesUpTo(a, grid, unit, finished, n);
      SpritesUpTo(a, grid, unit, finished, n + 1) ==
        Arena(s.tanks[n := OamState(a.tanks[n])],
              s.shots[n := AdvancePool(a.shots[n], grid, unit, finished, n, |a.shots[n]|)])
  {
  }

  /** The sprite update keeps every tank and bullet valid. */
  lemma SpritesKeepValid(a: Arena, grid: Grid, unit: real -> Velocity, finished: (int, int) -> bool, n: int)
    requires Shaped(a) && WellFormed(grid) && 0 <= n <= |a.tanks| && ArenaValid(a)
    requires forall k :: 0 <= k < |a.shots| ==> PoolStatesValid(a.shots[k])
    ensures ArenaValid(SpritesUpTo(a, grid, unit, finished, n))
  {
    var r := SpritesUpTo(a, grid, unit, finished, n);
    forall i, j | IsShot(r, i, j)
      ensures ValidState(r.shots[i][j])
    {
      assert IsShot(a, i, j);
      UpdateKeepsValid(a.shots[i][j], grid, unit, finished(i, j));
    }
    forall k | 0 <= k < |a.tanks|
      ensures WholeStepAngle(r.tanks[k].bodyAngle)
    {
      AngleIsWholeStep(a.tanks[k].direction);
      InterpolateClosesGap(a.tanks[k].bodyAngle, Angle(a.tanks[k].direction));
    }
  }

  lemma AngleIsWholeStep(d: Direction)
    ensures WholeStepAngle(Angle(d))
  {
  }

  /** n sprite updates of one tank in a row. */
  function OamN(t: TankState, n: nat): TankState
    decreases n
  {
    if n == 0 then t else OamN(OamState(t), n - 1)
  }

  lemma {:induction false} OamNInterpolates(t: TankState, n: nat)
    requires !t.bodyHidden
    decreases n
    ensures OamN(t, n) == t.(bodyAngle := InterpolateN(t.bodyAngle, Angle(t.direction), n))
  {
    if n > 0 {
      OamNInterpolates(OamState(t), n - 1);
    }
  }

  /**
   * The turn gate opens within 36 frames: a shown body facing any whole
   * multiple of 5 degrees points in its direction after 36 sprite updates,
   * so a held arrow key moves the tank at the latest on the 37th frame.
   */
  lemma TurnGateOpensWithin36(t: TankState)
    requires !t.bodyHidden && WholeStepAngle(t.bodyAngle)
    ensures OamN(t, 36).bodyAngle == Angle(t.direction)
  {
    AngleIsWholeStep(t.direction);
    OamNInterpolates(t, 36);
    InterpolateWithin36(t.bodyAngle, Angle(t.direction));
  }

  /** An exploded tank's body no longer turns: its sprite update changes nothing. */
  lemma ExplodedBodyStill(t: TankState)
    ensures OamState(ExplodeTankState(t)) == ExplodeTankState(t)
    ensures !ExplodeTankState(t).alive
  {
  }

  /*-------------------------------------------------------------------------
   * One frame on values
   *-------------------------------------------------------------------------*/

  /** The two input handlers keep every tank and bullet valid and the arena's shape. */
  lemma InputKeepsValid(a: Arena, spawns: seq<Position>, held: bv32, down: bv32, accX: real, accY: real,
                        grid: Grid, muzzle: Position, unit: real -> Velocity, aim: real)
    requires 1 <= |a.tanks| && Shaped(a) && |spawns| == |a.tanks| && WellFormed(grid)
    requires ArenaValid(a) && LaunchInside(a, spawns, held, down, accX, accY, grid, muzzle)
    ensures var b := ButtonSpec(a, spawns, held, down, accX, accY, grid, muzzle, unit);
      var t := TouchSpec(b.arena, held, aim);
      |t.tanks| == |a.tanks| && Shaped(t) && ArenaValid(t) &&
      (forall k :: 0 <= k < |t.shots| ==> PoolStatesValid(t.shots[k])) &&
      (0.0 <= accX < 1.0 && 0.0 <= accY < 1.0 ==> 0.0 <= b.accX < 1.0 && 0.0 <= b.accY < 1.0)
  {
    var b := ButtonSpec(a, spawns, held, down, accX, accY, grid, muzzle, unit);
    ButtonKeepsValid(a, spawns, held, down, accX, accY, grid, muzzle, unit);
    OnlyPlayerActs(a, spawns, held, down, accX, accY, grid, muzzle, unit);
    FiresOnlyOnL(a, spawns, held, down, accX, accY, grid, muzzle, unit);
    TouchOnlyTurnsTurret(b.arena, held, aim);
    ArenaPoolsValid(TouchSpec(b.arena, held, aim));
  }

  /**
   * The whole frame: the button handler, the touch handler (with the same
   * held keys), the sprite update of every tank, then the collision sweep.
   */
  ghost function FrameSpec(a: Arena, spawns: seq<Position>, held: bv32, down: bv32, accX: real, accY: real,
                           grid: Grid, muzzle: Position, unit: real -> Velocity, aim: real,
                           finished: (int, int) -> bool): (o: InputOutcome)
    requires 1 <= |a.tanks| && Shaped(a) && |spawns| == |a.tanks| && WellFormed(grid)
    requires ArenaValid(a) && LaunchInside(a, spawns, held, down, accX, accY, grid, muzzle)
    ensures |o.arena.tanks| == |a.tanks|
  {
    InputKeepsValid(a, spawns, held, down, accX, accY, grid, muzzle, unit, aim);
    var b := ButtonSpec(a, spawns, held, down, accX, accY, grid, muzzle, unit);
    var t := TouchSpec(b.arena, held, aim);
    InputOutcome(SweepAll(SpritesUpTo(t, grid, unit, finished, |t.tanks|)), b.accX, b.accY)
  }

  /**
   * A frame keeps every tank and bullet valid, the number of tanks and the
   * size of every pool, and the accumulators in [0, 1).
   */
  lemma FrameKeepsValid(a: Arena, spawns: seq<Position>, held: bv32, down: bv32, accX: real, accY: real,
                        grid: Grid, muzzle: Position, unit: real -> Velocity, aim: real,
                        finished: (int, int) -> bool)
    requires 1 <= |a.tanks| && Shaped(a) && |spawns| == |a.tanks| && WellFormed(grid)
    requires ArenaValid(a) && LaunchInside(a, spawns, held, down, accX, accY, grid, muzzle)
    requires 0.0 <= accX < 1.0 && 0.0 <= accY < 1.0
    ensures var o := FrameSpec(a, spawns, held, down, accX, accY, grid, muzzle, unit, aim, finished);
      ArenaValid(o.arena) && |o.arena.tanks| == |a.tanks| &&
      0.0 <= o.accX < 1.0 && 0.0 <= o.accY < 1.0
  {
    InputKeepsValid(a, spawns, held, down, accX, accY, grid, muzzle, unit, aim);
    var b := ButtonSpec(a, spawns, held, down, accX, accY, grid, muzzle, unit);
    var t := TouchSpec(b.arena, held, aim);
    SpritesKeepValid(t, grid, unit, finished, |t.tanks|);
    SweepKeepsValid(SpritesUpTo(t, grid, unit, finished, |t.tanks|));
  }

  /*-------------------------------------------------------------------------
   * The frame on the stage
   *-------------------------------------------------------------------------*/

  /** The sprite update of tank i: its body rotation, then each of its bullets in slot order. */
  method UpdateTankSprites(stage: Stage, i: int, unit: real -> Velocity, finished: (int, int) -> bool)
    requires stage.Owns() && 0 <= i < |stage.tanks| && WellFormed(stage.barriers)
    requires PoolStatesValid(stage.Snapshot().shots[i])
    modifies stage.tankObjects, stage.ownerOf.Keys
    ensures var a := old(stage.Snapshot());
      stage.Snapshot() ==
        Arena(a.tanks[i := OamState(a.tanks[i])],
              a.shots[i := AdvancePool(a.shots[i], stage.barriers, unit, finished, i, |a.shots[i]|)])
  {
    stage.UpdateOamAt(i);
    UpdatePoolSprites(stage, i, unit, finished);
  }

  /** Each bullet of tank i runs its frame, in slot order. */
  method UpdatePoolSprites(stage: Stage, i: int, unit: real -> Velocity, finished: (int, int) -> bool)
    requires stage.Owns() && 0 <= i < |stage.tanks| && WellFormed(stage.barriers)
    requires PoolStatesValid(stage.Snapshot().shots[i])
    modifies stage.ownerOf.Keys
    ensures var a := old(stage.Snapshot());
      stage.Snapshot() == WithPool(a, i, AdvancePool(a.shots[i], stage.barriers, unit, finished, i, |a.shots[i]|))
  {
    ghost var grid := stage.barriers;
    ghost var a := stage.Snapshot();
    ghost var pool := a.shots[i];
    AdvancePoolStep(pool, grid, unit, finished, i, 0);
    var j := 0;
    while j < |stage.tanks[i].bullets|
      invariant 0 <= j <= |stage.tanks[i].bullets|
      invariant stage.Snapshot() == WithPool(a, i, AdvancePool(pool, grid, unit, finished, i, j))
    {
      AdvancePoolStep(pool, grid, unit, finished, i, j);
      ghost var done := AdvancePool(pool, grid, unit, finished, i, j);
      WithShotOfPool(a, i, j, done, UpdateSpec(pool[j], grid, unit, finished(i, j)));
      stage.UpdateBulletAt(i, j, unit, finished(i, j));
      j := j + 1;
    }
  }

  /** Pool updates one slot at a time: none done is the pool itself, and slot j comes next. */
  lemma AdvancePoolStep(pool: seq<BulletState>, grid: Grid, unit: real -> Velocity,
                        finished: (int, int) -> bool, k: int, j: int)
    requires WellFormed(grid) && 0 <= j <= |pool| && PoolStatesValid(pool)
    ensures AdvancePool(pool, grid, unit, finished, k, 0) == pool
    ensures j < |pool| ==>
      AdvancePool(pool, grid, unit, finished, k, j)[j] == pool[j] &&
      AdvancePool(pool, grid, unit, finished, k, j)[j := UpdateSpec(pool[j], grid, unit, finished(k, j))]
        == AdvancePool(pool, grid, unit, finished, k, j + 1)
  {
  }

  lemma WithShotOfPool(a: Arena, i: int, j: int, pool: seq<BulletState>, b: BulletState)
    requires 0 <= i < |a.shots| && 0 <= j < |pool|
    ensures IsShot(WithPool(a, i, pool), i, j)
    ensures WithShot(WithPool(a, i, pool), i, j, b) == WithPool(a, i, pool[j := b])
  {
  }

  /** The sprite loop of every tank, in roster order. */
  method UpdateAllSprites(stage: Stage, unit: real -> Velocity, finished: (int, int) -> bool)
    requires stage.Owns() && WellFormed(stage.barriers)
    requires forall k :: 0 <= k < |stage.tanks| ==> PoolStatesValid(stage.Snapshot().shots[k])
    modifies stage.tankObjects, stage.ownerOf.Keys
    ensures stage.Snapshot() == SpritesUpTo(old(stage.Snapshot()), stage.barriers, unit, finished, |stage.tanks|)
  {
    ghost var a0 := stage.Snapshot();
    var i := 0;
    while i < |stage.tanks|
      invariant 0 <= i <= |stage.tanks|
      invariant stage.Snapshot() == SpritesUpTo(a0, stage.barriers, unit, finished, i)
    {
      SpritesStep(a0, stage.barriers, unit, finished, i);
      UpdateTankSprites(stage, i, unit, finished);
      i := i + 1;
    }
  }

  /** The sprite update of every tank, then the collision sweep. */
  method UpdateSprites(stage: Stage, unit: real -> Velocity, finished: (int, int) -> bool)
    requires stage.Valid() && stage.loaded
    modifies stage.tankObjects, stage.ownerOf.Keys
    ensures stage.Valid()
    ensures stage.Snapshot() ==
      SweepAll(SpritesUpTo(old(stage.Snapshot()), stage.barriers, unit, finished, |stage.tanks|))
  {
    ghost var a0 := stage.Snapshot();
    ArenaPoolsValid(a0);
    SpritesKeepValid(a0, stage.barriers, unit, finished, |stage.tanks|);
    UpdateAllSprites(stage, unit, finished);
    stage.CheckForBulletCollision();
  }

  /**
   * The handlers and the sprite update of one frame, in the main loop's
   * order: `held` and `down` are the keys held and newly pressed, `muzzle`
   * the player's muzzle offset, `aim` atan2 in degrees of the touch point's
   * offset from the player's centre, `finished` the end of each bullet's
   * effect animation.
   */
  method FrameSteps(stage: Stage, acc: Accumulators, held: bv32, down: bv32, muzzle: Position,
                    unit: real -> Velocity, aim: real, finished: (int, int) -> bool)
    requires stage.Valid() && stage.loaded && 1 <= |stage.tanks|
    requires LaunchInside(stage.Snapshot(), stage.Spawns(), held, down, acc.x, acc.y, stage.barriers, muzzle)
    modifies stage.tankObjects, stage.ownerOf.Keys, acc
    ensures stage.Valid()
    ensures var o := FrameSpec(old(stage.Snapshot()), stage.Spawns(), held, down, old(acc.x), old(acc.y),
                               stage.barriers, muzzle, unit, aim, finished);
      stage.Snapshot() == o.arena && acc.x == o.accX && acc.y == o.accY
  {
    ghost var a := stage.Snapshot();
    ghost var spawns := stage.Spawns();
    ghost var b := ButtonSpec(a, spawns, held, down, acc.x, acc.y, stage.barriers, muzzle, unit);
    InputKeepsValid(a, spawns, held, down, acc.x, acc.y, stage.barriers, muzzle, unit, aim);
    HandleButtonInput(stage, held, down, acc, muzzle, unit);
    assert stage.Snapshot() == b.arena;
    HandleTouchInput(stage, held, aim);
    assert stage.Snapshot() == TouchSpec(b.arena, held, aim);
    UpdateSprites(stage, unit, finished);
  }

  /**
   * The program's state across frames: the stage, the accumulators the
   * move shares between all tanks, and the frame counter.
   */
  class Game {
    const stage: Stage
    const acc: Accumulators
    var frameCounter: int

    ghost predicate Valid()
      reads this, stage.tankObjects, stage.ownerOf.Keys, acc
    {
      stage.Valid() && stage.loaded && 0.0 <= acc.x < 1.0 && 0.0 <= acc.y < 1.0
    }

    /** Start the game on stage 1 with cell size `cell` and barrier map `grid`. */
    constructor(cell: int, grid: Grid)
      requires WellFormed(grid)
      ensures Valid() && frameCounter == 0 && 2 == |stage.tanks|
      ensures stage.stageNum == LOADED_STAGE && stage.barriers == grid
    {
      stage := new Stage(LOADED_STAGE, cell, grid);
      acc := new Accumulators();
      frameCounter := 0;
    }

    /** One pass of the main loop: the frame's steps, then the frame counter advances. */
    method RunFrame(held: bv32, down: bv32, muzzle: Position, unit: real -> Velocity, aim: real,
                    finished: (int, int) -> bool)
      requires Valid() && 1 <= |stage.tanks|
      requires LaunchInside(stage.Snapshot(), stage.Spawns(), held, down, acc.x, acc.y, stage.barriers, muzzle)
      modifies this, stage.tankObjects, stage.ownerOf.Keys, acc
      ensures Valid() && frameCounter == old(frameCounter) + 1
      ensures var o := FrameSpec(old(stage.Snapshot()), stage.Spawns(), held, down, old(acc.x), old(acc.y),
                                 stage.barriers, muzzle, unit, aim, finished);
        stage.Snapshot() == o.arena && acc.x == o.accX && acc.y == o.accY
    {
      FrameKeepsValid(stage.Snapshot(), stage.Spawns(), held, down, acc.x, acc.y, stage.barriers,
                      muzzle, unit, aim, finished);
      FrameSteps(stage, acc, held, down, muzzle, unit, aim, finished);
      frameCounter := frameCounter + 1;
    }
  }
}
