/**
 * The input handlers of the frame loop: the button handler (the debug keys
 * START and SELECT, the player's direction from the held arrow keys, the
 * fire edge on L) and the touch handler (the turret follows the stylus).
 *
 * Key masks are parameters (the hardware's key scans are not modelled);
 * the touch point enters as the turret angle the tank derives from it.
 * Each handler is a method on the stage, proved against a function on the
 * arena that the lemmas below describe.
 */
module Input {
  import opened Geometry
  import opened Bullets
  import opened TankDefs
  import opened Tanks
  import opened Sweep
  import opened Stages

  /** The key bits of the console's keypad register. */
  const KEY_A: bv32 := 0x1
  const KEY_B: bv32 := 0x2
  const KEY_SELECT: bv32 := 0x4
  const KEY_START: bv32 := 0x8
  const KEY_RIGHT: bv32 := 0x10
  const KEY_LEFT: bv32 := 0x20
  const KEY_UP: bv32 := 0x40
  const KEY_DOWN: bv32 := 0x80
  const KEY_R: bv32 := 0x100
  const KEY_L: bv32 := 0x200
  const KEY_X: bv32 := 0x400
  const KEY_Y: bv32 := 0x800
  const KEY_TOUCH: bv32 := 0x1000

  predicate Pressed(keys: bv32, key: bv32)
  {
    keys & key != 0
  }

  predicate ArrowHeld(held: bv32)
  {
    Pressed(held, KEY_UP) || Pressed(held, KEY_RIGHT) || Pressed(held, KEY_DOWN) || Pressed(held, KEY_LEFT)
  }

  /**
   * The direction the held arrows ask for, starting from the tank's current
   * direction. Horizontally LEFT wins over RIGHT, vertically UP wins over
   * DOWN, and with no arrow held the direction stays as it was.
   */
  function ResolveDirection(held: bv32, current: Direction): (d: Direction)
    ensures ArrowHeld(held) ==>
      XSign(d) == (if Pressed(held, KEY_LEFT) then -1 else if Pressed(held, KEY_RIGHT) then 1 else 0) &&
      YSign(d) == (if Pressed(held, KEY_UP) then -1 else if Pressed(held, KEY_DOWN) then 1 else 0)
    ensures !ArrowHeld(held) ==> d == current
  {
    if Pressed(held, KEY_LEFT) then
      if Pressed(held, KEY_UP) then NW else if Pressed(held, KEY_DOWN) then SW else W
    else if Pressed(held, KEY_RIGHT) then
      if Pressed(held, KEY_UP) then NE else if Pressed(held, KEY_DOWN) then SE else E
    else if Pressed(held, KEY_UP) then N
    else if Pressed(held, KEY_DOWN) then S
    else current
  }

  /** The held arrows determine the direction, whatever the tank faced before. */
  lemma DirectionIgnoresCurrent(held: bv32, c1: Direction, c2: Direction)
    requires ArrowHeld(held)
    ensures ResolveDirection(held, c1) == ResolveDirection(held, c2)
  {
    ComponentsDetermineDirection(ResolveDirection(held, c1), ResolveDirection(held, c2));
  }

  /*-------------------------------------------------------------------------
   * The button handler on values
   *-------------------------------------------------------------------------*/

  /** The first n tanks reset to their spawns. */
  function ResetFirst(a: Arena, spawns: seq<Position>, n: int): (r: Arena)
    requires |spawns| == |a.tanks| && 0 <= n <= |a.tanks|
  {
    a.(tanks := seq(|a.tanks|, i requires 0 <= i < |a.tanks| =>
                      if i < n then TankResetState(a.tanks[i], spawns[i]) else a.tanks[i]))
  }

  /** The first n tanks explode. */
  function ExplodeFirst(a: Arena, n: int): (r: Arena)
    requires 0 <= n <= |a.tanks|
  {
    a.(tanks := seq(|a.tanks|, i requires 0 <= i < |a.tanks| =>
                      if i < n then ExplodeTankState(a.tanks[i]) else a.tanks[i]))
  }

  /** The debug keys: a new START press resets every tank, else a new SELECT press explodes every tank. */
  function DebugKeys(a: Arena, spawns: seq<Position>, down: bv32): Arena
    requires |spawns| == |a.tanks|
  {
    if Pressed(down, KEY_START) then ResetFirst(a, spawns, |a.tanks|)
    else if Pressed(down, KEY_SELECT) then ExplodeFirst(a, |a.tanks|)
    else a
  }

  datatype InputOutcome = InputOutcome(arena: Arena, accX: real, accY: real)

  /** The player's move: with an arrow held, tank 0 moves towards the resolved direction. */
  function PlayerMove(a: Arena, held: bv32, accX: real, accY: real, grid: Grid): InputOutcome
    requires 1 <= |a.tanks| && WellFormed(grid)
  {
    if ArrowHeld(held) then
      var d := ResolveDirection(held, a.tanks[0].direction);
      var m := MoveSpec(a.tanks[0], accX, accY, d, ArenaBoxes(a, 0), grid);
      InputOutcome(WithTank(a, 0, m.state), m.accX, m.accY)
    else
      InputOutcome(a, accX, accY)
  }

  /** The player's turn: nothing if tank 0 is dead; else the move, then a shot on a new L press. */
  function PlayerTurn(a: Arena, held: bv32, down: bv32, accX: real, accY: real, grid: Grid,
                      muzzle: Position, unit: real -> Velocity): InputOutcome
    requires 1 <= |a.tanks| && Shaped(a) && WellFormed(grid)
  {
    if !a.tanks[0].alive then InputOutcome(a, accX, accY)
    else
      var m := PlayerMove(a, held, accX, accY, grid);
      if Pressed(down, KEY_L) then
        InputOutcome(WithPool(m.arena, 0, LaunchedPool(m.arena, 0, muzzle, unit)), m.accX, m.accY)
      else m
  }

  /** The whole button handler. */
  function ButtonSpec(a: Arena, spawns: seq<Position>, held: bv32, down: bv32, accX: real, accY: real,
                      grid: Grid, muzzle: Position, unit: real -> Velocity): (o: InputOutcome)
    requires 1 <= |a.tanks| && Shaped(a) && |spawns| == |a.tanks| && WellFormed(grid)
    ensures |o.arena.tanks| == |a.tanks|
    ensures !Pressed(down, KEY_START) && !Pressed(down, KEY_SELECT) && !a.tanks[0].alive ==>
              o == InputOutcome(a, accX, accY)
  {
    PlayerTurn(DebugKeys(a, spawns, down), held, down, accX, accY, grid, muzzle, unit)
  }

  /**
   * Where the shot would leave from is inside the arena: the condition
   * under which firing keeps the bullet invariant (see CanLaunch).
   */
  predicate LaunchInside(a: Arena, spawns: seq<Position>, held: bv32, down: bv32, accX: real, accY: real,
                         grid: Grid, muzzle: Position)
    requires 1 <= |a.tanks| && Shaped(a) && |spawns| == |a.tanks| && WellFormed(grid)
  {
    var b := DebugKeys(a, spawns, down);
    Pressed(down, KEY_L) && b.tanks[0].alive ==>
      CanLaunch(PlayerMove(b, held, accX, accY, grid).arena, 0, muzzle)
  }

  /*-------------------------------------------------------------------------
   * What the button handler does
   *-------------------------------------------------------------------------*/

  /**
   * START resets every tank to its spawn, alive, visible and facing north;
   * SELECT (without START) leaves no tank alive. Bullets are untouched.
   */
  lemma DebugKeysEffect(a: Arena, spawns: seq<Position>, down: bv32)
    requires |spawns| == |a.tanks| && ArenaValid(a)
    ensures var r := DebugKeys(a, spawns, down);
      |r.tanks| == |a.tanks| && r.shots == a.shots &&
      (Pressed(down, KEY_START) ==> forall k :: 0 <= k < |r.tanks| ==>
         r.tanks[k].pos == spawns[k] && r.tanks[k].alive && r.tanks[k].direction == N &&
         r.tanks[k].bodyAngle == 0 && a.tanks[k].history <= r.tanks[k].history) &&
      (!Pressed(down, KEY_START) && Pressed(down, KEY_SELECT) ==> forall k :: 0 <= k < |r.tanks| ==>
         !r.tanks[k].alive && r.tanks[k].pos == a.tanks[k].pos) &&
      (!Pressed(down, KEY_START) && !Pressed(down, KEY_SELECT) ==> r == a)
  {
    if Pressed(down, KEY_START) {
      forall k | 0 <= k < |a.tanks|
        ensures TankResetState(a.tanks[k], spawns[k]).pos == spawns[k]
        ensures a.tanks[k].history <= TankResetState(a.tanks[k], spawns[k]).history
      {
        ResetRestoresSpawn(a.tanks[k], spawns[k]);
      }
    }
  }

  /**
   * With a dead player (after the debug keys) the handler issues neither a
   * move nor a shot: the arena is the debug keys' result and the
   * accumulators are untouched. In particular SELECT alone does nothing else.
   */
  lemma DeadPlayerIgnored(a: Arena, spawns: seq<Position>, held: bv32, down: bv32, accX: real, accY: real,
                          grid: Grid, muzzle: Position, unit: real -> Velocity)
    requires 1 <= |a.tanks| && Shaped(a) && |spawns| == |a.tanks| && WellFormed(grid)
    requires !DebugKeys(a, spawns, down).tanks[0].alive || (!Pressed(down, KEY_START) && Pressed(down, KEY_SELECT))
    ensures ButtonSpec(a, spawns, held, down, accX, accY, grid, muzzle, unit) ==
      InputOutcome(DebugKeys(a, spawns, down), accX, accY)
  {
    var b := DebugKeys(a, spawns, down);
    assert !Pressed(down, KEY_START) && Pressed(down, KEY_SELECT) ==> !b.tanks[0].alive;
  }

  /**
   * Only the player's tank and its pool can change beyond the debug keys:
   * every other tank and pool is as the debug keys left it.
   */
  lemma OnlyPlayerActs(a: Arena, spawns: seq<Position>, held: bv32, down: bv32, accX: real, accY: real,
                       grid: Grid, muzzle: Position, unit: real -> Velocity)
    requires 1 <= |a.tanks| && Shaped(a) && |spawns| == |a.tanks| && WellFormed(grid)
    ensures var b := DebugKeys(a, spawns, down);
      var r := ButtonSpec(a, spawns, held, down, accX, accY, grid, muzzle, unit).arena;
      |r.tanks| == |b.tanks| && |r.shots| == |b.shots| &&
      (forall k :: 1 <= k < |b.tanks| ==> r.tanks[k] == b.tanks[k] && r.shots[k] == b.shots[k])
  {
  }

  /**
   * Without an arrow held nothing moves: the player's tank (direction
   * included) and the accumulators stay as the debug keys left them.
   */
  lemma NoArrowNoMove(a: Arena, spawns: seq<Position>, held: bv32, down: bv32, accX: real, accY: real,
                      grid: Grid, muzzle: Position, unit: real -> Velocity)
    requires 1 <= |a.tanks| && Shaped(a) && |spawns| == |a.tanks| && WellFormed(grid)
    requires !ArrowHeld(held)
    ensures var o := ButtonSpec(a, spawns, held, down, accX, accY, grid, muzzle, unit);
      o.arena.tanks == DebugKeys(a, spawns, down).tanks && o.accX == accX && o.accY == accY
  {
  }

  /**
   * A shot happens at most once per frame: the player's pool gains one
   * bullet in flight exactly when L was newly pressed, the player is alive
   * and one of its bullets was idle; otherwise no bullet is launched.
   */
  lemma FiresOnlyOnL(a: Arena, spawns: seq<Position>, held: bv32, down: bv32, accX: real, accY: real,
                     grid: Grid, muzzle: Position, unit: real -> Velocity)
    requires 1 <= |a.tanks| && Shaped(a) && |spawns| == |a.tanks| && WellFormed(grid)
    ensures var b := DebugKeys(a, spawns, down);
      var r := ButtonSpec(a, spawns, held, down, accX, accY, grid, muzzle, unit).arena;
      var fires := Pressed(down, KEY_L) && b.tanks[0].alive &&
                   exists j :: 0 <= j < |b.shots[0]| && !b.shots[0][j].inFlight;
      (fires ==> InFlightCount(r.shots[0]) == InFlightCount(b.shots[0]) + 1) &&
      (!fires ==> r.shots[0] == b.shots[0])
  {
    var b := DebugKeys(a, spawns, down);
    if Pressed(down, KEY_L) && b.tanks[0].alive {
      var m := PlayerMove(b, held, accX, accY, grid).arena;
      assert m.shots == b.shots;
      FireLaunchesOne(b.shots[0], Spawn(m.tanks[0].pos, muzzle), m.tanks[0].turretAngle, unit);
    }
  }

  /** A move keeps the history counter in range and the body angle as it was. */
  lemma MoveKeepsTankValid(t: TankState, accX: real, accY: real, d: Direction, boxes: seq<TankBox>, grid: Grid)
    requires WellFormed(grid) && 1 <= t.historyCounter <= HISTORY_CADENCE
    ensures var s := MoveSpec(t, accX, accY, d, boxes, grid).state;
      1 <= s.historyCounter <= HISTORY_CADENCE && s.bodyAngle == t.bodyAngle
  {
    if Angle(d) == t.bodyAngle {
      var turned := t.(direction := d);
      var ys := AxisCommit(turned, YAxis, YSign(d), accY, Amount(d), boxes, grid);
      AxisCommitKeepsTankValid(turned, YAxis, YSign(d), accY, Amount(d), boxes, grid);
      AxisCommitKeepsTankValid(ys.state, XAxis, XSign(d), accX, Amount(d), boxes, grid);
    }
  }

  lemma AxisCommitKeepsTankValid(t: TankState, axis: Axis, sign: int, acc: real, amount: real,
                                 boxes: seq<TankBox>, grid: Grid)
    requires WellFormed(grid) && 1 <= t.historyCounter <= HISTORY_CADENCE
    ensures var s := AxisCommit(t, axis, sign, acc, amount, boxes, grid).state;
      1 <= s.historyCounter <= HISTORY_CADENCE && s.bodyAngle == t.bodyAngle
  {
    if sign != 0 {
      var r := AxisMove(t.pos, axis, sign, acc, amount, boxes, grid);
    }
  }

  /** The debug keys keep every tank and bullet valid. */
  lemma DebugKeysKeepValid(a: Arena, spawns: seq<Position>, down: bv32)
    requires |spawns| == |a.tanks| && ArenaValid(a)
    ensures ArenaValid(DebugKeys(a, spawns, down)) && |DebugKeys(a, spawns, down).tanks| == |a.tanks|
  {
    forall k | 0 <= k < |a.tanks|
      ensures 1 <= TankResetState(a.tanks[k], spawns[k]).historyCounter <= HISTORY_CADENCE
    {
      ResetRestoresSpawn(a.tanks[k], spawns[k]);
    }
  }

  /**
   * The button handler keeps every tank and bullet valid, and keeps the
   * accumulators in [0, 1), provided a shot leaves from inside the arena.
   */
  lemma ButtonKeepsValid(a: Arena, spawns: seq<Position>, held: bv32, down: bv32, accX: real, accY: real,
                         grid: Grid, muzzle: Position, unit: real -> Velocity)
    requires 1 <= |a.tanks| && Shaped(a) && |spawns| == |a.tanks| && WellFormed(grid)
    requires ArenaValid(a) && LaunchInside(a, spawns, held, down, accX, accY, grid, muzzle)
    ensures var o := ButtonSpec(a, spawns, held, down, accX, accY, grid, muzzle, unit);
      ArenaValid(o.arena) &&
      (0.0 <= accX < 1.0 && 0.0 <= accY < 1.0 ==> 0.0 <= o.accX < 1.0 && 0.0 <= o.accY < 1.0)
  {
    var b := DebugKeys(a, spawns, down);
    DebugKeysKeepValid(a, spawns, down);
    if b.tanks[0].alive {
      var m := PlayerMove(b, held, accX, accY, grid);
      if ArrowHeld(held) {
        var d := ResolveDirection(held, b.tanks[0].direction);
        MoveKeepsTankValid(b.tanks[0], accX, accY, d, ArenaBoxes(b, 0), grid);
        if 0.0 <= accX < 1.0 && 0.0 <= accY < 1.0 {
          MoveSteps(b.tanks[0], accX, accY, d, ArenaBoxes(b, 0), grid);
        }
      }
      assert ArenaValid(m.arena);
      if Pressed(down, KEY_L) {
        LaunchKeepsValid(m.arena, 0, muzzle, unit);
      }
    }
  }

  /** Firing from inside the arena keeps every bullet valid. */
  lemma LaunchKeepsValid(a: Arena, k: int, muzzle: Position, unit: real -> Velocity)
    requires 0 <= k < |a.tanks| && Shaped(a) && ArenaValid(a) && CanLaunch(a, k, muzzle)
    ensures ArenaValid(WithPool(a, k, LaunchedPool(a, k, muzzle, unit)))
    ensures |LaunchedPool(a, k, muzzle, unit)| == |a.shots[k]|
  {
    var i := FirstIdle(a.shots[k]);
    if i < |a.shots[k]| {
      assert IsShot(a, k, i);
    }
    var r := WithPool(a, k, LaunchedPool(a, k, muzzle, unit));
    forall x, y | IsShot(r, x, y)
      ensures ValidState(r.shots[x][y])
    {
      assert IsShot(a, x, y);
    }
  }

  /*-------------------------------------------------------------------------
   * The touch handler on values
   *-------------------------------------------------------------------------*/

  /**
   * The touch handler: while the screen is touched, a living player's
   * turret aims at the touch point, whose offset from the tank's centre has
   * atan2 `aim` in degrees; the new turret angle lies in [0, 360).
   */
  function TouchSpec(a: Arena, held: bv32, aim: real): (r: Arena)
    requires 1 <= |a.tanks|
    ensures r.shots == a.shots && |r.tanks| == |a.tanks|
    ensures forall k :: 1 <= k < |a.tanks| ==> r.tanks[k] == a.tanks[k]
    ensures r.tanks[0] == a.tanks[0].(turretAngle := r.tanks[0].turretAngle)
    ensures r.tanks[0].turretAngle != a.tanks[0].turretAngle ==> 0.0 <= r.tanks[0].turretAngle < 360.0
  {
    if !a.tanks[0].alive then a
    else if Pressed(held, KEY_TOUCH) then WithTank(a, 0, a.tanks[0].(turretAngle := TouchTurretAngle(aim)))
    else a
  }

  /**
   * Touch only ever turns the living player's turret: nothing else of any
   * tank or bullet changes, and a dead player ignores the touch screen.
   */
  lemma TouchOnlyTurnsTurret(a: Arena, held: bv32, aim: real)
    requires 1 <= |a.tanks| && ArenaValid(a)
    ensures var r := TouchSpec(a, held, aim);
      ArenaValid(r) && r.shots == a.shots && |r.tanks| == |a.tanks| &&
      (forall k :: 1 <= k < |a.tanks| ==> r.tanks[k] == a.tanks[k]) &&
      r.tanks[0] == a.tanks[0].(turretAngle := r.tanks[0].turretAngle) &&
      (r.tanks[0].turretAngle != a.tanks[0].turretAngle ==>
         a.tanks[0].alive && Pressed(held, KEY_TOUCH) && r.tanks[0].turretAngle == TouchTurretAngle(aim))
  {
  }

  /*-------------------------------------------------------------------------
   * The handlers on the stage
   *-------------------------------------------------------------------------*/

  /** The reset loop of the START key. */
  method ResetAll(stage: Stage)
    requires stage.Owns()
    modifies stage.tankObjects
    ensures stage.Snapshot() == ResetFirst(old(stage.Snapshot()), stage.Spawns(), |stage.tanks|)
  {
    ghost var a0 := stage.Snapshot();
    var i := 0;
    while i < |stage.tanks|
      invariant 0 <= i <= |stage.tanks|
      invariant stage.Snapshot() == ResetFirst(a0, stage.Spawns(), i)
    {
      stage.ResetTankAt(i);
      i := i + 1;
    }
  }

  /** The explode loop of the SELECT key. */
  method ExplodeAll(stage: Stage)
    requires stage.Owns()
    modifies stage.tankObjects
    ensures stage.Snapshot() == ExplodeFirst(old(stage.Snapshot()), |stage.tanks|)
  {
    ghost var a0 := stage.Snapshot();
    var i := 0;
    while i < |stage.tanks|
      invariant 0 <= i <= |stage.tanks|
      invariant stage.Snapshot() == ExplodeFirst(a0, i)
    {
      stage.KillTankAt(i);
      i := i + 1;
    }
  }

  /**
   * The button handler: `held` and `down` are the held and newly pressed
   * keys of this frame, `muzzle` the muzzle offset of the player's turret.
   */
  method HandleButtonInput(stage: Stage, held: bv32, down: bv32, acc: Accumulators,
                           muzzle: Position, unit: real -> Velocity)
    requires stage.Valid() && 1 <= |stage.tanks|
    requires LaunchInside(stage.Snapshot(), stage.Spawns(), held, down, acc.x, acc.y, stage.barriers, muzzle)
    modifies stage.tankObjects, stage.ownerOf.Keys, acc
    ensures stage.Valid()
    ensures var o := ButtonSpec(old(stage.Snapshot()), stage.Spawns(), held, down, old(acc.x), old(acc.y),
                                stage.barriers, muzzle, unit);
      stage.Snapshot() == o.arena && acc.x == o.accX && acc.y == o.accY
  {
    ghost var a := stage.Snapshot();
    ghost var spawns := stage.Spawns();
    ghost var o := ButtonSpec(a, spawns, held, down, acc.x, acc.y, stage.barriers, muzzle, unit);
    ButtonKeepsValid(a, spawns, held, down, acc.x, acc.y, stage.barriers, muzzle, unit);
    DebugKeysStep(stage, down);
    ghost var b := stage.Snapshot();
    assert b == DebugKeys(a, spawns, down) && ArenaValid(b) by {
      DebugKeysKeepValid(a, spawns, down);
    }
    assert Pressed(down, KEY_L) && b.tanks[0].alive ==>
      CanLaunch(PlayerMove(b, held, acc.x, acc.y, stage.barriers).arena, 0, muzzle);
    PlayerStep(stage, held, down, acc, muzzle, unit);
    assert stage.Snapshot() == o.arena && ArenaValid(o.arena);
  }

  /** The START and SELECT part of the button handler. */
  method DebugKeysStep(stage: Stage, down: bv32)
    requires stage.Owns()
    modifies stage.tankObjects
    ensures stage.Snapshot() == DebugKeys(old(stage.Snapshot()), stage.Spawns(), down)
  {
    if Pressed(down, KEY_START) {
      ResetAll(stage);
    } else if Pressed(down, KEY_SELECT) {
      ExplodeAll(stage);
    }
  }

  /** The player part of the button handler: the dead-player guard, the move and the shot. */
  method PlayerStep(stage: Stage, held: bv32, down: bv32, acc: Accumulators,
                    muzzle: Position, unit: real -> Velocity)
    requires stage.Owns() && 1 <= |stage.tanks| && WellFormed(stage.barriers)
    requires ArenaValid(stage.Snapshot())
    requires Pressed(down, KEY_L) && stage.Snapshot().tanks[0].alive ==>
      CanLaunch(PlayerMove(stage.Snapshot(), held, acc.x, acc.y, stage.barriers).arena, 0, muzzle)
    modifies stage.tankObjects, stage.ownerOf.Keys, acc
    ensures var o := PlayerTurn(old(stage.Snapshot()), held, down, old(acc.x), old(acc.y),
                                stage.barriers, muzzle, unit);
      stage.Snapshot() == o.arena && acc.x == o.accX && acc.y == o.accY
  {
    if !stage.tanks[0].alive {
      return;
    }
    ghost var m := PlayerMove(stage.Snapshot(), held, acc.x, acc.y, stage.barriers);
    if ArrowHeld(held) {
      var d := ResolveDirection(held, stage.tanks[0].direction);
      stage.MoveTankAt(0, d, acc);
      MoveKeepsArenaValid(old(stage.Snapshot()), d, old(acc.x), old(acc.y), stage.barriers);
    }
    assert stage.Snapshot() == m.arena && acc.x == m.accX && acc.y == m.accY;
    if Pressed(down, KEY_L) {
      stage.FireTankAt(0, muzzle, unit);
    }
  }

  /** Moving the player keeps every tank and bullet valid. */
  lemma MoveKeepsArenaValid(a: Arena, d: Direction, accX: real, accY: real, grid: Grid)
    requires 1 <= |a.tanks| && WellFormed(grid) && ArenaValid(a)
    ensures ArenaValid(WithTank(a, 0, MoveSpec(a.tanks[0], accX, accY, d, ArenaBoxes(a, 0), grid).state))
  {
    MoveKeepsTankValid(a.tanks[0], accX, accY, d, ArenaBoxes(a, 0), grid);
  }

  /** The touch handler; `aim` is atan2 of the touch point's offset from the player's centre, in degrees. */
  method HandleTouchInput(stage: Stage, held: bv32, aim: real)
    requires stage.Valid() && 1 <= |stage.tanks|
    modifies stage.tankObjects
    ensures stage.Valid()
    ensures stage.Snapshot() == TouchSpec(old(stage.Snapshot()), held, aim)
  {
    TouchOnlyTurnsTurret(stage.Snapshot(), held, aim);
    if !stage.tanks[0].alive {
      return;
    }
    if Pressed(held, KEY_TOUCH) {
      stage.TurnTurretAt(0, aim);
    }
  }
}
