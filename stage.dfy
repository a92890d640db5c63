/**
 * The stage: its roster of tanks, its barrier map and the collision sweep
 * that runs once per frame over every tank's bullet pool. The sweep is
 * proved against the value-level sweep of module Sweep, whose lemmas say
 * which bullets explode and which tanks die.
 */
module Stages {
  import opened Geometry
  import opened Bullets
  import opened TankDefs
  import opened Tanks
  import opened Sweep

  /** The only stage number the constructor loads. */
  const LOADED_STAGE: int := 1

  /** One roster entry of a stage: where a tank starts, its colour and facing. */
  datatype TankSpawn = TankSpawn(x: int, y: int, color: TankColor, facing: Direction)

  /**
   * The roster of stage 1 for a cell size c: the player's blue tank one cell
   * from the left edge facing east and a brown tank two cells from the right
   * edge facing west, both half a cell above the middle row.
   */
  function Stage1Roster(c: int): (r: seq<TankSpawn>)
    ensures |r| == 2 && r[0].color == Blue && IsPlayer(r[0].color) && !IsPlayer(r[1].color)
    ensures r[0].y == r[1].y && r[0].x + r[1].x == SCREEN_WIDTH - c
  {
    var y := SCREEN_HEIGHT / 2 - c / 2;
    [TankSpawn(c, y, Blue, E), TankSpawn(SCREEN_WIDTH - c * 2, y, Brown, W)]
  }

  /** One roster entry's tank, with a fresh pool of valid idle bullets. */
  method BuildTank(s: TankSpawn) returns (t: Tank)
    ensures fresh(t) && t.PoolShape() && t.color == s.color
    ensures t.State() == ConstructedState(Position(s.x, s.y), s.facing)
    ensures forall j :: 0 <= j < |t.bullets| ==>
      fresh(t.bullets[j]) && t.bullets[j].Valid() && !t.bullets[j].inFlight
  {
    t := new Tank(s.x, s.y, s.color, s.facing);
  }

  /**
   * The tanks of stage 1 for a cell size c, pushed in roster order: the
   * player's tank, then the enemy, each with a fresh pool of idle bullets.
   */
  method CreateStage1Tanks(c: int)
    returns (ts: seq<Tank>, ghost tankSet: set<Tank>, ghost ownerOf: map<Bullet, int>)
    ensures |ts| == |Stage1Roster(c)|
    ensures forall i :: 0 <= i < |ts| ==>
      ts[i] in tankSet && ts[i].PoolShape() && ts[i].color == Stage1Roster(c)[i].color &&
      ts[i].State() ==
        ConstructedState(Position(Stage1Roster(c)[i].x, Stage1Roster(c)[i].y), Stage1Roster(c)[i].facing)
    ensures forall i, k :: 0 <= i < k < |ts| ==> ts[i] != ts[k]
    ensures forall i, j :: 0 <= i < |ts| && 0 <= j < |ts[i].bullets| ==>
      ts[i].bullets[j] in ownerOf && ownerOf[ts[i].bullets[j]] == i &&
      ts[i].bullets[j].Valid() && !ts[i].bullets[j].inFlight
  {
    var roster := Stage1Roster(c);
    var player := BuildTank(roster[0]);
    var enemy := BuildTank(roster[1]);
    ts := [player, enemy];
    tankSet := {player, enemy};
    ownerOf := (map b | b in player.bullets :: 0) + (map b | b in enemy.bullets :: 1);
  }

  /*-------------------------------------------------------------------------
   * Arena updates of one tank
   *-------------------------------------------------------------------------*/

  /** How the tanks of an arena appear in the move validation of tank `self`. */
  function ArenaBoxes(a: Arena, self: int): (r: seq<TankBox>)
    ensures |r| == |a.tanks|
    ensures forall i :: 0 <= i < |r| ==> r[i] == TankBox(a.tanks[i].pos, TANK_SIZE, TANK_SIZE, i == self)
  {
    seq(|a.tanks|, i requires 0 <= i < |a.tanks| => TankBox(a.tanks[i].pos, TANK_SIZE, TANK_SIZE, i == self))
  }

  function WithTank(a: Arena, k: int, t: TankState): (r: Arena)
    requires 0 <= k < |a.tanks|
    ensures SameShape(a, r)
  {
    a.(tanks := a.tanks[k := t])
  }

  function WithPool(a: Arena, k: int, pool: seq<BulletState>): (r: Arena)
    requires 0 <= k < |a.shots|
  {
    a.(shots := a.shots[k := pool])
  }

  function WithShot(a: Arena, i: int, j: int, b: BulletState): (r: Arena)
    requires IsShot(a, i, j)
    ensures SameShape(a, r)
  {
    a.(shots := a.shots[i := a.shots[i][j := b]])
  }

  /** Tank k's pool after it fires from its muzzle along its turret. */
  function LaunchedPool(a: Arena, k: int, muzzle: Position, unit: real -> Velocity): seq<BulletState>
    requires 0 <= k < |a.tanks| && Shaped(a)
  {
    FireSpec(a.shots[k], Spawn(a.tanks[k].pos, muzzle), a.tanks[k].turretAngle, unit)
  }

  /** If tank k has an idle bullet, the spawn point in front of its muzzle is inside the arena. */
  predicate CanLaunch(a: Arena, k: int, muzzle: Position)
    requires 0 <= k < |a.tanks| && Shaped(a)
  {
    FirstIdle(a.shots[k]) < |a.shots[k]| ==> Interior(Spawn(a.tanks[k].pos, muzzle))
  }

  class Stage {
    const stageNum: int
    /** Whether the constructor loaded a roster and a barrier map. */
    const loaded: bool
    const tanks: seq<Tank>
    const barriers: Grid
    /** Every tank of the roster, and every bullet of every tank. */
    ghost const tankObjects: set<Tank>
    /** The index of the tank each bullet belongs to. */
    ghost const ownerOf: map<Bullet, int>

    /** Bullet slot j of tank i exists. */
    predicate IsSlot(i: int, j: int)
    {
      0 <= i < |tanks| && 0 <= j < |tanks[i].bullets|
    }

    /**
     * The parts of the invariant that never change: every tank is in the
     * tank set, every slot's bullet is mapped to its tank's index (so pools
     * share no bullet), tanks are distinct objects, and every pool has its
     * colour's shape.
     */
    ghost predicate Owns()
    {
      (forall i :: 0 <= i < |tanks| ==> tanks[i] in tankObjects && tanks[i].PoolShape()) &&
      (forall i, j :: IsSlot(i, j) ==>
         tanks[i].bullets[j] in ownerOf && ownerOf[tanks[i].bullets[j]] == i) &&
      (forall i, k :: 0 <= i < k < |tanks| ==> tanks[i] != tanks[k])
    }

    /** Every tank and every bullet pool, as values. */
    ghost function Snapshot(): (a: Arena)
      requires Owns()
      reads tankObjects, ownerOf.Keys
      ensures Shaped(a) && |a.tanks| == |tanks|
      ensures forall i :: 0 <= i < |tanks| ==>
        a.tanks[i] == tanks[i].State() && a.shots[i] == tanks[i].BulletStates()
    {
      Arena(seq(|tanks|, i requires 0 <= i < |tanks| reads tankObjects => tanks[i].State()),
            seq(|tanks|, i requires 0 <= i < |tanks| reads ownerOf.Keys => tanks[i].BulletStates()))
    }

    /**
     * The stage's invariant: an unloaded stage has no tanks, a loaded one a
     * full barrier map, and every tank and bullet is valid.
     */
    ghost predicate Valid()
      reads tankObjects, ownerOf.Keys
    {
      Owns() &&
      (loaded <==> stageNum == LOADED_STAGE) &&
      (!loaded ==> tanks == []) &&
      (loaded ==> WellFormed(barriers)) &&
      ArenaValid(Snapshot())
    }

    /** Every tank of a valid stage is a valid tank. */
    lemma TankValid(k: int)
      requires Valid() && 0 <= k < |tanks|
      ensures tanks[k].Valid()
    {
      var a := Snapshot();
      assert forall j :: 0 <= j < |tanks[k].bullets| ==> IsShot(a, k, j);
    }

    /**
     * Stage number 1 builds its roster and takes its barrier map; any other
     * number loads nothing.
     */
    constructor(stageNum: int, cell: int, grid: Grid)
      requires stageNum == LOADED_STAGE ==> WellFormed(grid)
      ensures Valid() && this.stageNum == stageNum
      ensures loaded ==> tanks != [] && |tanks| == |Stage1Roster(cell)| && barriers == grid
      ensures loaded ==> var roster := Stage1Roster(cell);
        forall i :: 0 <= i < |tanks| ==>
        tanks[i].color == roster[i].color &&
        tanks[i].State() == ConstructedState(Position(roster[i].x, roster[i].y), roster[i].facing)
      ensures forall i, j :: IsSlot(i, j) ==> !tanks[i].bullets[j].inFlight
    {
      this.stageNum := stageNum;
      loaded := stageNum == LOADED_STAGE;
      if stageNum == LOADED_STAGE {
        var ts;
        ghost var tankSet, owners;
        ts, tankSet, owners := CreateStage1Tanks(cell);
        tankObjects := tankSet;
        ownerOf := owners;
        tanks := ts;
        barriers := grid;
      } else {
        tanks := [];
        barriers := [];
        tankObjects := {};
        ownerOf := map[];
      }
      new;
      ValidFromSlots();
    }

    /** The invariant, from the facts about each tank and each bullet slot. */
    lemma ValidFromSlots()
      requires Owns()
      requires (loaded <==> stageNum == LOADED_STAGE) && (!loaded ==> tanks == [])
      requires loaded ==> WellFormed(barriers)
      requires forall i :: 0 <= i < |tanks| ==>
        1 <= tanks[i].historyCounter <= HISTORY_CADENCE && WholeStepAngle(tanks[i].bodyAngle)
      requires forall i, j :: IsSlot(i, j) ==> tanks[i].bullets[j].Valid()
      ensures Valid()
    {
      var a := Snapshot();
      assert forall i, j :: IsShot(a, i, j) ==> a.shots[i][j] == tanks[i].bullets[j].State();
    }

    /** Bullet (i, j) explodes; nothing else changes. */
    method ExplodeShotAt(i: int, j: int)
      requires Owns() && IsSlot(i, j)
      modifies tanks[i].bullets[j]
      ensures Snapshot() == ExplodeShot(old(Snapshot()), i, j)
    {
      ghost var a := Snapshot();
      var b := tanks[i].bullets[j];
      b.Explode();
      assert forall m :: 0 <= m < |tanks| ==> tanks[m].State() == a.tanks[m];
      assert forall m :: 0 <= m < |tanks| && m != i ==> tanks[m].BulletStates() == a.shots[m];
      assert tanks[i].BulletStates() == a.shots[i][j := ExplodeState(a.shots[i][j])];
    }

    /** Tank k explodes; nothing else changes. */
    method KillTankAt(k: int)
      requires Owns() && 0 <= k < |tanks|
      modifies tanks[k]
      ensures Snapshot() == KillTank(old(Snapshot()), k)
    {
      tanks[k].Explode();
    }

    /** Bullet (i, j) against bullet (k, l) of the pair loops. */
    method CheckPair(i: int, j: int, k: int, l: int)
      requires Owns() && IsSlot(i, j) && IsSlot(k, l)
      modifies ownerOf.Keys
      ensures Snapshot() == PairStep(old(Snapshot()), i, j, k, l)
    {
      var bullet1 := tanks[i].bullets[j];
      var bullet2 := tanks[k].bullets[l];
      ghost var a := Snapshot();
      assert a.shots[i][j] == bullet1.State() && a.shots[k][l] == bullet2.State();
      if !bullet2.inFlight {
        return;
      }
      if bullet1 == bullet2 {
        assert i == k && j == l;
        return;
      }
      var collision :=
        bullet1.pos.x < bullet2.pos.x + BULLET_SIZE &&
        bullet1.pos.x + BULLET_SIZE > bullet2.pos.x &&
        bullet1.pos.y < bullet2.pos.y + BULLET_SIZE &&
        bullet1.pos.y + BULLET_SIZE > bullet2.pos.y;
      assert collision == BulletsCollide(a.shots[i][j].pos, a.shots[k][l].pos);
      if collision {
        ExplodeShotAt(i, j);
        ExplodeShotAt(k, l);
      }
    }

    /** Bullet (i, j) against tank k of the tank loop. */
    method CheckTank(i: int, j: int, k: int)
      requires Owns() && IsSlot(i, j) && 0 <= k < |tanks|
      modifies tankObjects, ownerOf.Keys
      ensures Snapshot() == TankStep(old(Snapshot()), i, j, k)
    {
      var bullet1 := tanks[i].bullets[j];
      ghost var a := Snapshot();
      assert a.shots[i][j] == bullet1.State() && a.tanks[k] == tanks[k].State();
      if tanks[i] == tanks[k] && bullet1.numRicochets == 0 {
        assert i == k;
        return;
      }
      assert !(i == k && a.shots[i][j].numRicochets == 0);
      if !tanks[k].alive {
        return;
      }
      var tankPos := tanks[k].OffsetPosition();
      var collision :=
        bullet1.pos.x < tankPos.x + TANK_SIZE &&
        bullet1.pos.x + BULLET_SIZE > tankPos.x &&
        bullet1.pos.y < tankPos.y + TANK_SIZE &&
        bullet1.pos.y + BULLET_SIZE > tankPos.y;
      assert collision == HitsTank(a.shots[i][j].pos, a.tanks[k].pos);
      if collision {
        ExplodeShotAt(i, j);
        KillTankAt(k);
      }
    }

    /** One turn of the outer loops: bullet (i, j) against every bullet, then every tank. */
    method CheckBullet(i: int, j: int)
      requires Owns() && IsSlot(i, j)
      modifies tankObjects, ownerOf.Keys
      ensures Snapshot() == BulletTurn(old(Snapshot()), i, j)
    {
      if !tanks[i].bullets[j].inFlight {
        return;
      }
      ghost var a := Snapshot();
      CheckAgainstBullets(i, j);
      PairsFromFrozen(a, i, j, 0, 0);
      FrozenShot(a, Snapshot(), i, j);
      CheckAgainstTanks(i, j);
    }

    /** The pair loops of bullet (i, j). */
    method CheckAgainstBullets(i: int, j: int)
      requires Owns() && IsSlot(i, j)
      modifies ownerOf.Keys
      ensures Snapshot() == PairsFrom(old(Snapshot()), i, j, 0, 0)
    {
      ghost var a0 := Snapshot();
      var k := 0;
      while k < |tanks|
        invariant 0 <= k <= |tanks|
        invariant PairsFrom(Snapshot(), i, j, k, 0) == PairsFrom(a0, i, j, 0, 0)
      {
        CheckAgainstPool(i, j, k);
        k := k + 1;
      }
    }

    /** The inner pair loop: bullet (i, j) against every bullet of tank k. */
    method CheckAgainstPool(i: int, j: int, k: int)
      requires Owns() && IsSlot(i, j) && 0 <= k < |tanks|
      modifies ownerOf.Keys
      ensures PairsFrom(Snapshot(), i, j, k + 1, 0) == PairsFrom(old(Snapshot()), i, j, k, 0)
    {
      ghost var a0 := Snapshot();
      var l := 0;
      while l < |tanks[k].bullets|
        invariant 0 <= l <= |tanks[k].bullets|
        invariant PairsFrom(Snapshot(), i, j, k, l) == PairsFrom(a0, i, j, k, 0)
      {
        CheckPair(i, j, k, l);
        l := l + 1;
      }
    }

    /** The tank loop of bullet (i, j). */
    method CheckAgainstTanks(i: int, j: int)
      requires Owns() && IsSlot(i, j)
      modifies tankObjects, ownerOf.Keys
      ensures Snapshot() == TanksFrom(old(Snapshot()), i, j, 0)
    {
      ghost var a0 := Snapshot();
      var k := 0;
      while k < |tanks|
        invariant 0 <= k <= |tanks|
        invariant TanksFrom(Snapshot(), i, j, k) == TanksFrom(a0, i, j, 0)
      {
        CheckTank(i, j, k);
        k := k + 1;
      }
    }

    /**
     * The collision sweep: every bullet slot of every tank in order, each
     * in-flight bullet checked against all bullets and then all tanks.
     */
    method CheckForBulletCollision()
      requires Valid()
      modifies tankObjects, ownerOf.Keys
      ensures Valid()
      ensures Snapshot() == SweepAll(old(Snapshot()))
    {
      ghost var a0 := Snapshot();
      var i := 0;
      while i < |tanks|
        invariant 0 <= i <= |tanks|
        invariant SweepFrom(Snapshot(), i, 0) == SweepAll(a0)
      {
        CheckPool(i);
        i := i + 1;
      }
      SweepKeepsValid(a0);
    }

    /** The inner sweep loop: every bullet slot of tank i. */
    method CheckPool(i: int)
      requires Owns() && 0 <= i < |tanks|
      modifies tankObjects, ownerOf.Keys
      ensures SweepFrom(Snapshot(), i + 1, 0) == SweepFrom(old(Snapshot()), i, 0)
    {
      ghost var a0 := Snapshot();
      var j := 0;
      while j < |tanks[i].bullets|
        invariant 0 <= j <= |tanks[i].bullets|
        invariant SweepFrom(Snapshot(), i, j) == SweepFrom(a0, i, 0)
      {
        CheckBullet(i, j);
        j := j + 1;
      }
    }

    /*-----------------------------------------------------------------------
     * One tank at a time, for the input handlers and the frame
     *-----------------------------------------------------------------------*/

    /** Where each tank was built, in roster order. */
    function Spawns(): (r: seq<Position>)
      ensures |r| == |tanks| && forall k :: 0 <= k < |tanks| ==> r[k] == tanks[k].spawn
    {
      seq(|tanks|, k requires 0 <= k < |tanks| => tanks[k].spawn)
    }

    /** Tank k resets; nothing else changes. */
    method ResetTankAt(k: int)
      requires Owns() && 0 <= k < |tanks|
      modifies tanks[k]
      ensures Snapshot() == WithTank(old(Snapshot()), k, TankResetState(old(Snapshot()).tanks[k], Spawns()[k]))
    {
      tanks[k].Reset();
    }

    /**
     * Tank k moves towards d, validated against every tank of the stage
     * (itself excluded) and the barrier map; nothing else changes.
     */
    method MoveTankAt(k: int, d: Direction, acc: Accumulators)
      requires Owns() && 0 <= k < |tanks| && WellFormed(barriers)
      modifies tanks[k], acc
      ensures var m := MoveSpec(old(Snapshot()).tanks[k], old(acc.x), old(acc.y), d,
                                ArenaBoxes(old(Snapshot()), k), barriers);
        Snapshot() == WithTank(old(Snapshot()), k, m.state) && acc.x == m.accX && acc.y == m.accY
    {
      ghost var a := Snapshot();
      assert tanks[k].BoxesOf(tanks) == ArenaBoxes(a, k);
      tanks[k].Move(d, tanks, barriers, acc);
    }

    /** Tank k fires from its muzzle along its turret; nothing else changes. */
    method FireTankAt(k: int, muzzle: Position, unit: real -> Velocity)
      requires Owns() && 0 <= k < |tanks| && ArenaValid(Snapshot())
      requires CanLaunch(Snapshot(), k, muzzle)
      modifies tanks[k].bullets
      ensures Snapshot() == WithPool(old(Snapshot()), k, LaunchedPool(old(Snapshot()), k, muzzle, unit))
    {
      ghost var a := Snapshot();
      assert forall j :: 0 <= j < |tanks[k].bullets| ==> IsShot(a, k, j);
      tanks[k].Fire(muzzle, unit);
      assert forall m :: 0 <= m < |tanks| ==> tanks[m].State() == a.tanks[m];
      assert forall m :: 0 <= m < |tanks| && m != k ==> tanks[m].BulletStates() == a.shots[m];
    }

    /** Tank k aims its turret at a touch point (atan2 of its offset, in degrees); nothing else changes. */
    method TurnTurretAt(k: int, atanDegrees: real)
      requires Owns() && 0 <= k < |tanks|
      modifies tanks[k]
      ensures Snapshot() == WithTank(old(Snapshot()), k, old(Snapshot()).tanks[k].(turretAngle := TouchTurretAngle(atanDegrees)))
    {
      tanks[k].RotateTurretToward(atanDegrees);
    }

    /** Tank k's sprite update; nothing else changes. */
    method UpdateOamAt(k: int)
      requires Owns() && 0 <= k < |tanks|
      modifies tanks[k]
      ensures Snapshot() == WithTank(old(Snapshot()), k, OamState(old(Snapshot()).tanks[k]))
    {
      tanks[k].UpdateOam();
    }

    /**
     * Bullet (i, j) runs its frame; `effectFinished` says whether its effect
     * animation ends this frame. Nothing else changes.
     */
    method UpdateBulletAt(i: int, j: int, unit: real -> Velocity, effectFinished: bool)
      requires Owns() && IsSlot(i, j) && WellFormed(barriers)
      requires ValidState(Snapshot().shots[i][j])
      modifies tanks[i].bullets[j]
      ensures var a := old(Snapshot());
        Snapshot() == WithShot(a, i, j, UpdateSpec(a.shots[i][j], barriers, unit, effectFinished))
    {
      ghost var a := Snapshot();
      ghost var next := UpdateSpec(a.shots[i][j], barriers, unit, effectFinished);
      var b := tanks[i].bullets[j];
      b.UpdatePosition(barriers, unit, effectFinished);
      assert b.State() == next;
      assert forall m :: 0 <= m < |tanks| && m != i ==> tanks[m].BulletStates() == a.shots[m];
      assert tanks[i].BulletStates() == a.shots[i][j := next];
    }
  }
}
