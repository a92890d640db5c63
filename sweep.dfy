/**
 * The stage's collision sweep, on values. Every in-flight bullet, in the
 * order tank by tank and slot by slot, is checked against every other
 * in-flight bullet (both explode on an overlap) and then against every tank
 * (the bullet explodes and the tank dies on an overlap), skipping dead
 * tanks and skipping its own tank while it has not ricocheted yet.
 *
 * The functions below follow the four nested loops one step at a time; the
 * lemmas after them say what the whole sweep does.
 */
module Sweep {
  import opened Geometry
  import opened Bullets
  import opened TankDefs
  import opened Tanks

  /** Every tank of the stage and, per tank, its bullet pool. */
  datatype Arena = Arena(tanks: seq<TankState>, shots: seq<seq<BulletState>>)

  predicate Shaped(a: Arena)
  {
    |a.shots| == |a.tanks|
  }

  predicate SameShape(a: Arena, b: Arena)
  {
    |a.tanks| == |b.tanks| && |a.shots| == |b.shots| &&
    forall i :: 0 <= i < |a.shots| ==> |a.shots[i]| == |b.shots[i]|
  }

  predicate IsShot(a: Arena, i: int, j: int)
  {
    0 <= i < |a.shots| && 0 <= j < |a.shots[i]|
  }

  /** The sweep's box test, with strict comparisons on both axes. */
  function BoxHit(a: Position, aw: int, ah: int, b: Position, bw: int, bh: int): (r: bool)
    ensures r == Overlap(a, aw, ah, b, bw, bh)
  {
    a.x < b.x + bw && a.x + aw > b.x && a.y < b.y + bh && a.y + ah > b.y
  }

  /** Two bullets' 6 x 6 boxes, each at the bullet's raw position, overlap. */
  predicate BulletsCollide(p: Position, q: Position)
  {
    BoxHit(p, BULLET_SIZE, BULLET_SIZE, q, BULLET_SIZE, BULLET_SIZE)
  }

  /** A bullet's box overlaps a tank's 16 x 16 box, which starts at the tank's offset position. */
  predicate HitsTank(b: Position, t: Position)
  {
    BoxHit(b, BULLET_SIZE, BULLET_SIZE,
           Position(t.x - TILE_OFFSET, t.y - TILE_OFFSET), TANK_SIZE, TANK_SIZE)
  }

  lemma BulletsCollideSymmetric(p: Position, q: Position)
    ensures BulletsCollide(p, q) == BulletsCollide(q, p)
  {
  }

  function ExplodeShot(a: Arena, i: int, j: int): (r: Arena)
    requires IsShot(a, i, j)
    ensures SameShape(a, r)
  {
    a.(shots := a.shots[i := a.shots[i][j := ExplodeState(a.shots[i][j])]])
  }

  function KillTank(a: Arena, k: int): (r: Arena)
    requires 0 <= k < |a.tanks|
    ensures SameShape(a, r)
  {
    a.(tanks := a.tanks[k := ExplodeTankState(a.tanks[k])])
  }

  /*-------------------------------------------------------------------------
   * The loops, one step at a time
   *-------------------------------------------------------------------------*/

  /** Bullet (i, j) against bullet (k, l): an idle bullet or the bullet itself is skipped. */
  function PairStep(a: Arena, i: int, j: int, k: int, l: int): (r: Arena)
    requires IsShot(a, i, j) && IsShot(a, k, l)
    ensures SameShape(a, r)
  {
    var b1 := a.shots[i][j];
    var b2 := a.shots[k][l];
    if !b2.inFlight then a
    else if i == k && j == l then a
    else if BulletsCollide(b1.pos, b2.pos) then ExplodeShot(ExplodeShot(a, i, j), k, l)
    else a
  }

  /** The bullet-pair loops from tank k, slot l on. */
  function PairsFrom(a: Arena, i: int, j: int, k: nat, l: nat): (r: Arena)
    requires Shaped(a) && IsShot(a, i, j)
    decreases |a.tanks| - k, if k < |a.shots| then |a.shots[k]| - l else 0
    ensures SameShape(a, r)
  {
    if k >= |a.tanks| then a
    else if l >= |a.shots[k]| then PairsFrom(a, i, j, k + 1, 0)
    else PairsFrom(PairStep(a, i, j, k, l), i, j, k, l + 1)
  }

  /**
   * Bullet (i, j) against tank k: skipped when k is the bullet's own tank
   * and the bullet has not ricocheted, and when the tank is dead.
   */
  function TankStep(a: Arena, i: int, j: int, k: int): (r: Arena)
    requires Shaped(a) && IsShot(a, i, j) && 0 <= k < |a.tanks|
    ensures SameShape(a, r)
  {
    var b1 := a.shots[i][j];
    if i == k && b1.numRicochets == 0 then a
    else if !a.tanks[k].alive then a
    else if HitsTank(b1.pos, a.tanks[k].pos) then KillTank(ExplodeShot(a, i, j), k)
    else a
  }

  /** The tank loop from tank k on. */
  function TanksFrom(a: Arena, i: int, j: int, k: nat): (r: Arena)
    requires Shaped(a) && IsShot(a, i, j)
    decreases |a.tanks| - k
    ensures SameShape(a, r)
  {
    if k >= |a.tanks| then a
    else TanksFrom(TankStep(a, i, j, k), i, j, k + 1)
  }

  /** One turn of the outer loops: bullet (i, j), if it is in flight. */
  function BulletTurn(a: Arena, i: int, j: int): (r: Arena)
    requires Shaped(a) && IsShot(a, i, j)
    ensures SameShape(a, r)
  {
    if !a.shots[i][j].inFlight then a
    else TanksFrom(PairsFrom(a, i, j, 0, 0), i, j, 0)
  }

  /** The outer loops from tank i, slot j on. */
  function SweepFrom(a: Arena, i: nat, j: nat): (r: Arena)
    requires Shaped(a)
    decreases |a.tanks| - i, if i < |a.shots| then |a.shots[i]| - j else 0
    ensures SameShape(a, r)
  {
    if i >= |a.tanks| then a
    else if j >= |a.shots[i]| then SweepFrom(a, i + 1, 0)
    else SweepFrom(BulletTurn(a, i, j), i, j + 1)
  }

  /** The whole sweep. */
  function SweepAll(a: Arena): (r: Arena)
    requires Shaped(a)
    ensures SameShape(a, r)
  {
    SweepFrom(a, 0, 0)
  }

  /*-------------------------------------------------------------------------
   * What the sweep may change
   *-------------------------------------------------------------------------*/

  /**
   * b is a moment of the sweep that started from a: the only changes are
   * explosions, of bullets in flight and of tanks alive in a.
   */
  ghost predicate Frozen(a: Arena, b: Arena)
  {
    SameShape(a, b) &&
    (forall i, j :: IsShot(a, i, j) ==>
       b.shots[i][j] == a.shots[i][j] ||
       (a.shots[i][j].inFlight && b.shots[i][j] == ExplodeState(a.shots[i][j]))) &&
    (forall k :: 0 <= k < |a.tanks| ==>
       b.tanks[k] == a.tanks[k] ||
       (a.tanks[k].alive && b.tanks[k] == ExplodeTankState(a.tanks[k])))
  }

  lemma FrozenTrans(a: Arena, b: Arena, c: Arena)
    requires Frozen(a, b) && Frozen(b, c)
    ensures Frozen(a, c)
  {
  }

  lemma FrozenRefl(a: Arena)
    ensures Frozen(a, a)
  {
  }

  lemma PairStepFrozen(a: Arena, i: int, j: int, k: int, l: int)
    requires IsShot(a, i, j) && IsShot(a, k, l) && a.shots[i][j].inFlight
    ensures Frozen(a, PairStep(a, i, j, k, l))
  {
  }

  lemma TankStepFrozen(a: Arena, i: int, j: int, k: int)
    requires Shaped(a) && IsShot(a, i, j) && 0 <= k < |a.tanks| && a.shots[i][j].inFlight
    ensures Frozen(a, TankStep(a, i, j, k))
  {
  }

  lemma {:induction false} PairsFromFrozen(a: Arena, i: int, j: int, k: nat, l: nat)
    requires Shaped(a) && IsShot(a, i, j) && a.shots[i][j].inFlight
    decreases |a.tanks| - k, if k < |a.shots| then |a.shots[k]| - l else 0
    ensures Frozen(a, PairsFrom(a, i, j, k, l))
  {
    if k >= |a.tanks| {
      FrozenRefl(a);
    } else if l >= |a.shots[k]| {
      PairsFromFrozen(a, i, j, k + 1, 0);
    } else {
      var a1 := PairStep(a, i, j, k, l);
      PairStepFrozen(a, i, j, k, l);
      PairsFromFrozen(a1, i, j, k, l + 1);
      FrozenTrans(a, a1, PairsFrom(a1, i, j, k, l + 1));
    }
  }

  lemma {:induction false} TanksFromFrozen(a: Arena, i: int, j: int, k: nat)
    requires Shaped(a) && IsShot(a, i, j) && a.shots[i][j].inFlight
    decreases |a.tanks| - k
    ensures Frozen(a, TanksFrom(a, i, j, k))
  {
    if k >= |a.tanks| {
      FrozenRefl(a);
    } else {
      var a1 := TankStep(a, i, j, k);
      TankStepFrozen(a, i, j, k);
      TanksFromFrozen(a1, i, j, k + 1);
      FrozenTrans(a, a1, TanksFrom(a1, i, j, k + 1));
    }
  }

  lemma BulletTurnFrozen(a: Arena, i: int, j: int)
    requires Shaped(a) && IsShot(a, i, j)
    ensures Frozen(a, BulletTurn(a, i, j))
  {
    if !a.shots[i][j].inFlight {
      FrozenRefl(a);
    } else {
      var a1 := PairsFrom(a, i, j, 0, 0);
      PairsFromFrozen(a, i, j, 0, 0);
      TanksFromFrozen(a1, i, j, 0);
      FrozenTrans(a, a1, TanksFrom(a1, i, j, 0));
    }
  }

  lemma {:induction false} SweepFromFrozen(a: Arena, i: nat, j: nat)
    requires Shaped(a)
    decreases |a.tanks| - i, if i < |a.shots| then |a.shots[i]| - j else 0
    ensures Frozen(a, SweepFrom(a, i, j))
  {
    if i >= |a.tanks| {
      FrozenRefl(a);
    } else if j >= |a.shots[i]| {
      SweepFromFrozen(a, i + 1, 0);
    } else {
      var a1 := BulletTurn(a, i, j);
      BulletTurnFrozen(a, i, j);
      SweepFromFrozen(a1, i, j + 1);
      FrozenTrans(a, a1, SweepFrom(a1, i, j + 1));
    }
  }

  /**
   * The sweep only makes things explode: positions, flight, ricochet
   * counts and headings of every bullet and the positions of every tank
   * stay as they were; idle bullets and dead tanks are not touched at all;
   * a bullet or tank that changes has exactly been exploded.
   */
  lemma SweepOnlyExplodes(a: Arena)
    requires Shaped(a)
    ensures var r := SweepAll(a);
      SameShape(a, r) &&
      (forall i, j :: IsShot(a, i, j) ==>
         r.shots[i][j] == a.shots[i][j] ||
         (a.shots[i][j].inFlight && r.shots[i][j] == ExplodeState(a.shots[i][j]))) &&
      (forall k :: 0 <= k < |a.tanks| ==>
         r.tanks[k] == a.tanks[k] ||
         (a.tanks[k].alive && r.tanks[k] == ExplodeTankState(a.tanks[k])))
  {
    SweepFromFrozen(a, 0, 0);
  }

  /*-------------------------------------------------------------------------
   * Which tanks die
   *-------------------------------------------------------------------------*/

  /**
   * Bullet (i, j) can destroy tank k: it is in flight, it is not on its own
   * tank before a first ricochet, and its box overlaps the tank's.
   */
  predicate Eligible(a: Arena, i: int, j: int, k: int)
    requires IsShot(a, i, j) && 0 <= k < |a.tanks|
  {
    var b := a.shots[i][j];
    b.inFlight && !(i == k && b.numRicochets == 0) && HitsTank(b.pos, a.tanks[k].pos)
  }

  /** Slot (i1, j1) comes before slot (i2, j2) in the sweep's order. */
  predicate Before(i1: int, j1: int, i2: int, j2: int)
  {
    i1 < i2 || (i1 == i2 && j1 < j2)
  }

  /** Some bullet from slot (i, j) on in the sweep's order can destroy tank k. */
  ghost predicate HitFrom(a: Arena, k: int, i: int, j: int)
    requires 0 <= k < |a.tanks|
  {
    exists x, y :: IsShot(a, x, y) && !Before(x, y, i, j) && Eligible(a, x, y, k)
  }

  lemma FrozenEligible(a: Arena, b: Arena)
    requires Frozen(a, b)
    ensures forall i, j, k :: IsShot(a, i, j) && 0 <= k < |a.tanks| ==>
      Eligible(b, i, j, k) == Eligible(a, i, j, k)
  {
  }

  lemma TankStepKills(a: Arena, i: int, j: int, k: int)
    requires Shaped(a) && IsShot(a, i, j) && 0 <= k < |a.tanks| && a.shots[i][j].inFlight
    ensures var r := TankStep(a, i, j, k);
      r.tanks[k].alive == (a.tanks[k].alive && !Eligible(a, i, j, k)) &&
      forall m :: 0 <= m < |a.tanks| && m != k ==> r.tanks[m] == a.tanks[m]
  {
  }

  lemma {:induction false} TanksFromKills(a: Arena, i: int, j: int, k: nat)
    requires Shaped(a) && IsShot(a, i, j) && a.shots[i][j].inFlight
    decreases |a.tanks| - k
    ensures var r := TanksFrom(a, i, j, k);
      forall m :: 0 <= m < |a.tanks| ==>
        r.tanks[m].alive == (a.tanks[m].alive && !(m >= k && Eligible(a, i, j, m)))
  {
    if k < |a.tanks| {
      var a1 := TankStep(a, i, j, k);
      TankStepKills(a, i, j, k);
      TankStepFrozen(a, i, j, k);
      FrozenEligible(a, a1);
      TanksFromKills(a1, i, j, k + 1);
    }
  }

  lemma {:induction false} PairsFromKeepsTanks(a: Arena, i: int, j: int, k: nat, l: nat)
    requires Shaped(a) && IsShot(a, i, j)
    decreases |a.tanks| - k, if k < |a.shots| then |a.shots[k]| - l else 0
    ensures PairsFrom(a, i, j, k, l).tanks == a.tanks
  {
    if k < |a.tanks| {
      if l >= |a.shots[k]| {
        PairsFromKeepsTanks(a, i, j, k + 1, 0);
      } else {
        PairsFromKeepsTanks(PairStep(a, i, j, k, l), i, j, k, l + 1);
      }
    }
  }

  lemma BulletTurnKills(a: Arena, i: int, j: int)
    requires Shaped(a) && IsShot(a, i, j)
    ensures var r := BulletTurn(a, i, j);
      forall m :: 0 <= m < |a.tanks| ==> r.tanks[m].alive == (a.tanks[m].alive && !Eligible(a, i, j, m))
  {
    if a.shots[i][j].inFlight {
      var a1 := PairsFrom(a, i, j, 0, 0);
      PairsFromKeepsTanks(a, i, j, 0, 0);
      PairsFromFrozen(a, i, j, 0, 0);
      FrozenEligible(a, a1);
      TanksFromKills(a1, i, j, 0);
    }
  }

  lemma HitFromSplit(a: Arena, k: int, i: int, j: int)
    requires Shaped(a) && IsShot(a, i, j) && 0 <= k < |a.tanks|
    ensures HitFrom(a, k, i, j) == (Eligible(a, i, j, k) || HitFrom(a, k, i, j + 1))
  {
    if HitFrom(a, k, i, j) {
      var x, y :| IsShot(a, x, y) && !Before(x, y, i, j) && Eligible(a, x, y, k);
      if !(x == i && y == j) {
        assert !Before(x, y, i, j + 1);
      }
    }
    if HitFrom(a, k, i, j + 1) {
      var x, y :| IsShot(a, x, y) && !Before(x, y, i, j + 1) && Eligible(a, x, y, k);
      assert !Before(x, y, i, j);
    }
  }

  lemma HitFromNextRow(a: Arena, k: int, i: int, j: int)
    requires Shaped(a) && 0 <= i < |a.tanks| && j >= |a.shots[i]| && 0 <= k < |a.tanks|
    ensures HitFrom(a, k, i, j) == HitFrom(a, k, i + 1, 0)
  {
    if HitFrom(a, k, i, j) {
      var x, y :| IsShot(a, x, y) && !Before(x, y, i, j) && Eligible(a, x, y, k);
      assert !Before(x, y, i + 1, 0);
    }
    if HitFrom(a, k, i + 1, 0) {
      var x, y :| IsShot(a, x, y) && !Before(x, y, i + 1, 0) && Eligible(a, x, y, k);
      assert !Before(x, y, i, j);
    }
  }

  lemma HitFromFrozen(a: Arena, b: Arena, k: int, i: int, j: int)
    requires Frozen(a, b) && 0 <= k < |a.tanks|
    ensures HitFrom(a, k, i, j) == HitFrom(b, k, i, j)
  {
    FrozenEligible(a, b);
    if HitFrom(a, k, i, j) {
      var x, y :| IsShot(a, x, y) && !Before(x, y, i, j) && Eligible(a, x, y, k);
      assert IsShot(b, x, y) && Eligible(b, x, y, k);
    }
    if HitFrom(b, k, i, j) {
      var x, y :| IsShot(b, x, y) && !Before(x, y, i, j) && Eligible(b, x, y, k);
      assert IsShot(a, x, y) && Eligible(a, x, y, k);
    }
  }

  lemma {:induction false} SweepFromKills(a: Arena, i: nat, j: nat, k: int)
    requires Shaped(a) && 0 <= k < |a.tanks|
    decreases |a.tanks| - i, if i < |a.shots| then |a.shots[i]| - j else 0
    ensures SweepFrom(a, i, j).tanks[k].alive == (a.tanks[k].alive && !HitFrom(a, k, i, j))
  {
    if i >= |a.tanks| {
      assert !HitFrom(a, k, i, j);
    } else if j >= |a.shots[i]| {
      HitFromNextRow(a, k, i, j);
      SweepFromKills(a, i + 1, 0, k);
    } else {
      var a1 := BulletTurn(a, i, j);
      BulletTurnKills(a, i, j);
      BulletTurnFrozen(a, i, j);
      HitFromSplit(a, k, i, j);
      HitFromFrozen(a, a1, k, i, j + 1);
      SweepFromKills(a1, i, j + 1, k);
    }
  }

  /**
   * A tank is alive after the sweep exactly when it was alive before and
   * no in-flight bullet overlaps it, leaving out its own bullets that have
   * not ricocheted yet.
   */
  lemma SweepKills(a: Arena, k: int)
    requires Shaped(a) && 0 <= k < |a.tanks|
    ensures SweepAll(a).tanks[k].alive <==>
      a.tanks[k].alive && !exists i, j :: IsShot(a, i, j) && Eligible(a, i, j, k)
  {
    SweepFromKills(a, 0, 0, k);
    if HitFrom(a, k, 0, 0) {
      var x, y :| IsShot(a, x, y) && !Before(x, y, 0, 0) && Eligible(a, x, y, k);
    }
    if exists i, j :: IsShot(a, i, j) && Eligible(a, i, j, k) {
      var x, y :| IsShot(a, x, y) && Eligible(a, x, y, k);
      assert !Before(x, y, 0, 0);
    }
  }

  /*-------------------------------------------------------------------------
   * Which bullets explode
   *-------------------------------------------------------------------------*/

  /** What a moment of the sweep keeps of one bullet slot. */
  lemma FrozenShot(a: Arena, b: Arena, x: int, y: int)
    requires Frozen(a, b) && IsShot(a, x, y)
    ensures IsShot(b, x, y)
    ensures b.shots[x][y].pos == a.shots[x][y].pos
    ensures b.shots[x][y].inFlight == a.shots[x][y].inFlight
    ensures a.shots[x][y].hasExploded ==> b.shots[x][y].hasExploded
  {
  }

  /** Two distinct in-flight bullets whose boxes overlap. */
  predicate Partners(a: Arena, x: int, y: int, k: int, l: int)
  {
    IsShot(a, x, y) && IsShot(a, k, l) && !(x == k && y == l) &&
    a.shots[x][y].inFlight && a.shots[k][l].inFlight &&
    BulletsCollide(a.shots[x][y].pos, a.shots[k][l].pos)
  }

  lemma FrozenPartners(a: Arena, b: Arena, x: int, y: int, k: int, l: int)
    requires Frozen(a, b) && IsShot(a, x, y) && IsShot(a, k, l)
    ensures Partners(b, x, y, k, l) == Partners(a, x, y, k, l)
  {
    FrozenShot(a, b, x, y);
    FrozenShot(a, b, k, l);
  }

  lemma {:induction false} PairsFromExplodes(a: Arena, i: int, j: int, k0: nat, l0: nat, k: int, l: int)
    requires Shaped(a) && IsShot(a, i, j) && Partners(a, i, j, k, l) && !Before(k, l, k0, l0)
    decreases |a.tanks| - k0, if k0 < |a.shots| then |a.shots[k0]| - l0 else 0
    ensures PairsFrom(a, i, j, k0, l0).shots[i][j].hasExploded
    ensures PairsFrom(a, i, j, k0, l0).shots[k][l].hasExploded
  {
    if k0 >= |a.tanks| {
      assert false;
    } else if l0 >= |a.shots[k0]| {
      PairsFromExplodes(a, i, j, k0 + 1, 0, k, l);
    } else {
      var a1 := PairStep(a, i, j, k0, l0);
      var r := PairsFrom(a1, i, j, k0, l0 + 1);
      PairStepFrozen(a, i, j, k0, l0);
      PairsFromFrozen(a1, i, j, k0, l0 + 1);
      if k == k0 && l == l0 {
        FrozenShot(a1, r, i, j);
        FrozenShot(a1, r, k, l);
      } else {
        FrozenPartners(a, a1, i, j, k, l);
        PairsFromExplodes(a1, i, j, k0, l0 + 1, k, l);
      }
    }
  }

  lemma {:induction false} SweepFromExplodesPair(a: Arena, i: nat, j: nat, x: int, y: int, k: int, l: int)
    requires Shaped(a) && Partners(a, x, y, k, l) && !Before(x, y, i, j)
    decreases |a.tanks| - i, if i < |a.shots| then |a.shots[i]| - j else 0
    ensures SweepFrom(a, i, j).shots[x][y].hasExploded
    ensures SweepFrom(a, i, j).shots[k][l].hasExploded
  {
    if i >= |a.tanks| {
      assert false;
    } else if j >= |a.shots[i]| {
      SweepFromExplodesPair(a, i + 1, 0, x, y, k, l);
    } else {
      var a1 := BulletTurn(a, i, j);
      var r := SweepFrom(a1, i, j + 1);
      assert SweepFrom(a, i, j) == r;
      BulletTurnFrozen(a, i, j);
      if x == i && y == j {
        TurnExplodesPair(a, i, j, k, l);
        SweepFromFrozen(a1, i, j + 1);
        FrozenShot(a1, r, x, y);
        FrozenShot(a1, r, k, l);
      } else {
        FrozenPartners(a, a1, x, y, k, l);
        SweepFromExplodesPair(a1, i, j + 1, x, y, k, l);
      }
    }
  }

  /** On a bullet's turn, it and each partner it has explode. */
  lemma TurnExplodesPair(a: Arena, i: int, j: int, k: int, l: int)
    requires Shaped(a) && Partners(a, i, j, k, l)
    ensures BulletTurn(a, i, j).shots[i][j].hasExploded
    ensures BulletTurn(a, i, j).shots[k][l].hasExploded
  {
    var p := PairsFrom(a, i, j, 0, 0);
    PairsFromExplodes(a, i, j, 0, 0, k, l);
    PairsFromFrozen(a, i, j, 0, 0);
    FrozenShot(a, p, i, j);
    TanksFromFrozen(p, i, j, 0);
    FrozenShot(p, BulletTurn(a, i, j), i, j);
    FrozenShot(p, BulletTurn(a, i, j), k, l);
  }

  /** Two distinct in-flight bullets whose boxes overlap both explode. */
  lemma SweepExplodesPartners(a: Arena, x: int, y: int, k: int, l: int)
    requires Shaped(a) && Partners(a, x, y, k, l)
    ensures SweepAll(a).shots[x][y].hasExploded && SweepAll(a).shots[k][l].hasExploded
  {
    SweepFromExplodesPair(a, 0, 0, x, y, k, l);
  }

  lemma {:induction false} TanksFromHits(a: Arena, i: int, j: int, k0: nat, k: int)
    requires Shaped(a) && IsShot(a, i, j) && k0 <= k < |a.tanks|
    requires Eligible(a, i, j, k) && a.tanks[k].alive
    decreases |a.tanks| - k0
    ensures TanksFrom(a, i, j, k0).shots[i][j].hasExploded
  {
    var a1 := TankStep(a, i, j, k0);
    var r := TanksFrom(a1, i, j, k0 + 1);
    TankStepKills(a, i, j, k0);
    TankStepFrozen(a, i, j, k0);
    if k0 == k {
      TanksFromFrozen(a1, i, j, k0 + 1);
      FrozenShot(a1, r, i, j);
    } else {
      FrozenEligible(a, a1);
      TanksFromHits(a1, i, j, k0 + 1, k);
    }
  }

  lemma {:induction false} SweepFromHits(a: Arena, i: nat, j: nat, x: int, y: int, k: int)
    requires Shaped(a) && IsShot(a, x, y) && !Before(x, y, i, j) && 0 <= k < |a.tanks|
    requires Eligible(a, x, y, k) && a.tanks[k].alive
    requires forall u, v :: IsShot(a, u, v) && !Before(u, v, i, j) && Before(u, v, x, y) ==>
      !Eligible(a, u, v, k)
    decreases |a.tanks| - i, if i < |a.shots| then |a.shots[i]| - j else 0
    ensures SweepFrom(a, i, j).shots[x][y].hasExploded
  {
    if i >= |a.tanks| {
      assert false;
    } else if j >= |a.shots[i]| {
      SweepFromHits(a, i + 1, 0, x, y, k);
    } else {
      var a1 := BulletTurn(a, i, j);
      var r := SweepFrom(a1, i, j + 1);
      BulletTurnFrozen(a, i, j);
      SweepFromFrozen(a1, i, j + 1);
      if x == i && y == j {
        TurnHits(a, i, j, k);
        FrozenShot(a1, r, x, y);
      } else {
        HitsStep(a, i, j, x, y, k);
        SweepFromHits(a1, i, j + 1, x, y, k);
      }
    }
  }

  /** A bullet that can destroy a live tank explodes on its own turn. */
  lemma TurnHits(a: Arena, i: int, j: int, k: int)
    requires Shaped(a) && IsShot(a, i, j) && 0 <= k < |a.tanks|
    requires Eligible(a, i, j, k) && a.tanks[k].alive
    ensures BulletTurn(a, i, j).shots[i][j].hasExploded
  {
    var p := PairsFrom(a, i, j, 0, 0);
    PairsFromFrozen(a, i, j, 0, 0);
    PairsFromKeepsTanks(a, i, j, 0, 0);
    FrozenEligible(a, p);
    TanksFromHits(p, i, j, 0, k);
  }

  /** The turn of a bullet before (x, y) keeps (x, y) the first hit on tank k. */
  lemma HitsStep(a: Arena, i: int, j: int, x: int, y: int, k: int)
    requires Shaped(a) && IsShot(a, i, j) && IsShot(a, x, y) && !(x == i && y == j)
    requires !Before(x, y, i, j) && 0 <= k < |a.tanks|
    requires Eligible(a, x, y, k) && a.tanks[k].alive
    requires forall u, v :: IsShot(a, u, v) && !Before(u, v, i, j) && Before(u, v, x, y) ==>
      !Eligible(a, u, v, k)
    ensures var a1 := BulletTurn(a, i, j);
      Shaped(a1) && IsShot(a1, x, y) && !Before(x, y, i, j + 1) &&
      Eligible(a1, x, y, k) && a1.tanks[k].alive &&
      forall u, v :: IsShot(a1, u, v) && !Before(u, v, i, j + 1) && Before(u, v, x, y) ==>
        !Eligible(a1, u, v, k)
  {
    var a1 := BulletTurn(a, i, j);
    BulletTurnFrozen(a, i, j);
    BulletTurnKills(a, i, j);
    FrozenEligible(a, a1);
    FrozenShot(a, a1, x, y);
  }

  /**
   * For every tank alive before the sweep, the first bullet in the sweep's
   * order that can destroy it does explode.
   */
  lemma SweepExplodesFirstHit(a: Arena, x: int, y: int, k: int)
    requires Shaped(a) && IsShot(a, x, y) && 0 <= k < |a.tanks|
    requires Eligible(a, x, y, k) && a.tanks[k].alive
    requires forall u, v :: IsShot(a, u, v) && Before(u, v, x, y) ==> !Eligible(a, u, v, k)
    ensures SweepAll(a).shots[x][y].hasExploded
  {
    SweepFromHits(a, 0, 0, x, y, k);
  }

  /** Bullet (x, y) has a partner bullet to collide with. */
  ghost predicate HasPartner(a: Arena, x: int, y: int)
  {
    exists k, l :: Partners(a, x, y, k, l)
  }

  /** Bullet (x, y) can destroy a tank that is alive. */
  ghost predicate HasTarget(a: Arena, x: int, y: int)
    requires IsShot(a, x, y)
  {
    exists k :: 0 <= k < |a.tanks| && a.tanks[k].alive && Eligible(a, x, y, k)
  }

  lemma FrozenHasPartner(a: Arena, b: Arena, x: int, y: int)
    requires Frozen(a, b) && IsShot(a, x, y) && HasPartner(b, x, y)
    ensures HasPartner(a, x, y)
  {
    var k, l :| Partners(b, x, y, k, l);
    FrozenPartners(a, b, x, y, k, l);
  }

  lemma FrozenHasTarget(a: Arena, b: Arena, x: int, y: int)
    requires Frozen(a, b) && IsShot(a, x, y) && HasTarget(b, x, y)
    ensures HasTarget(a, x, y)
  {
    var k :| 0 <= k < |b.tanks| && b.tanks[k].alive && Eligible(b, x, y, k);
    FrozenEligible(a, b);
    assert a.tanks[k].alive && Eligible(a, x, y, k);
  }

  lemma {:induction false} PairsFromSound(a: Arena, i: int, j: int, k0: nat, l0: nat, x: int, y: int)
    requires Shaped(a) && IsShot(a, i, j) && IsShot(a, x, y) && a.shots[i][j].inFlight
    requires PairsFrom(a, i, j, k0, l0).shots[x][y] != a.shots[x][y]
    decreases |a.tanks| - k0, if k0 < |a.shots| then |a.shots[k0]| - l0 else 0
    ensures HasPartner(a, x, y)
  {
    if k0 >= |a.tanks| {
      assert false;
    } else if l0 >= |a.shots[k0]| {
      PairsFromSound(a, i, j, k0 + 1, 0, x, y);
    } else {
      var a1 := PairStep(a, i, j, k0, l0);
      PairStepFrozen(a, i, j, k0, l0);
      if a1.shots[x][y] != a.shots[x][y] {
        if x == i && y == j {
          assert Partners(a, x, y, k0, l0);
        } else {
          BulletsCollideSymmetric(a.shots[i][j].pos, a.shots[x][y].pos);
          assert Partners(a, x, y, i, j);
        }
      } else {
        PairsFromSound(a1, i, j, k0, l0 + 1, x, y);
        FrozenHasPartner(a, a1, x, y);
      }
    }
  }

  lemma {:induction false} TanksFromSound(a: Arena, i: int, j: int, k0: nat, x: int, y: int)
    requires Shaped(a) && IsShot(a, i, j) && IsShot(a, x, y) && a.shots[i][j].inFlight
    requires TanksFrom(a, i, j, k0).shots[x][y] != a.shots[x][y]
    decreases |a.tanks| - k0
    ensures x == i && y == j && HasTarget(a, x, y)
  {
    if k0 >= |a.tanks| {
      assert false;
    } else {
      var a1 := TankStep(a, i, j, k0);
      TankStepFrozen(a, i, j, k0);
      if a1.shots[x][y] != a.shots[x][y] {
        assert a.tanks[k0].alive && Eligible(a, x, y, k0);
      } else {
        TanksFromSound(a1, i, j, k0 + 1, x, y);
        FrozenHasTarget(a, a1, x, y);
      }
    }
  }

  lemma BulletTurnSound(a: Arena, i: int, j: int, x: int, y: int)
    requires Shaped(a) && IsShot(a, i, j) && IsShot(a, x, y)
    requires BulletTurn(a, i, j).shots[x][y] != a.shots[x][y]
    ensures HasPartner(a, x, y) || HasTarget(a, x, y)
  {
    var p := PairsFrom(a, i, j, 0, 0);
    PairsFromFrozen(a, i, j, 0, 0);
    if p.shots[x][y] != a.shots[x][y] {
      PairsFromSound(a, i, j, 0, 0, x, y);
    } else {
      TanksFromSound(p, i, j, 0, x, y);
      FrozenHasTarget(a, p, x, y);
    }
  }

  lemma {:induction false} SweepFromSound(a: Arena, i: nat, j: nat, x: int, y: int)
    requires Shaped(a) && IsShot(a, x, y)
    requires SweepFrom(a, i, j).shots[x][y] != a.shots[x][y]
    decreases |a.tanks| - i, if i < |a.shots| then |a.shots[i]| - j else 0
    ensures HasPartner(a, x, y) || HasTarget(a, x, y)
  {
    if i >= |a.tanks| {
      assert false;
    } else if j >= |a.shots[i]| {
      SweepFromSound(a, i + 1, 0, x, y);
    } else {
      var a1 := BulletTurn(a, i, j);
      BulletTurnFrozen(a, i, j);
      if a1.shots[x][y] != a.shots[x][y] {
        BulletTurnSound(a, i, j, x, y);
      } else {
        SweepFromSound(a1, i, j + 1, x, y);
        if HasPartner(a1, x, y) {
          FrozenHasPartner(a, a1, x, y);
        } else {
          FrozenHasTarget(a, a1, x, y);
        }
      }
    }
  }

  /**
   * A bullet the sweep explodes had a reason: an in-flight partner bullet
   * overlapping it, or a living tank it could destroy.
   */
  lemma SweepExplodesOnlyWithReason(a: Arena, x: int, y: int)
    requires Shaped(a) && IsShot(a, x, y)
    ensures SweepAll(a).shots[x][y] == a.shots[x][y] ||
      (SweepAll(a).shots[x][y] == ExplodeState(a.shots[x][y]) &&
       (HasPartner(a, x, y) || HasTarget(a, x, y)))
  {
    SweepFromFrozen(a, 0, 0);
    if SweepAll(a).shots[x][y] != a.shots[x][y] {
      SweepFromSound(a, 0, 0, x, y);
    }
  }

  /*-------------------------------------------------------------------------
   * The invariant the sweep keeps
   *-------------------------------------------------------------------------*/

  /** Every bullet state is valid and every tank's history counter and body angle are in range. */
  ghost predicate ArenaValid(a: Arena)
  {
    (forall i, j :: IsShot(a, i, j) ==> ValidState(a.shots[i][j])) &&
    (forall k :: 0 <= k < |a.tanks| ==>
       1 <= a.tanks[k].historyCounter <= HISTORY_CADENCE && WholeStepAngle(a.tanks[k].bodyAngle))
  }

  lemma FrozenKeepsValid(a: Arena, b: Arena)
    requires Frozen(a, b) && ArenaValid(a)
    ensures ArenaValid(b)
  {
    forall i, j | IsShot(b, i, j)
      ensures ValidState(b.shots[i][j])
    {
      assert IsShot(a, i, j);
    }
  }

  /** The sweep keeps every bullet and tank valid. */
  lemma SweepKeepsValid(a: Arena)
    requires Shaped(a) && ArenaValid(a)
    ensures ArenaValid(SweepAll(a))
  {
    SweepFromFrozen(a, 0, 0);
    FrozenKeepsValid(a, SweepAll(a));
  }
}
