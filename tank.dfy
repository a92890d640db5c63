/**
 * A tank of the arena: where it may stand (the three checks of its move
 * validation), the axis-by-axis move with its shared fractional
 * accumulators, the position history, the body rotation that eases towards
 * the facing direction, the bullet pool it fires from, and explode/reset.
 *
 * Things that need trigonometry are inputs: the turret angle (which the
 * source derives from the touch point with atan2), the muzzle offset (the
 * truncated 12*sin and 12*cos of that angle) and the `unit` heading-to-velocity
 * function of the bullets.
 */
module Tanks {
  import opened Geometry
  import opened TankDefs
  import opened Bullets

  /** The sprite tile offset: a tank's box starts 8 pixels up and left of its position. */
  const TILE_OFFSET: int := 8

  /** Calls of the history hook between two recorded entries. */
  const HISTORY_CADENCE: int := 3

  /** Per-frame advance of each axis on a diagonal move (1.0 on a straight one). */
  const DIAGONAL_STEP: real := 0.707

  /*-------------------------------------------------------------------------
   * Move validation
   *-------------------------------------------------------------------------*/

  /**
   * What the validation sees of one entry of the stage's tank list: its
   * position and size, and whether it is the tank doing the check (the
   * source compares the addresses of the two tanks).
   */
  datatype TankBox = TankBox(pos: Position, width: int, height: int, isSelf: bool)

  /** The two barrier codes that stop a tank: a wall (1) and a hole (2). */
  predicate BlocksTank(code: int)
  {
    code == 1 || code == 2
  }

  /** Pixel (px, py) is one of the four corner pixels of the w x h box at p. */
  predicate IsCorner(px: int, py: int, p: Position, w: int, h: int)
  {
    (px == p.x || px == p.x + w - 1) && (py == p.y || py == p.y + h - 1)
  }

  /**
   * The tank loop of the validation: walks the list in order, skips the
   * tank itself and fails at the first other tank whose box overlaps.
   * It holds exactly when no other listed tank, dead or alive, overlaps.
   */
  function NoTanksCollided(p: Position, w: int, h: int, boxes: seq<TankBox>): (r: bool)
    ensures r <==> forall i :: 0 <= i < |boxes| && !boxes[i].isSelf ==>
                      !Overlap(p, w, h, boxes[i].pos, boxes[i].width, boxes[i].height)
  {
    if boxes == [] then true
    else if boxes[0].isSelf then NoTanksCollided(p, w, h, boxes[1..])
    else if Overlap(p, w, h, boxes[0].pos, boxes[0].width, boxes[0].height) then false
    else NoTanksCollided(p, w, h, boxes[1..])
  }

  /**
   * The barrier test: a box reaching off screen counts as blocked; otherwise
   * the box is blocked when one of its four corner cells is a wall or a
   * hole. Cells with code 3 and cells inside the box never block.
   */
  function NoBarrierCollisions(p: Position, w: int, h: int, grid: Grid): (r: bool)
    requires WellFormed(grid) && w >= 1 && h >= 1
    ensures r ==> WithinBounds(p, w, h)
    ensures WithinBounds(p, w, h) && (forall px, py :: InBox(px, py, p, w, h) ==> !BlocksTank(grid[py][px]))
            ==> r
  {
    var x1 := p.x;
    var y1 := p.y;
    var x2 := p.x + w - 1;
    var y2 := p.y + h - 1;
    if x1 < 0 || y1 < 0 || x2 >= SCREEN_WIDTH || y2 >= SCREEN_HEIGHT then false
    else if grid[y1][x1] == 1 || grid[y1][x2] == 1 || grid[y2][x1] == 1 || grid[y2][x2] == 1 then false
    else if grid[y1][x1] == 2 || grid[y1][x2] == 2 || grid[y2][x1] == 2 || grid[y2][x2] == 2 then false
    else true
  }

  /** The conjunction the tank's validateMove returns. */
  function ValidMove(p: Position, w: int, h: int, boxes: seq<TankBox>, grid: Grid): (r: bool)
    requires WellFormed(grid) && w >= 1 && h >= 1
    ensures r ==> forall px, py :: InBox(px, py, p, w, h) ==> OnScreen(px, py)
    ensures r ==> forall i :: 0 <= i < |boxes| && !boxes[i].isSelf ==>
                    !Overlap(p, w, h, boxes[i].pos, boxes[i].width, boxes[i].height)
  {
    WithinBounds(p, w, h) && NoTanksCollided(p, w, h, boxes) && NoBarrierCollisions(p, w, h, grid)
  }

  /**
   * Pixel-level meaning of the validation for a 16 x 16 tank: every pixel of
   * its box is on screen, it shares no pixel with any other listed tank, and
   * none of its corner pixels lies on a wall or a hole.
   */
  lemma ValidMoveMeans(p: Position, boxes: seq<TankBox>, grid: Grid)
    requires WellFormed(grid)
    requires forall i :: 0 <= i < |boxes| ==> boxes[i].width >= 1 && boxes[i].height >= 1
    ensures ValidMove(p, TANK_SIZE, TANK_SIZE, boxes, grid) <==>
      (forall px, py :: InBox(px, py, p, TANK_SIZE, TANK_SIZE) ==> OnScreen(px, py)) &&
      (forall i, px, py :: 0 <= i < |boxes| && !boxes[i].isSelf ==>
         !(InBox(px, py, p, TANK_SIZE, TANK_SIZE) &&
           InBox(px, py, boxes[i].pos, boxes[i].width, boxes[i].height))) &&
      (forall px, py :: IsCorner(px, py, p, TANK_SIZE, TANK_SIZE) && OnScreen(px, py) ==>
         !BlocksTank(grid[py][px]))
  {
    var s := TANK_SIZE;
    if ValidMove(p, s, s, boxes, grid) {
      forall i, px, py | 0 <= i < |boxes| && !boxes[i].isSelf
        ensures !(InBox(px, py, p, s, s) && InBox(px, py, boxes[i].pos, boxes[i].width, boxes[i].height))
      {
        assert !Overlap(p, s, s, boxes[i].pos, boxes[i].width, boxes[i].height);
      }
    } else if WithinBounds(p, s, s) && !NoTanksCollided(p, s, s, boxes) {
      var i :| 0 <= i < |boxes| && !boxes[i].isSelf &&
        Overlap(p, s, s, boxes[i].pos, boxes[i].width, boxes[i].height);
      var px, py :| InBox(px, py, p, s, s) && InBox(px, py, boxes[i].pos, boxes[i].width, boxes[i].height);
    } else if WithinBounds(p, s, s) && NoTanksCollided(p, s, s, boxes) {
      var x2 := p.x + s - 1;
      var y2 := p.y + s - 1;
      if BlocksTank(grid[p.y][p.x]) {
        assert IsCorner(p.x, p.y, p, s, s);
      } else if BlocksTank(grid[p.y][x2]) {
        assert IsCorner(x2, p.y, p, s, s);
      } else if BlocksTank(grid[y2][p.x]) {
        assert IsCorner(p.x, y2, p, s, s);
      } else {
        assert IsCorner(x2, y2, p, s, s);
      }
    }
  }

  /** Two views of the tank list that agree on every tank other than the mover. */
  predicate SameOthers(b1: seq<TankBox>, b2: seq<TankBox>)
  {
    |b1| == |b2| &&
    forall i :: 0 <= i < |b1| ==> b1[i].isSelf == b2[i].isSelf && (!b1[i].isSelf ==> b1[i] == b2[i])
  }

  /** Where the mover itself stands never changes the verdict. */
  lemma SelfIsIgnored(p: Position, w: int, h: int, b1: seq<TankBox>, b2: seq<TankBox>, grid: Grid)
    requires WellFormed(grid) && w >= 1 && h >= 1 && SameOthers(b1, b2)
    ensures ValidMove(p, w, h, b1, grid) == ValidMove(p, w, h, b2, grid)
  {
    assert NoTanksCollided(p, w, h, b1) == NoTanksCollided(p, w, h, b2);
  }

  /*-------------------------------------------------------------------------
   * Tank state, position history
   *-------------------------------------------------------------------------*/

  /** One entry of the position history: where the tank was and where it faced. */
  datatype HistoryEntry = HistoryEntry(pos: Position, direction: Direction)

  /**
   * The fields of a tank as one value. `pos` is the shared position of the
   * body, turret and explosion sprites; the angles are the body and turret
   * sprites' rotation angles; the three flags are the sprites' hide flags.
   */
  datatype TankState = TankState(
    pos: Position,
    alive: bool,
    direction: Direction,
    bodyAngle: int,
    turretAngle: real,
    bodyHidden: bool,
    turretHidden: bool,
    explosionHidden: bool,
    history: seq<HistoryEntry>,
    historyCounter: int)

  /**
   * The history hook run by every position change: once the counter has
   * reached 3 it records the (new) position and the facing direction and
   * starts counting again.
   */
  function AddHistory(t: TankState): (r: TankState)
    ensures r == t.(history := r.history, historyCounter := r.historyCounter)
    ensures t.history <= r.history && |r.history| <= |t.history| + 1
    ensures |r.history| == |t.history| + 1 <==> t.historyCounter >= HISTORY_CADENCE
    ensures |r.history| == |t.history| + 1 ==>
              r.history[|t.history|] == HistoryEntry(t.pos, t.direction) && r.historyCounter == 1
  {
    if t.historyCounter >= HISTORY_CADENCE then
      t.(history := t.history + [HistoryEntry(t.pos, t.direction)], historyCounter := 1)
    else
      t.(historyCounter := t.historyCounter + 1)
  }

  function SetPositionState(t: TankState, p: Position): TankState
  {
    AddHistory(t.(pos := p))
  }

  /** The history hook run n times in a row at the same position. */
  function AddHistoryN(t: TankState, n: nat): TankState
    decreases n
  {
    if n == 0 then t else AddHistoryN(AddHistory(t), n - 1)
  }

  /**
   * The cadence of the history: from a counter in [1, 3], n further calls
   * record (n + counter - 1) / 3 entries and leave the counter in [1, 3];
   * earlier entries are kept. A new tank has run the hook once (from the
   * counter's initial 0), so entries are recorded on the 4th, 7th, 10th...
   * call overall.
   */
  lemma {:induction false} HistoryCadence(t: TankState, n: nat)
    requires 1 <= t.historyCounter <= HISTORY_CADENCE
    decreases n
    ensures var r := AddHistoryN(t, n);
      |r.history| == |t.history| + (n + t.historyCounter - 1) / HISTORY_CADENCE &&
      r.historyCounter == (n + t.historyCounter - 1) % HISTORY_CADENCE + 1 &&
      t.history <= r.history
  {
    if n > 0 {
      var t1 := AddHistory(t);
      HistoryCadence(t1, n - 1);
      var m := n + t.historyCounter - 1;
      if t.historyCounter == HISTORY_CADENCE {
        ThirdsShift(m - 3);
      }
    }
  }

  lemma ThirdsShift(k: int)
    ensures (k + 3) / 3 == k / 3 + 1 && (k + 3) % 3 == k % 3
  {
  }

  /*-------------------------------------------------------------------------
   * Moving
   *-------------------------------------------------------------------------*/

  predicate IsDiagonal(d: Direction)
  {
    d == NE || d == SE || d == SW || d == NW
  }

  /** The per-call advance of each moving axis. */
  function Amount(d: Direction): real
  {
    if IsDiagonal(d) then DIAGONAL_STEP else 1.0
  }

  /** What one axis of a move does: the position and accumulator it leaves. */
  datatype AxisResult = AxisResult(pos: Position, acc: real, committed: bool)

  /**
   * One axis block of the move: add the advance to the accumulator, take
   * its truncation as the pixel count, and commit the candidate only if it
   * validates, keeping the remainder; a rejected candidate leaves the
   * accumulator as it was, and a zero pixel count just stores the sum.
   */
  function AxisMove(p: Position, axis: Axis, sign: int, acc: real, amount: real,
                    boxes: seq<TankBox>, grid: Grid): AxisResult
    requires WellFormed(grid)
  {
    var test := acc + amount;
    var moveAmount := TruncReal(test);
    if moveAmount != 0 then
      var candidate := Shift(p, axis, Signed(sign, moveAmount));
      if ValidMove(candidate, TANK_SIZE, TANK_SIZE, boxes, grid) then
        AxisResult(candidate, test - moveAmount as real, true)
      else
        AxisResult(p, acc, false)
    else
      AxisResult(p, test, false)
  }

  /**
   * With an accumulator in [0, 1) and an advance in (0, 1], an axis moves
   * exactly one pixel, and only when the accumulated amount reaches a whole
   * pixel and the neighbouring position validates; the accumulator then
   * keeps the excess. Otherwise the tank stays put and the accumulator
   * either grows by the advance (not yet a pixel) or is left alone
   * (blocked). Either way it stays in [0, 1).
   */
  lemma AxisMoveFacts(p: Position, axis: Axis, sign: int, acc: real, amount: real,
                      boxes: seq<TankBox>, grid: Grid)
    requires WellFormed(grid)
    requires sign == 1 || sign == -1
    requires 0.0 <= acc < 1.0 && 0.0 < amount <= 1.0
    ensures var r := AxisMove(p, axis, sign, acc, amount, boxes, grid);
      var next := Shift(p, axis, sign);
      0.0 <= r.acc < 1.0 &&
      (r.committed <==> acc + amount >= 1.0 && ValidMove(next, TANK_SIZE, TANK_SIZE, boxes, grid)) &&
      (r.committed ==> r.pos == next && r.acc == acc + amount - 1.0) &&
      (!r.committed ==> r.pos == p) &&
      (acc + amount < 1.0 ==> r.acc == acc + amount) &&
      (acc + amount >= 1.0 && !r.committed ==> r.acc == acc)
  {
    var test := acc + amount;
    assert test >= 1.0 ==> TruncReal(test) == 1;
    assert test < 1.0 ==> TruncReal(test) == 0;
    assert Signed(sign, 1) == sign;
  }

  datatype AxisStep = AxisStep(state: TankState, acc: real)

  /** An axis block on the whole tank: a committed candidate goes through the history hook. */
  function AxisCommit(t: TankState, axis: Axis, sign: int, acc: real, amount: real,
                      boxes: seq<TankBox>, grid: Grid): AxisStep
    requires WellFormed(grid)
  {
    if sign == 0 then AxisStep(t, acc)
    else
      var r := AxisMove(t.pos, axis, sign, acc, amount, boxes, grid);
      AxisStep(if r.committed then SetPositionState(t, r.pos) else t, r.acc)
  }

  lemma AxisCommitIgnoresSelf(t: TankState, axis: Axis, sign: int, acc: real, amount: real,
                              b1: seq<TankBox>, b2: seq<TankBox>, grid: Grid)
    requires WellFormed(grid) && SameOthers(b1, b2)
    ensures AxisCommit(t, axis, sign, acc, amount, b1, grid) == AxisCommit(t, axis, sign, acc, amount, b2, grid)
  {
    var candidate := Shift(t.pos, axis, Signed(sign, TruncReal(acc + amount)));
    SelfIsIgnored(candidate, TANK_SIZE, TANK_SIZE, b1, b2, grid);
  }

  /** The accumulator of one axis. */
  function AccOn(x: real, y: real, axis: Axis): real
  {
    match axis
    case XAxis => x
    case YAxis => y
  }

  datatype MoveOutcome = MoveOutcome(state: TankState, accX: real, accY: real)

  /**
   * The tank's move: remember the requested direction; unless the body
   * already points that way, stop there. Otherwise run the Y block, then
   * the X block from the position the Y block left.
   */
  function MoveSpec(t: TankState, accX: real, accY: real, d: Direction,
                    boxes: seq<TankBox>, grid: Grid): (o: MoveOutcome)
    requires WellFormed(grid)
    ensures o.state.direction == d
    ensures Angle(d) != t.bodyAngle ==> o.state.pos == t.pos && o.accX == accX && o.accY == accY
  {
    var turned := t.(direction := d);
    if Angle(d) != t.bodyAngle then MoveOutcome(turned, accX, accY)
    else MoveAxesSpec(turned, accX, accY, d, boxes, grid)
  }

  /** The two axis blocks of a move that passed the turn gate. */
  function MoveAxesSpec(t: TankState, accX: real, accY: real, d: Direction,
                        boxes: seq<TankBox>, grid: Grid): MoveOutcome
    requires WellFormed(grid)
  {
    var ys := AxisCommit(t, YAxis, YSign(d), accY, Amount(d), boxes, grid);
    var xs := AxisCommit(ys.state, XAxis, XSign(d), accX, Amount(d), boxes, grid);
    MoveOutcome(xs.state, xs.acc, ys.acc)
  }

  /** The turn gate: while the body still turns, a move only records the direction. */
  lemma MoveTurnGate(t: TankState, accX: real, accY: real, d: Direction,
                     boxes: seq<TankBox>, grid: Grid)
    requires WellFormed(grid)
    requires Angle(d) != t.bodyAngle
    ensures MoveSpec(t, accX, accY, d, boxes, grid) == MoveOutcome(t.(direction := d), accX, accY)
  {
  }

  /** The fields a move may change: position, direction and the history. */
  predicate MoveFrame(t: TankState, r: TankState)
  {
    r.alive == t.alive && r.bodyAngle == t.bodyAngle && r.turretAngle == t.turretAngle &&
    r.bodyHidden == t.bodyHidden && r.turretHidden == t.turretHidden &&
    r.explosionHidden == t.explosionHidden && t.history <= r.history
  }

  lemma AxisCommitFacts(t: TankState, axis: Axis, sign: int, acc: real, amount: real,
                        boxes: seq<TankBox>, grid: Grid)
    requires WellFormed(grid)
    requires -1 <= sign <= 1
    requires 0.0 <= acc < 1.0 && 0.0 < amount <= 1.0
    requires 1 <= t.historyCounter <= HISTORY_CADENCE
    ensures var s := AxisCommit(t, axis, sign, acc, amount, boxes, grid);
      MoveFrame(t, s.state) && s.state.direction == t.direction &&
      1 <= s.state.historyCounter <= HISTORY_CADENCE &&
      0.0 <= s.acc < 1.0 &&
      (s.state.pos == t.pos || (s.state.pos == Shift(t.pos, axis, sign) &&
                                ValidMove(s.state.pos, TANK_SIZE, TANK_SIZE, boxes, grid)))
  {
    if sign != 0 {
      AxisMoveFacts(t.pos, axis, sign, acc, amount, boxes, grid);
    }
  }

  /**
   * What a move guarantees: with accumulators in [0, 1) they stay there;
   * each axis moves by at most one pixel, and only in the requested
   * direction; the tank ends either where it was or on a position that
   * passed validation; nothing but the position, direction and history
   * changes.
   */
  lemma MoveSteps(t: TankState, accX: real, accY: real, d: Direction,
                  boxes: seq<TankBox>, grid: Grid)
    requires WellFormed(grid)
    requires 0.0 <= accX < 1.0 && 0.0 <= accY < 1.0
    requires 1 <= t.historyCounter <= HISTORY_CADENCE
    ensures var m := MoveSpec(t, accX, accY, d, boxes, grid);
      0.0 <= m.accX < 1.0 && 0.0 <= m.accY < 1.0 &&
      (m.state.pos.x - t.pos.x == 0 || m.state.pos.x - t.pos.x == XSign(d)) &&
      (m.state.pos.y - t.pos.y == 0 || m.state.pos.y - t.pos.y == YSign(d)) &&
      (m.state.pos == t.pos || ValidMove(m.state.pos, TANK_SIZE, TANK_SIZE, boxes, grid)) &&
      MoveFrame(t, m.state) && m.state.direction == d &&
      1 <= m.state.historyCounter <= HISTORY_CADENCE
  {
    if Angle(d) == t.bodyAngle {
      var turned := t.(direction := d);
      var ys := AxisCommit(turned, YAxis, YSign(d), accY, Amount(d), boxes, grid);
      AxisCommitFacts(turned, YAxis, YSign(d), accY, Amount(d), boxes, grid);
      AxisCommitFacts(ys.state, XAxis, XSign(d), accX, Amount(d), boxes, grid);
    }
  }

  /**
   * A straight move never changes the accumulators, and moves the tank one
   * whole pixel exactly when the neighbouring position validates (the body
   * already facing that way).
   */
  lemma StraightMoveIsWholePixel(t: TankState, accX: real, accY: real, d: Direction,
                                 boxes: seq<TankBox>, grid: Grid)
    requires WellFormed(grid)
    requires 0.0 <= accX < 1.0 && 0.0 <= accY < 1.0
    requires !IsDiagonal(d) && Angle(d) == t.bodyAngle
    ensures var m := MoveSpec(t, accX, accY, d, boxes, grid);
      var next := Position(t.pos.x + XSign(d), t.pos.y + YSign(d));
      m.accX == accX && m.accY == accY &&
      (m.state.pos == next <==> ValidMove(next, TANK_SIZE, TANK_SIZE, boxes, grid)) &&
      (m.state.pos != next ==> m.state.pos == t.pos)
  {
    var turned := t.(direction := d);
    if YSign(d) != 0 {
      AxisMoveFacts(turned.pos, YAxis, YSign(d), accY, 1.0, boxes, grid);
    } else {
      AxisMoveFacts(turned.pos, XAxis, XSign(d), accX, 1.0, boxes, grid);
    }
  }

  /*-------------------------------------------------------------------------
   * Body rotation
   *-------------------------------------------------------------------------*/

  /** C's fmod on whole numbers: the remainder takes the sign of a. */
  function Fmod360Int(a: int): (r: int)
    ensures a >= 0 ==> 0 <= r < 360
    ensures a < 0 ==> -360 < r <= 0
    ensures (a - r) % 360 == 0
  {
    if a >= 0 then a % 360 else -((-a) % 360)
  }

  /** The double fmod the rotation ends with is the mathematical remainder mod 360. */
  lemma NormalizeIsMod(a: int)
    ensures Fmod360Int(Fmod360Int(a) + 360) == a % 360
  {
    var r := Fmod360Int(a);
    assert Fmod360Int(r + 360) == (r + 360) % 360;
    assert (a - r) % 360 == 0;
  }

  /**
   * One frame of the body's rotation towards `target`: take the signed
   * difference, bring it into [-180, 180], turn 5 degrees that way unless
   * it is zero (the source's 0.1-degree threshold, on whole angles), in
   * which case snap to the target; then normalise into [0, 360).
   */
  function InterpolateAngle(current: int, target: int): (r: int)
    ensures 0 <= r < 360
  {
    var diff0 := target - current;
    var diff := if diff0 > 180 then diff0 - 360 else if diff0 < -180 then diff0 + 360 else diff0;
    var turned := if diff != 0 then (if diff > 0 then current + BODY_ROTATION_SPEED
                                     else current - BODY_ROTATION_SPEED)
                  else target;
    Fmod360Int(Fmod360Int(turned) + 360)
  }

  /** How far a is from t around the circle, the shorter way, in degrees. */
  function ArcDistance(a: int, t: int): (r: int)
    ensures 0 <= r <= 180
  {
    var cw := (t - a) % 360;
    if cw <= 180 then cw else 360 - cw
  }

  predicate WholeStepAngle(a: int)
  {
    0 <= a < 360 && a % BODY_ROTATION_SPEED == 0
  }

  /**
   * Each frame closes the gap along the shorter arc by exactly the rotation
   * speed, and once there the angle stays put; angles stay whole multiples
   * of 5 in [0, 360).
   */
  lemma InterpolateClosesGap(current: int, target: int)
    requires WholeStepAngle(current) && WholeStepAngle(target)
    ensures var r := InterpolateAngle(current, target);
      WholeStepAngle(r) &&
      (current == target ==> r == target) &&
      (current != target ==> ArcDistance(r, target) == ArcDistance(current, target) - BODY_ROTATION_SPEED)
  {
    var diff0 := target - current;
    var diff := if diff0 > 180 then diff0 - 360 else if diff0 < -180 then diff0 + 360 else diff0;
    var turned := if diff != 0 then (if diff > 0 then current + 5 else current - 5) else target;
    NormalizeIsMod(turned);
    if diff > 0 {
      TurnForward(current, target, diff);
    } else if diff < 0 {
      TurnBackward(current, target, diff);
    }
  }

  /** A clockwise step of 5 degrees when the target is `diff` ahead, 0 < diff <= 180. */
  lemma TurnForward(current: int, target: int, diff: int)
    requires WholeStepAngle(current) && WholeStepAngle(target)
    requires 0 < diff <= 180 && (diff == target - current || diff == target - current + 360)
    ensures var r := (current + 5) % 360;
      WholeStepAngle(r) && ArcDistance(current, target) == diff && ArcDistance(r, target) == diff - 5
  {
    var r := (current + 5) % 360;
    Mod360Window(current + 5);
    FiveSteps(current);
    Mod360Window(target - current);
    Mod360Window(target - r);
  }

  /** A counter-clockwise step of 5 degrees when the target is `-diff` behind, -180 <= diff < 0. */
  lemma TurnBackward(current: int, target: int, diff: int)
    requires WholeStepAngle(current) && WholeStepAngle(target)
    requires -180 <= diff < 0 && (diff == target - current || diff == target - current - 360)
    ensures var r := (current - 5) % 360;
      WholeStepAngle(r) && ArcDistance(current, target) == -diff && ArcDistance(r, target) == -diff - 5
  {
    var r := (current - 5) % 360;
    Mod360Window(current - 5);
    FiveSteps(current);
    Mod360Window(target - current);
    Mod360Window(target - r);
    assert (target - r) % 360 == if diff == -5 then 0 else diff + 365;
  }

  /** The remainder mod 360 of a number less than a turn away from [0, 360). */
  lemma Mod360Window(x: int)
    requires -360 <= x < 720
    ensures x % 360 == (if x < 0 then x + 360 else if x >= 360 then x - 360 else x)
  {
  }

  lemma FiveSteps(x: int)
    ensures (x + 360) % 5 == x % 5 && (x - 360) % 5 == x % 5
    ensures (x + 5) % 5 == x % 5 && (x - 5) % 5 == x % 5
  {
  }

  /** The rotation run for k frames. */
  function InterpolateN(current: int, target: int, k: nat): int
    decreases k
  {
    if k == 0 then current else InterpolateN(InterpolateAngle(current, target), target, k - 1)
  }

  /**
   * The body reaches its target after (arc distance) / 5 frames and stays
   * there; as the shorter arc is at most 180 degrees, 36 frames always
   * suffice.
   */
  lemma {:induction false} InterpolateConverges(current: int, target: int, k: nat)
    requires WholeStepAngle(current) && WholeStepAngle(target)
    requires k * BODY_ROTATION_SPEED >= ArcDistance(current, target)
    decreases k
    ensures InterpolateN(current, target, k) == target
  {
    if k > 0 {
      InterpolateClosesGap(current, target);
      var next := InterpolateAngle(current, target);
      if current == target {
        InterpolateConverges(next, target, k - 1);
      } else {
        assert ArcDistance(current, target) != 0 by {
          assert (target - current) % 360 != 0;
        }
        InterpolateConverges(next, target, k - 1);
      }
    } else {
      assert (target - current) % 360 == 0;
    }
  }

  lemma InterpolateWithin36(current: int, target: int)
    requires WholeStepAngle(current) && WholeStepAngle(target)
    ensures InterpolateN(current, target, 36) == target
  {
    InterpolateConverges(current, target, 36);
  }

  /** A tank after its sprite update: a shown body eases one step towards the facing direction. */
  function OamState(t: TankState): TankState
  {
    if t.bodyHidden then t else t.(bodyAngle := InterpolateAngle(t.bodyAngle, Angle(t.direction)))
  }

  /*-------------------------------------------------------------------------
   * Turret aiming
   *-------------------------------------------------------------------------*/

  /**
   * The angle from the tank's centre to a touch point: atan2 of the offset,
   * in degrees (the parameter; atan2 itself is not modelled), with negative
   * results moved up by a whole turn. Over atan2's range it lands in [0, 360).
   */
  function CalculateAngle(atanDegrees: real): (r: real)
    ensures -180.0 <= atanDegrees <= 180.0 ==> 0.0 <= r < 360.0
    ensures r == atanDegrees || r == atanDegrees + 360.0
    ensures r < 0.0 ==> atanDegrees < -360.0
  {
    if atanDegrees < 0.0 then atanDegrees + 360.0 else atanDegrees
  }

  /**
   * The turret angle for an aiming angle: 270 minus it, brought into
   * [0, 360) by fmod and a whole turn when the remainder is negative. It
   * differs from 270 minus the aim by a whole number of turns.
   */
  function TurretAngle(aim: real): (r: real)
    ensures 0.0 <= r < 360.0
    ensures exists turns: int {:trigger turns as real} :: (270.0 - aim) - r == 360.0 * (turns as real)
  {
    var f := Fmod360(270.0 - aim);
    assert (270.0 - aim) - f == 360.0 * (TruncReal((270.0 - aim) / 360.0) as real);
    if f < 0.0 then
      assert (270.0 - aim) - (f + 360.0) == 360.0 * ((TruncReal((270.0 - aim) / 360.0) - 1) as real);
      f + 360.0
    else
      f
  }

  /**
   * For an aiming angle on the circle, the turret angle is 270 minus it,
   * or 630 minus it once the aim passes 270 degrees.
   */
  lemma TurretAngleOnCircle(aim: real)
    requires 0.0 <= aim < 360.0
    ensures TurretAngle(aim) == if aim <= 270.0 then 270.0 - aim else 630.0 - aim
  {
    var q := (270.0 - aim) / 360.0;
    assert -0.25 < q <= 0.75;
    assert TruncReal(q) == 0;
  }

  /** The turret angle a touch produces, from atan2 of its offset to the tank's centre. */
  function TouchTurretAngle(atanDegrees: real): (r: real)
    ensures 0.0 <= r < 360.0
    ensures -180.0 <= atanDegrees <= 180.0 ==>
      r == if CalculateAngle(atanDegrees) <= 270.0 then 270.0 - CalculateAngle(atanDegrees)
           else 630.0 - CalculateAngle(atanDegrees)
  {
    if -180.0 <= atanDegrees <= 180.0 then
      TurretAngleOnCircle(CalculateAngle(atanDegrees));
      TurretAngle(CalculateAngle(atanDegrees))
    else
      TurretAngle(CalculateAngle(atanDegrees))
  }

  /*-------------------------------------------------------------------------
   * Firing
   *-------------------------------------------------------------------------*/

  /** Index of the first idle bullet of the pool, or the pool size if all fly. */
  function FirstIdle(bs: seq<BulletState>): (i: nat)
    ensures i <= |bs|
    ensures forall k :: 0 <= k < i ==> bs[k].inFlight
    ensures i < |bs| ==> !bs[i].inFlight
  {
    if bs == [] then 0
    else if !bs[0].inFlight then 0
    else 1 + FirstIdle(bs[1..])
  }

  /** The pool after the tank fires: the first idle bullet, if any, is launched. */
  function FireSpec(bs: seq<BulletState>, spawn: Position, heading: real, unit: real -> Velocity)
    : seq<BulletState>
  {
    var i := FirstIdle(bs);
    if i < |bs| then bs[i := FireState(bs[i], spawn, heading, unit)] else bs
  }

  /** Number of bullets of a pool that are in flight. */
  function InFlightCount(bs: seq<BulletState>): (n: nat)
    ensures n <= |bs|
  {
    if bs == [] then 0 else (if bs[0].inFlight then 1 else 0) + InFlightCount(bs[1..])
  }

  lemma {:induction false} InFlightCountUpdate(bs: seq<BulletState>, i: nat, b: BulletState)
    requires i < |bs| && !bs[i].inFlight && b.inFlight
    ensures InFlightCount(bs[i := b]) == InFlightCount(bs) + 1
  {
    if i > 0 {
      assert bs[i := b][1..] == bs[1..][i - 1 := b];
      InFlightCountUpdate(bs[1..], i - 1, b);
    }
  }

  /**
   * Firing puts exactly one more bullet in flight when one was idle, and
   * does nothing when all are in flight; every bullet before the launched
   * one was already flying, and no other bullet changes.
   */
  lemma FireLaunchesOne(bs: seq<BulletState>, spawn: Position, heading: real, unit: real -> Velocity)
    ensures var r := FireSpec(bs, spawn, heading, unit);
      |r| == |bs| &&
      ((exists k :: 0 <= k < |bs| && !bs[k].inFlight) ==>
         InFlightCount(r) == InFlightCount(bs) + 1 &&
         exists i :: 0 <= i < |bs| && !bs[i].inFlight &&
           (forall k :: 0 <= k < i ==> bs[k].inFlight) &&
           r[i] == FireState(bs[i], spawn, heading, unit) &&
           (forall k :: 0 <= k < |bs| && k != i ==> r[k] == bs[k])) &&
      ((forall k :: 0 <= k < |bs| ==> bs[k].inFlight) ==> r == bs)
  {
    var i := FirstIdle(bs);
    if i < |bs| {
      InFlightCountUpdate(bs, i, FireState(bs[i], spawn, heading, unit));
    }
  }

  /** Where a fired bullet appears: the tank's box corner minus the muzzle offset. */
  function Spawn(p: Position, muzzle: Position): Position
  {
    Position(p.x - TILE_OFFSET - muzzle.x, p.y - TILE_OFFSET - muzzle.y)
  }

  /*-------------------------------------------------------------------------
   * Explode, reset, construction
   *-------------------------------------------------------------------------*/

  function ExplodeTankState(t: TankState): TankState
  {
    t.(alive := false, bodyHidden := true, turretHidden := true, explosionHidden := false)
  }

  /** The state a tank is built in at (x, y) facing d. */
  function ConstructedState(spawn: Position, d: Direction): TankState
  {
    TankState(spawn, true, d, Angle(d), Angle(d) as real, false, false, true, [], 1)
  }

  /**
   * The reset as written: revive and show the tank, move it to the first
   * recorded history entry (through the history hook, with the old
   * direction), then face north with both angles 0.
   */
  function ResetAsWrittenState(t: TankState): TankState
    requires |t.history| > 0
  {
    var revived := t.(alive := true, bodyHidden := false, turretHidden := false, explosionHidden := true);
    SetPositionState(revived, t.history[0].pos).(direction := N, bodyAngle := 0, turretAngle := 0.0)
  }

  /** The reset as meant: the same, but back to the spawn position. */
  function TankResetState(t: TankState, spawn: Position): TankState
  {
    var revived := t.(alive := true, bodyHidden := false, turretHidden := false, explosionHidden := true);
    SetPositionState(revived, spawn).(direction := N, bodyAngle := 0, turretAngle := 0.0)
  }

  /**
   * The written reset does not return a tank to where it started: a new
   * tank has an empty history (so the first entry does not exist), and
   * after three one-pixel moves north from (32, 32) the first entry is
   * (32, 29).
   */
  lemma ResetAsWrittenMissesSpawn()
    ensures ConstructedState(Position(32, 32), N).history == []
    ensures var t0 := ConstructedState(Position(32, 32), N);
      var t3 := SetPositionState(SetPositionState(SetPositionState(t0, Position(32, 31)),
                                                  Position(32, 30)), Position(32, 29));
      |t3.history| == 1 && ResetAsWrittenState(t3).pos == Position(32, 29)
  {
  }

  /**
   * The corrected reset returns any tank to its spawn, alive, visible and
   * facing north with both angles 0; the history keeps what it had and the
   * counter stays in range.
   */
  lemma ResetRestoresSpawn(t: TankState, spawn: Position)
    requires 1 <= t.historyCounter <= HISTORY_CADENCE
    ensures var r := TankResetState(t, spawn);
      r.pos == spawn && r.alive && !r.bodyHidden && !r.turretHidden && r.explosionHidden &&
      r.direction == N && r.bodyAngle == 0 && r.turretAngle == 0.0 &&
      t.history <= r.history && 1 <= r.historyCounter <= HISTORY_CADENCE
  {
  }

  /*-------------------------------------------------------------------------
   * The tank object
   *-------------------------------------------------------------------------*/

  /** The function-static accumulators of the move, shared by every tank. */
  class Accumulators {
    var x: real
    var y: real

    constructor()
      ensures x == 0.0 && y == 0.0
    {
      x := 0.0;
      y := 0.0;
    }
  }

  /** The tank's bullet pool: max_bullets new idle bullets with the colour's settings. */
  method CreateBullets(t: Tunables) returns (pool: seq<Bullet>)
    ensures |pool| == if t.maxBullets < 0 then 0 else t.maxBullets
    ensures forall i, j :: 0 <= i < j < |pool| ==> pool[i] != pool[j]
    ensures forall i :: 0 <= i < |pool| ==>
      fresh(pool[i]) && pool[i].Valid() && !pool[i].inFlight &&
      pool[i].speed == t.bulletSpeed && pool[i].maxRicochets == t.maxRicochets
  {
    pool := [];
    while |pool| < t.maxBullets
      invariant |pool| <= if t.maxBullets < 0 then 0 else t.maxBullets
      invariant forall i, j :: 0 <= i < j < |pool| ==> pool[i] != pool[j]
      invariant forall i :: 0 <= i < |pool| ==>
        fresh(pool[i]) && pool[i].Valid() && !pool[i].inFlight &&
        pool[i].speed == t.bulletSpeed && pool[i].maxRicochets == t.maxRicochets
    {
      var b := new Bullet(t.bulletSpeed, t.maxRicochets);
      pool := pool + [b];
    }
  }

  class Tank {
    const color: TankColor
    const tunables: Tunables
    /** Where the tank was built; only the corrected reset reads it. */
    const spawn: Position
    const bullets: seq<Bullet>

    var pos: Position
    var alive: bool
    var direction: Direction
    var bodyAngle: int
    var turretAngle: real
    var bodyHidden: bool
    var turretHidden: bool
    var explosionHidden: bool
    var history: seq<HistoryEntry>
    var historyCounter: int

    ghost function State(): TankState
      reads this
    {
      TankState(pos, alive, direction, bodyAngle, turretAngle, bodyHidden, turretHidden,
                explosionHidden, history, historyCounter)
    }

    ghost function BulletStates(): (r: seq<BulletState>)
      reads bullets
      ensures |r| == |bullets| && forall i :: 0 <= i < |bullets| ==> r[i] == bullets[i].State()
    {
      seq(|bullets|, i requires 0 <= i < |bullets| reads bullets => bullets[i].State())
    }

    /**
     * The tank's invariant: a valid bullet pool, a history counter in [1, 3]
     * and a body angle that is a whole multiple of 5 in [0, 360).
     */
    ghost predicate Valid()
      reads this, bullets
    {
      PoolValid() && 1 <= historyCounter <= HISTORY_CADENCE && WholeStepAngle(bodyAngle)
    }

    /**
     * The colour's settings and a pool of max_bullets distinct valid bullets
     * built with those settings.
     */
    ghost predicate PoolValid()
      reads bullets
    {
      PoolShape() && forall i :: 0 <= i < |bullets| ==> bullets[i].Valid()
    }

    /** The parts of the pool's invariant that never change: sizes, identities, settings. */
    ghost predicate PoolShape()
    {
      tunables == TunablesFor(color) &&
      |bullets| == tunables.maxBullets &&
      (forall i, j :: 0 <= i < j < |bullets| ==> bullets[i] != bullets[j]) &&
      (forall i :: 0 <= i < |bullets| ==>
         bullets[i].speed == tunables.bulletSpeed && bullets[i].maxRicochets == tunables.maxRicochets)
    }

    /** How this tank appears in the validation of a list of tanks. */
    function BoxesOf(tanks: seq<Tank>): (r: seq<TankBox>)
      reads tanks
      ensures |r| == |tanks|
      ensures forall i :: 0 <= i < |tanks| ==>
        r[i] == TankBox(tanks[i].pos, TANK_SIZE, TANK_SIZE, tanks[i] == this)
    {
      seq(|tanks|, i requires 0 <= i < |tanks| reads tanks =>
        TankBox(tanks[i].pos, TANK_SIZE, TANK_SIZE, tanks[i] == this))
    }

    function ValidateMove(p: Position, tanks: seq<Tank>, grid: Grid): bool
      requires WellFormed(grid)
      reads tanks
    {
      ValidMove(p, TANK_SIZE, TANK_SIZE, BoxesOf(tanks), grid)
    }

    /**
     * A new tank at (x, y): the colour's settings, a fresh pool of idle
     * bullets, the position set once through the history hook, and body
     * and turret facing d.
     */
    constructor(x: int, y: int, color: TankColor, d: Direction)
      ensures Valid() && fresh(bullets)
      ensures State() == ConstructedState(Position(x, y), d)
      ensures this.color == color && spawn == Position(x, y)
      ensures forall i :: 0 <= i < |bullets| ==> fresh(bullets[i]) && !bullets[i].inFlight
    {
      var t := TunablesFor(color);
      var pool := CreateBullets(t);
      this.color := color;
      tunables := t;
      spawn := Position(x, y);
      bullets := pool;
      pos := Position(0, 0);
      alive := true;
      direction := N;
      bodyAngle := 0;
      turretAngle := 0.0;
      bodyHidden := false;
      turretHidden := false;
      explosionHidden := true;
      history := [];
      historyCounter := 0;
      new;
      SetPosition(Position(x, y));
      FaceDirection(d);
      AngleIsCompassTurn(d);
    }

    method AddPositionHistory()
      modifies this
      ensures State() == AddHistory(old(State()))
    {
      if historyCounter >= HISTORY_CADENCE {
        historyCounter := 0;
        history := history + [HistoryEntry(pos, direction)];
      }
      historyCounter := historyCounter + 1;
    }

    method SetPosition(p: Position)
      modifies this
      ensures State() == SetPositionState(old(State()), p)
    {
      pos := p;
      AddPositionHistory();
    }

    /**
     * One axis block of the move, on the accumulator of that axis. The
     * candidate is validated against the stage's tanks as they stand now.
     */
    method MoveAxis(axis: Axis, sign: int, amount: real, tanks: seq<Tank>, grid: Grid,
                    acc: Accumulators)
      requires WellFormed(grid) && sign != 0
      modifies this, acc
      ensures var s := AxisCommit(old(State()), axis, sign, old(AccOn(acc.x, acc.y, axis)), amount,
                                  old(BoxesOf(tanks)), grid);
        State() == s.state && AccOn(acc.x, acc.y, axis) == s.acc &&
        AccOn(acc.x, acc.y, OtherAxis(axis)) == old(AccOn(acc.x, acc.y, OtherAxis(axis)))
      ensures bodyAngle == old(bodyAngle)
      ensures 1 <= old(historyCounter) <= HISTORY_CADENCE ==> 1 <= historyCounter <= HISTORY_CADENCE
    {
      ghost var boxes := BoxesOf(tanks);
      var accumulated := if axis == XAxis then acc.x else acc.y;
      var test := accumulated + amount;
      var moveAmount := TruncReal(test);
      if moveAmount != 0 {
        var candidate := Shift(pos, axis, Signed(sign, moveAmount));
        assert SameOthers(boxes, BoxesOf(tanks));
        SelfIsIgnored(candidate, TANK_SIZE, TANK_SIZE, boxes, BoxesOf(tanks), grid);
        if ValidateMove(candidate, tanks, grid) {
          SetPosition(candidate);
          if axis == XAxis {
            acc.x := test - moveAmount as real;
          } else {
            acc.y := test - moveAmount as real;
          }
        }
      } else {
        if axis == XAxis {
          acc.x := test;
        } else {
          acc.y := test;
        }
      }
    }

    /**
     * Move towards d by at most a pixel per axis, Y first and then X from
     * the updated position, through the shared accumulators.
     */
    method Move(d: Direction, tanks: seq<Tank>, grid: Grid, acc: Accumulators)
      requires WellFormed(grid)
      modifies this, acc
      ensures old(Valid()) ==> Valid()
      ensures var m := MoveSpec(old(State()), old(acc.x), old(acc.y), d, old(BoxesOf(tanks)), grid);
        State() == m.state && acc.x == m.accX && acc.y == m.accY
    {
      ghost var boxes := BoxesOf(tanks);
      direction := d;
      assert BoxesOf(tanks) == boxes;
      if Angle(d) != bodyAngle {
        return;
      }
      MoveAxes(d, tanks, grid, acc);
    }

    /** The Y block, then the X block from where the Y block left the tank. */
    method MoveAxes(d: Direction, tanks: seq<Tank>, grid: Grid, acc: Accumulators)
      requires WellFormed(grid)
      modifies this, acc
      ensures bodyAngle == old(bodyAngle)
      ensures 1 <= old(historyCounter) <= HISTORY_CADENCE ==> 1 <= historyCounter <= HISTORY_CADENCE
      ensures var m := MoveAxesSpec(old(State()), old(acc.x), old(acc.y), d, old(BoxesOf(tanks)), grid);
        State() == m.state && acc.x == m.accX && acc.y == m.accY
    {
      ghost var boxes := BoxesOf(tanks);
      var amount := if IsDiagonal(d) then DIAGONAL_STEP else 1.0;
      ghost var ys := AxisCommit(State(), YAxis, YSign(d), acc.y, amount, boxes, grid);
      if YSign(d) != 0 {
        MoveAxis(YAxis, YSign(d), amount, tanks, grid, acc);
      }
      assert State() == ys.state && acc.y == ys.acc;
      ghost var xs := AxisCommit(ys.state, XAxis, XSign(d), acc.x, amount, boxes, grid);
      if XSign(d) != 0 {
        assert SameOthers(boxes, BoxesOf(tanks));
        AxisCommitIgnoresSelf(ys.state, XAxis, XSign(d), acc.x, amount, boxes, BoxesOf(tanks), grid);
        MoveAxis(XAxis, XSign(d), amount, tanks, grid, acc);
      }
      assert State() == xs.state && acc.x == xs.acc;
    }

    method InterpolateBodyRotation()
      modifies this
      ensures State() == old(State()).(bodyAngle := InterpolateAngle(old(bodyAngle), Angle(old(direction))))
    {
      var target := Angle(direction);
      var current := bodyAngle;
      var diff := target - current;
      if diff > 180 {
        diff := diff - 360;
      } else if diff < -180 {
        diff := diff + 360;
      }
      // The source's |diff| > 0.1 test; the angles here are whole degrees.
      if diff != 0 {
        if diff > 0 {
          bodyAngle := bodyAngle + BODY_ROTATION_SPEED;
        } else {
          bodyAngle := bodyAngle - BODY_ROTATION_SPEED;
        }
      } else {
        bodyAngle := target;
      }
      bodyAngle := Fmod360Int(Fmod360Int(bodyAngle) + 360);
    }

    /** The per-frame sprite update of a tank: a living tank's body eases towards its direction. */
    method UpdateOam()
      modifies this
      ensures old(bodyHidden) ==> State() == old(State())
      ensures !old(bodyHidden) ==>
        State() == old(State()).(bodyAngle := InterpolateAngle(old(bodyAngle), Angle(old(direction))))
      ensures State() == OamState(old(State()))
    {
      if bodyHidden {
        return;
      }
      InterpolateBodyRotation();
    }

    method FaceDirection(d: Direction)
      modifies this
      ensures State() == old(State()).(direction := d, turretAngle := Angle(d) as real, bodyAngle := Angle(d))
    {
      direction := d;
      turretAngle := Angle(d) as real;
      bodyAngle := Angle(d);
    }

    /** The whole-degree overload: the turret takes the given angle as it is. */
    method RotateTurret(angle: int)
      modifies this
      ensures State() == old(State()).(turretAngle := angle as real)
    {
      turretAngle := angle as real;
    }

    /**
     * Aim the turret at a touch point, given atan2 of the point's offset
     * from the tank's centre in degrees: the angle is taken into [0, 360),
     * subtracted from 270, and the fmod remainder moved up a turn when
     * negative.
     */
    method RotateTurretToward(atanDegrees: real)
      modifies this
      ensures State() == old(State()).(turretAngle := TouchTurretAngle(atanDegrees))
      ensures 0.0 <= turretAngle < 360.0
    {
      var angle := CalculateAngle(atanDegrees);
      var r := Fmod360(270.0 - angle);
      if r < 0.0 {
        r := r + 360.0;
      }
      turretAngle := r;
    }

    /**
     * Fire the first idle bullet of the pool from the muzzle along the
     * turret's heading; `muzzle` is the truncated 12*sin, 12*cos offset of
     * the turret angle.
     */
    method Fire(muzzle: Position, unit: real -> Velocity)
      requires Valid()
      requires FirstIdle(BulletStates()) < |bullets| ==> Interior(Spawn(pos, muzzle))
      modifies bullets
      ensures Valid()
      ensures BulletStates() == FireSpec(old(BulletStates()), Spawn(pos, muzzle), turretAngle, unit)
    {
      ghost var bs := BulletStates();
      var i := 0;
      while i < |bullets|
        invariant 0 <= i <= |bullets|
        invariant forall k :: 0 <= k < i ==> bs[k].inFlight
        invariant BulletStates() == bs
        decreases |bullets| - i
      {
        if bullets[i].inFlight {
          i := i + 1;
          continue;
        }
        assert FirstIdle(bs) == i;
        bullets[i].Fire(Spawn(pos, muzzle), turretAngle, unit);
        assert BulletStates() == FireSpec(bs, Spawn(pos, muzzle), turretAngle, unit);
        return;
      }
    }

    method Explode()
      modifies this
      ensures State() == ExplodeTankState(old(State()))
    {
      alive := false;
      bodyHidden := true;
      turretHidden := true;
      explosionHidden := false;
    }

    /** The reset, returning the tank to its spawn (see ResetAsWrittenState). */
    method Reset()
      modifies this
      ensures State() == TankResetState(old(State()), spawn)
    {
      alive := true;
      bodyHidden := false;
      turretHidden := false;
      explosionHidden := true;
      SetPosition(spawn);
      direction := N;
      bodyAngle := 0;
      turretAngle := 0.0;
    }

    function OffsetPosition(): (r: Position)
      reads this
      ensures r.x + TILE_OFFSET == pos.x && r.y + TILE_OFFSET == pos.y
    {
      Position(pos.x - TILE_OFFSET, pos.y - TILE_OFFSET)
    }
  }
}
