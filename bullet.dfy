/**
 * A tank's bullet: the wall-reflection table, the ricochet scan of the
 * barrier grid, the pixel-by-pixel stepping of one frame, and the bullet
 * object whose fields those operations update.
 *
 * Headings are degrees counted counter-clockwise from north, and the
 * velocity of heading d is (-sin d, -cos d) times the speed. Trigonometry is
 * not modelled: a caller-supplied function `unit` gives the velocity of a
 * heading at speed one.
 */
module Bullets {
  import opened Geometry

  datatype BulletSpeed = SpeedNormal | SpeedFast

  /** Pixels per frame of a bullet at each speed setting. */
  function SpeedValue(s: BulletSpeed): int
  {
    match s
    case SpeedNormal => 2
    case SpeedFast => 3
  }

  /** Which side of the bullet met a wall, if any. */
  datatype RicochetDir = NoRicochet | North | East | South | West | Corner

  /** Side of the visible bullet square. */
  const BULLET_SIZE: int := 6

  /** Transparent pixels between the bullet's tile corner and its visible square. */
  const SPRITE_GAP: int := 13

  datatype Velocity = Velocity(x: real, y: real)

  function Scale(v: Velocity, k: int): Velocity
  {
    Velocity(v.x * (k as real), v.y * (k as real))
  }

  /*---------------------------------------------------------------------------
   * Reflection
   *-------------------------------------------------------------------------*/

  /** The reflection table: the heading a bullet takes after meeting `wall`. */
  function ReflectionDirection(direction: real, wall: RicochetDir): (r: real)
    ensures 0.0 <= direction < 360.0 ==> -180.0 < r < 540.0
  {
    match wall
    case Corner => Fmod360(direction + 180.0)
    case North =>
      if direction < 90.0 && direction > 0.0 then 540.0 - direction
      else if direction > 270.0 then 180.0 - direction
      else 180.0
    case South =>
      if direction > 180.0 then 540.0 - direction
      else if direction < 180.0 then 180.0 - direction
      else 0.0
    case East => 360.0 - direction
    case West => 360.0 - direction
    case NoRicochet => 0.0
  }

  /** k whole turns, in degrees. */
  function Turns(k: int): real
  {
    360.0 * (k as real)
  }

  /** Two headings that differ by whole turns give the same velocity. */
  ghost predicate SameHeading(a: real, b: real)
  {
    exists k: int :: a - b == Turns(k)
  }

  lemma SameHeadingBy(a: real, b: real, k: int)
    requires a - b == Turns(k)
    ensures SameHeading(a, b)
  {
  }

  /**
   * The table mirrors the heading in the wall, up to whole turns: a north or
   * south wall flips the vertical velocity (d becomes 180 - d), an east or
   * west wall the horizontal one (d becomes -d), a corner reverses it. The
   * north rule does so only for headings in [0, 90) or above 270; any other
   * heading is sent straight down. Results are not normalised to [0, 360).
   */
  lemma ReflectionMirrors(d: real, wall: RicochetDir)
    ensures wall == East || wall == West ==> SameHeading(ReflectionDirection(d, wall), -d)
    ensures wall == South ==> SameHeading(ReflectionDirection(d, wall), 180.0 - d)
    ensures wall == North && (0.0 <= d < 90.0 || d > 270.0) ==>
      SameHeading(ReflectionDirection(d, wall), 180.0 - d)
    ensures wall == North && !(0.0 < d < 90.0) && !(d > 270.0) ==>
      ReflectionDirection(d, wall) == 180.0
    ensures wall == Corner ==> SameHeading(ReflectionDirection(d, wall), d + 180.0)
    ensures wall == NoRicochet ==> ReflectionDirection(d, wall) == 0.0
  {
    var r := ReflectionDirection(d, wall);
    match wall
    case East => SameHeadingBy(r, -d, 1);
    case West => SameHeadingBy(r, -d, 1);
    case South =>
      if d > 180.0 { SameHeadingBy(r, 180.0 - d, 1); } else { SameHeadingBy(r, 180.0 - d, 0); }
    case North =>
      if 0.0 < d < 90.0 { SameHeadingBy(r, 180.0 - d, 1); }
      else if d > 270.0 || d == 0.0 { SameHeadingBy(r, 180.0 - d, 0); }
    case Corner =>
      SameHeadingBy(r, d + 180.0, -TruncReal((d + 180.0) / 360.0));
    case NoRicochet =>
  }

  /** Headings in [0, 360) whose reflections leave [0, 360), and one taken further. */
  lemma ReflectionExamples()
    ensures ReflectionDirection(45.0, North) == 495.0
    ensures ReflectionDirection(300.0, North) == -120.0
    ensures ReflectionDirection(495.0, West) == -135.0
  {
  }

  /*---------------------------------------------------------------------------
   * Ricochet scan
   *-------------------------------------------------------------------------*/

  /**
   * Every cell the scan at p may read lies on the grid: the columns of the
   * top and bottom rows, and the rows below the scan box's top edge.
   */
  predicate Scannable(p: Position)
  {
    var ax, ay := p.x + SPRITE_GAP, p.y + SPRITE_GAP;
    -1 <= ax && ax + BULLET_SIZE - 2 < SCREEN_WIDTH && ay < SCREEN_HEIGHT
  }

  /** Every position one pixel away from p is scannable. */
  predicate Interior(p: Position)
  {
    var ax, ay := p.x + SPRITE_GAP, p.y + SPRITE_GAP;
    0 <= ax && ax + BULLET_SIZE - 1 < SCREEN_WIDTH && ay + 1 < SCREEN_HEIGHT
  }

  lemma InteriorNeighbours(p: Position, axis: Axis, s: int)
    requires Interior(p) && (s == 1 || s == -1)
    ensures Scannable(Shift(p, axis, s))
  {
  }

  /** No wall cell in row y between columns x0 (inclusive) and x1 (exclusive). */
  predicate RowOpen(grid: Grid, y: int, x0: int, x1: int)
    requires WellFormed(grid) && 0 <= y < SCREEN_HEIGHT && 0 <= x0 && x1 <= SCREEN_WIDTH
  {
    forall x :: x0 <= x < x1 ==> grid[y][x] != 1
  }

  /** No wall cell in column x between rows y0 (inclusive) and y1 (exclusive). */
  predicate ColumnOpen(grid: Grid, x: int, y0: int, y1: int)
    requires WellFormed(grid) && 0 <= x < SCREEN_WIDTH && 0 <= y0 && y1 <= SCREEN_HEIGHT
  {
    forall y :: y0 <= y < y1 ==> grid[y][x] != 1
  }

  /**
   * The bullet at p meets no wall: its 6x6 square is strictly inside the
   * screen and no edge pixel other than the four corners is a wall (code 1).
   */
  predicate Clear(grid: Grid, p: Position)
    requires WellFormed(grid)
  {
    var ax, ay := p.x + SPRITE_GAP, p.y + SPRITE_GAP;
    0 < ay && ay + BULLET_SIZE - 1 < SCREEN_HEIGHT &&
    0 < ax && ax + BULLET_SIZE - 1 < SCREEN_WIDTH &&
    RowOpen(grid, ay, ax + 1, ax + BULLET_SIZE - 1) &&
    RowOpen(grid, ay + BULLET_SIZE - 1, ax + 1, ax + BULLET_SIZE - 1) &&
    ColumnOpen(grid, ax, ay + 1, ay + BULLET_SIZE - 1) &&
    ColumnOpen(grid, ax + BULLET_SIZE - 1, ay + 1, ay + BULLET_SIZE - 1)
  }

  lemma ClearIsInterior(grid: Grid, p: Position)
    requires WellFormed(grid) && Clear(grid, p)
    ensures Interior(p)
  {
  }

  /**
   * The verdict block after the two scans. The four flags it tests are never
   * set by the scans, so it always answers NoRicochet; Corner is unreachable.
   */
  function CornerVerdict(north: bool, south: bool, east: bool, west: bool): RicochetDir
  {
    if (north && east) || (north && west) || (south && east) || (south && west) then Corner
    else if north then North
    else if south then South
    else if east then East
    else if west then West
    else NoRicochet
  }

  /** The side edges of the scan box are open from row offset i on. */
  predicate SidesClearFrom(grid: Grid, ax: int, ay: int, i: int)
    requires WellFormed(grid) && 0 < ay && ay + BULLET_SIZE - 1 < SCREEN_HEIGHT && 1 <= i
  {
    0 < ax && ax + BULLET_SIZE - 1 < SCREEN_WIDTH &&
    ColumnOpen(grid, ax, ay + i, ay + BULLET_SIZE - 1) &&
    ColumnOpen(grid, ax + BULLET_SIZE - 1, ay + i, ay + BULLET_SIZE - 1)
  }

  /** The top and bottom edges of the scan box are open from column offset i on. */
  predicate RowsClearFrom(grid: Grid, ax: int, ay: int, i: int)
    requires WellFormed(grid) && -1 <= ax && ax + BULLET_SIZE - 2 < SCREEN_WIDTH && 1 <= i
  {
    0 < ay && ay + BULLET_SIZE - 1 < SCREEN_HEIGHT &&
    RowOpen(grid, ay, ax + i, ax + BULLET_SIZE - 1) &&
    RowOpen(grid, ay + BULLET_SIZE - 1, ax + i, ax + BULLET_SIZE - 1)
  }

  /** The second loop of the scan: west then east edge, row by row. */
  function ScanSides(grid: Grid, ax: int, ay: int, i: int): (r: RicochetDir)
    requires WellFormed(grid) && 0 < ay && ay + BULLET_SIZE - 1 < SCREEN_HEIGHT
    requires -1 <= ax && ax + BULLET_SIZE - 2 < SCREEN_WIDTH
    requires 1 <= i <= BULLET_SIZE - 1
    requires i > 1 ==> 0 < ax && ax + BULLET_SIZE - 1 < SCREEN_WIDTH
    decreases BULLET_SIZE - i
  {
    if i == BULLET_SIZE - 1 then CornerVerdict(false, false, false, false)
    else if ax <= 0 || grid[ay + i][ax] == 1 then West
    else if ax + BULLET_SIZE - 1 >= SCREEN_WIDTH || grid[ay + i][ax + BULLET_SIZE - 1] == 1 then East
    else ScanSides(grid, ax, ay, i + 1)
  }

  /**
   * The side scan from row offset i finds nothing exactly when both side
   * edges are open from there on; it reports West only for a blocked west
   * edge, and never a corner or a top or bottom wall.
   */
  lemma {:induction false} ScanSidesFindsWalls(grid: Grid, ax: int, ay: int, i: int)
    requires WellFormed(grid) && 0 < ay && ay + BULLET_SIZE - 1 < SCREEN_HEIGHT
    requires -1 <= ax && ax + BULLET_SIZE - 2 < SCREEN_WIDTH
    requires 1 <= i <= BULLET_SIZE - 1
    requires i > 1 ==> 0 < ax && ax + BULLET_SIZE - 1 < SCREEN_WIDTH
    decreases BULLET_SIZE - i
    ensures var r := ScanSides(grid, ax, ay, i);
      r != Corner && r != North && r != South &&
      (r == NoRicochet <==> SidesClearFrom(grid, ax, ay, i)) &&
      (r == West ==> ax <= 0 || !ColumnOpen(grid, ax, ay + i, ay + BULLET_SIZE - 1))
  {
    if i < BULLET_SIZE - 1 && ax > 0 && grid[ay + i][ax] != 1
       && ax + BULLET_SIZE - 1 < SCREEN_WIDTH && grid[ay + i][ax + BULLET_SIZE - 1] != 1 {
      ScanSidesFindsWalls(grid, ax, ay, i + 1);
    }
  }

  /** The first loop of the scan: north then south edge, column by column. */
  function ScanRows(grid: Grid, ax: int, ay: int, i: int): (r: RicochetDir)
    requires WellFormed(grid) && -1 <= ax && ax + BULLET_SIZE - 2 < SCREEN_WIDTH
    requires ay < SCREEN_HEIGHT
    requires 1 <= i <= BULLET_SIZE - 1
    requires i > 1 ==> 0 < ay && ay + BULLET_SIZE - 1 < SCREEN_HEIGHT
    decreases BULLET_SIZE - i
  {
    if i == BULLET_SIZE - 1 then ScanSides(grid, ax, ay, 1)
    else if ay <= 0 || grid[ay][ax + i] == 1 then North
    else if ay + BULLET_SIZE - 1 >= SCREEN_HEIGHT || grid[ay + BULLET_SIZE - 1][ax + i] == 1 then South
    else ScanRows(grid, ax, ay, i + 1)
  }

  /**
   * The row scan from column offset i finds nothing exactly when the top
   * and bottom edges are open from there on and both side edges are open;
   * it reports North only for a blocked top edge, and never a corner.
   */
  lemma {:induction false} ScanRowsFindsWalls(grid: Grid, ax: int, ay: int, i: int)
    requires WellFormed(grid) && -1 <= ax && ax + BULLET_SIZE - 2 < SCREEN_WIDTH
    requires ay < SCREEN_HEIGHT
    requires 1 <= i <= BULLET_SIZE - 1
    requires i > 1 ==> 0 < ay && ay + BULLET_SIZE - 1 < SCREEN_HEIGHT
    decreases BULLET_SIZE - i
    ensures var r := ScanRows(grid, ax, ay, i);
      r != Corner &&
      (r == NoRicochet <==> RowsClearFrom(grid, ax, ay, i) && SidesClearFrom(grid, ax, ay, 1)) &&
      (r == North ==> ay <= 0 || !RowOpen(grid, ay, ax + i, ax + BULLET_SIZE - 1))
  {
    if i == BULLET_SIZE - 1 {
      if 0 < ay && ay + BULLET_SIZE - 1 < SCREEN_HEIGHT {
        ScanSidesFindsWalls(grid, ax, ay, 1);
      }
    } else if ay > 0 && grid[ay][ax + i] != 1
       && ay + BULLET_SIZE - 1 < SCREEN_HEIGHT && grid[ay + BULLET_SIZE - 1][ax + i] != 1 {
      ScanRowsFindsWalls(grid, ax, ay, i + 1);
    }
  }

  /**
   * Which wall, if any, the bullet meets at p. It answers NoRicochet exactly
   * when p is Clear, never Corner, and North only when the top edge is off
   * the screen or touches a wall.
   */
  function CheckForRicochet(grid: Grid, p: Position): (r: RicochetDir)
    requires WellFormed(grid) && Scannable(p)
    ensures r != Corner
    ensures r == NoRicochet <==> Clear(grid, p)
    ensures r == North ==>
      p.y + SPRITE_GAP <= 0 ||
      !RowOpen(grid, p.y + SPRITE_GAP, p.x + SPRITE_GAP + 1, p.x + SPRITE_GAP + BULLET_SIZE - 1)
  {
    ScanRowsFindsWalls(grid, p.x + SPRITE_GAP, p.y + SPRITE_GAP, 1);
    ScanRows(grid, p.x + SPRITE_GAP, p.y + SPRITE_GAP, 1)
  }

  /** Two grids with the same wall cells; the other codes may differ. */
  predicate SameWalls(g1: Grid, g2: Grid)
    requires WellFormed(g1) && WellFormed(g2)
  {
    forall y, x :: 0 <= y < SCREEN_HEIGHT && 0 <= x < SCREEN_WIDTH ==>
      (g1[y][x] == 1 <==> g2[y][x] == 1)
  }

  lemma {:induction false} ScanSidesSeesOnlyWalls(g1: Grid, g2: Grid, ax: int, ay: int, i: int)
    requires WellFormed(g1) && WellFormed(g2) && SameWalls(g1, g2)
    requires 0 < ay && ay + BULLET_SIZE - 1 < SCREEN_HEIGHT
    requires -1 <= ax && ax + BULLET_SIZE - 2 < SCREEN_WIDTH
    requires 1 <= i <= BULLET_SIZE - 1
    requires i > 1 ==> 0 < ax && ax + BULLET_SIZE - 1 < SCREEN_WIDTH
    decreases BULLET_SIZE - i
    ensures ScanSides(g1, ax, ay, i) == ScanSides(g2, ax, ay, i)
  {
    if i < BULLET_SIZE - 1 && ax > 0 && g1[ay + i][ax] != 1
       && ax + BULLET_SIZE - 1 < SCREEN_WIDTH && g1[ay + i][ax + BULLET_SIZE - 1] != 1 {
      ScanSidesSeesOnlyWalls(g1, g2, ax, ay, i + 1);
    }
  }

  lemma {:induction false} ScanRowsSeesOnlyWalls(g1: Grid, g2: Grid, ax: int, ay: int, i: int)
    requires WellFormed(g1) && WellFormed(g2) && SameWalls(g1, g2)
    requires -1 <= ax && ax + BULLET_SIZE - 2 < SCREEN_WIDTH && ay < SCREEN_HEIGHT
    requires 1 <= i <= BULLET_SIZE - 1
    requires i > 1 ==> 0 < ay && ay + BULLET_SIZE - 1 < SCREEN_HEIGHT
    decreases BULLET_SIZE - i
    ensures ScanRows(g1, ax, ay, i) == ScanRows(g2, ax, ay, i)
  {
    if i == BULLET_SIZE - 1 {
      ScanSidesSeesOnlyWalls(g1, g2, ax, ay, 1);
    } else if ay > 0 && g1[ay][ax + i] != 1
       && ay + BULLET_SIZE - 1 < SCREEN_HEIGHT && g1[ay + BULLET_SIZE - 1][ax + i] != 1 {
      ScanRowsSeesOnlyWalls(g1, g2, ax, ay, i + 1);
    }
  }

  /** Only wall cells (code 1) deflect bullets: codes 0, 2 and 3 are all open. */
  lemma RicochetSeesOnlyWalls(g1: Grid, g2: Grid, p: Position)
    requires WellFormed(g1) && WellFormed(g2) && SameWalls(g1, g2) && Scannable(p)
    ensures CheckForRicochet(g1, p) == CheckForRicochet(g2, p)
  {
    ScanRowsSeesOnlyWalls(g1, g2, p.x + SPRITE_GAP, p.y + SPRITE_GAP, 1);
  }

  /*---------------------------------------------------------------------------
   * One frame of movement
   *-------------------------------------------------------------------------*/

  /** The fields of a bullet, as one value. */
  datatype BulletState = BulletState(
    pos: Position,
    velocity: Velocity,
    subPixel: Velocity,
    direction: real,
    inFlight: bool,
    hasExploded: bool,
    numRicochets: int,
    hidden: bool,
    effectHidden: bool,
    speed: BulletSpeed,
    maxRicochets: int)

  /**
   * What holds of every bullet between calls: an idle bullet has no
   * ricochets and has not exploded, the ricochet budget is respected, a
   * bullet still moving sits where the next scans stay on the grid, and an
   * exploded bullet shows its effect until the effect ends.
   */
  predicate ValidState(b: BulletState)
  {
    0 <= b.numRicochets &&
    (b.numRicochets <= b.maxRicochets || b.numRicochets == 0) &&
    (!b.inFlight ==> b.numRicochets == 0 && !b.hasExploded) &&
    (b.inFlight && !b.hasExploded ==> Interior(b.pos)) &&
    (b.hasExploded ==> !b.effectHidden)
  }

  function Component(v: Velocity, axis: Axis): real
  {
    match axis
    case XAxis => v.x
    case YAxis => v.y
  }

  function WithComponent(v: Velocity, axis: Axis, c: real): Velocity
  {
    match axis
    case XAxis => Velocity(c, v.y)
    case YAxis => Velocity(v.x, c)
  }

  /** Whole pixels a sub-pixel amount allows: the step loop runs this many times at most. */
  function StepsOf(c: real): nat
  {
    if c >= 0.0 then c.Floor else (-c).Floor
  }

  /** Direction of each step. */
  function SignOf(c: real): int
  {
    if c > 0.0 then 1 else -1
  }

  /** k steps in direction s (s is 1 or -1), as a signed pixel offset. */
  function Signed(s: int, k: int): int
  {
    if s > 0 then k else -k
  }

  /** The position k one-pixel steps from p along `axis` in direction s. */
  function Walk(p: Position, axis: Axis, s: int, k: int): Position
  {
    Shift(p, axis, Signed(s, k))
  }

  /** One step then k more is k + 1 steps. */
  lemma WalkShift(p: Position, axis: Axis, s: int, k: nat)
    requires s == 1 || s == -1
    ensures Walk(Shift(p, axis, s), axis, s, k) == Walk(p, axis, s, k + 1)
  {
  }

  /** The coordinate of p along `axis`. */
  function Coord(p: Position, axis: Axis): int
  {
    match axis
    case XAxis => p.x
    case YAxis => p.y
  }

  /**
   * The bullet state after a heading change: velocity recomputed from the
   * heading at the bullet's speed, sub-pixel remainder cleared.
   */
  function WithHeading(b: BulletState, direction: real, unit: real -> Velocity): BulletState
  {
    b.(direction := direction,
       velocity := Scale(unit(direction), SpeedValue(b.speed)),
       subPixel := Velocity(0.0, 0.0))
  }

  /**
   * A step met `wall`. The effect is shown; with ricochets left the bullet
   * spends one and turns to the reflected heading with a fresh sub-pixel
   * count, with none left it explodes where it stands.
   */
  function Bounce(b: BulletState, wall: RicochetDir, unit: real -> Velocity): (r: BulletState)
    ensures !r.effectHidden && r.pos == b.pos && r.inFlight == b.inFlight
    ensures r.speed == b.speed && r.maxRicochets == b.maxRicochets
    ensures b.numRicochets < b.maxRicochets ==>
      r.numRicochets == b.numRicochets + 1 && r.hasExploded == b.hasExploded &&
      r.direction == ReflectionDirection(b.direction, wall) &&
      r.velocity == Scale(unit(r.direction), SpeedValue(b.speed)) &&
      r.subPixel == Velocity(0.0, 0.0)
    ensures b.numRicochets >= b.maxRicochets ==>
      r.hasExploded && r.numRicochets == b.numRicochets && r.direction == b.direction
  {
    var shown := b.(effectHidden := false);
    if shown.numRicochets < shown.maxRicochets then
      WithHeading(shown.(numRicochets := shown.numRicochets + 1),
                  ReflectionDirection(shown.direction, wall), unit)
    else
      shown.(hasExploded := true)
  }

  /**
   * r records exactly one wall hit after b: the effect shows, and either one
   * ricochet was spent within the budget or the bullet exploded without one.
   */
  predicate OneHit(b: BulletState, r: BulletState)
  {
    !r.effectHidden &&
    ((b.numRicochets < b.maxRicochets && r.numRicochets == b.numRicochets + 1 &&
      r.hasExploded == b.hasExploded) ||
     (b.numRicochets >= b.maxRicochets && r.hasExploded && r.numRicochets == b.numRicochets))
  }

  /** Outcome of one axis loop: the new state, the last position reached, whether it hit. */
  datatype AxisOutcome = AxisOutcome(state: BulletState, reached: Position, hit: bool)

  function OtherAxis(axis: Axis): Axis
  {
    match axis
    case XAxis => YAxis
    case YAxis => XAxis
  }

  /** What one axis loop leaves behind: position reached, sub-pixel amount left, the wall met. */
  datatype Scan = Scan(reached: Position, rest: real, hit: bool, wall: RicochetDir)

  /**
   * One axis loop from p over the sub-pixel amount c: while a whole pixel
   * is left, look one pixel further; a wall there ends the loop with a hit,
   * otherwise the bullet takes that pixel and consumes it. The position
   * reached is p or a Clear one, a hit names the wall met, and without a
   * hit less than one pixel is left.
   */
  function AxisScan(grid: Grid, p: Position, axis: Axis, c: real): (r: Scan)
    requires WellFormed(grid) && Interior(p)
    decreases StepsOf(c)
    ensures Interior(r.reached)
    ensures Coord(r.reached, OtherAxis(axis)) == Coord(p, OtherAxis(axis))
    ensures !r.hit ==> -1.0 < r.rest < 1.0
    ensures r.hit <==> r.wall != NoRicochet
  {
    if -1.0 < c < 1.0 then Scan(p, c, false, NoRicochet)
    else
      var step := SignOf(c);
      InteriorNeighbours(p, axis, step);
      var q := Shift(p, axis, step);
      var wall := CheckForRicochet(grid, q);
      if wall != NoRicochet then Scan(p, c, true, wall)
      else
        ClearIsInterior(grid, q);
        AxisScan(grid, q, axis, c - (step as real))
  }

  /** A step consumes one whole pixel and, while pixels remain, keeps its direction. */
  lemma StepConsumes(c: real)
    requires c >= 1.0 || c <= -1.0
    ensures StepsOf(c - (SignOf(c) as real)) == StepsOf(c) - 1
    ensures StepsOf(c) >= 2 ==> SignOf(c - (SignOf(c) as real)) == SignOf(c)
  {
  }

  /** The loop only ever rests where it started or on a Clear position. */
  lemma {:induction false} ScanRestsOnClear(grid: Grid, p: Position, axis: Axis, c: real)
    requires WellFormed(grid) && Interior(p)
    decreases StepsOf(c)
    ensures var r := AxisScan(grid, p, axis, c);
      r.reached == p || Clear(grid, r.reached)
  {
    if !(-1.0 < c < 1.0) {
      var step := SignOf(c);
      InteriorNeighbours(p, axis, step);
      var q := Shift(p, axis, step);
      if CheckForRicochet(grid, q) == NoRicochet {
        ClearIsInterior(grid, q);
        ScanRestsOnClear(grid, q, axis, c - (step as real));
      }
    }
  }

  lemma CoordShift(p: Position, axis: Axis, d: int)
    ensures Coord(Shift(p, axis, d), axis) == Coord(p, axis) + d
  {
  }

  /**
   * No tunnelling: if the j-th pixel ahead (within the whole pixels c
   * allows) is not Clear, the loop hits a wall and stops less than j pixels
   * from p.
   */
  lemma {:induction false} ScanStopsBeforeWall(grid: Grid, p: Position, axis: Axis, c: real, j: int)
    requires WellFormed(grid) && Interior(p)
    requires 1 <= j <= StepsOf(c) && !Clear(grid, Walk(p, axis, SignOf(c), j))
    decreases j
    ensures var r := AxisScan(grid, p, axis, c);
      r.hit && -j < Coord(r.reached, axis) - Coord(p, axis) < j
  {
    var step := SignOf(c);
    InteriorNeighbours(p, axis, step);
    var q := Shift(p, axis, step);
    WalkShift(p, axis, step, j - 1);
    if j == 1 {
      assert Walk(q, axis, step, 0) == q;
      assert CheckForRicochet(grid, q) != NoRicochet;
    } else if CheckForRicochet(grid, q) == NoRicochet {
      ClearIsInterior(grid, q);
      StepConsumes(c);
      var r := AxisScan(grid, q, axis, c - (step as real));
      ScanStopsBeforeWall(grid, q, axis, c - (step as real), j - 1);
      assert AxisScan(grid, p, axis, c) == r;
      CoordShift(p, axis, step);
    }
  }

  /**
   * An unobstructed scan travels: without a hit the loop takes every whole
   * pixel c allows, in c's direction, and keeps only what those pixels did
   * not consume.
   */
  lemma {:induction false} ScanTravels(grid: Grid, p: Position, axis: Axis, c: real)
    requires WellFormed(grid) && Interior(p)
    decreases StepsOf(c)
    ensures var r := AxisScan(grid, p, axis, c);
      !r.hit ==>
        r.reached == Walk(p, axis, SignOf(c), StepsOf(c)) &&
        r.rest == c - (Signed(SignOf(c), StepsOf(c)) as real)
  {
    if -1.0 < c < 1.0 {
      assert StepsOf(c) == 0;
    } else {
      var step := SignOf(c);
      InteriorNeighbours(p, axis, step);
      var q := Shift(p, axis, step);
      if CheckForRicochet(grid, q) == NoRicochet {
        ClearIsInterior(grid, q);
        var c' := c - (step as real);
        var k := StepsOf(c);
        var r := AxisScan(grid, q, axis, c');
        assert AxisScan(grid, p, axis, c) == r;
        StepConsumes(c);
        ScanTravels(grid, q, axis, c');
        if k >= 2 {
          WalkShift(p, axis, step, k - 1);
          assert Signed(step, k) == step + Signed(step, k - 1);
        } else {
          assert StepsOf(c') == 0 && Signed(step, k) == step;
          assert Walk(q, axis, SignOf(c'), 0) == Walk(p, axis, step, 1);
        }
      }
    }
  }

  /**
   * One axis loop: take whole-pixel steps while the sub-pixel amount allows,
   * consuming one pixel of it per step, until a step meets a wall. The
   * position reached is the start or a Clear one; without a hit less than
   * one pixel of movement is left on this axis and the other is untouched.
   */
  function StepAxis(b: BulletState, start: Position, axis: Axis, grid: Grid,
                    unit: real -> Velocity): (o: AxisOutcome)
    requires WellFormed(grid) && Interior(start)
    ensures Interior(o.reached)
    ensures o.state.pos == b.pos && o.state.inFlight == b.inFlight
    ensures o.state.speed == b.speed && o.state.maxRicochets == b.maxRicochets
    ensures !o.hit ==>
      o.state.numRicochets == b.numRicochets && o.state.hasExploded == b.hasExploded &&
      o.state.effectHidden == b.effectHidden &&
      -1.0 < Component(o.state.subPixel, axis) < 1.0 &&
      Component(o.state.subPixel, OtherAxis(axis)) == Component(b.subPixel, OtherAxis(axis))
    ensures o.hit ==> OneHit(b, o.state)
  {
    var sc := AxisScan(grid, start, axis, Component(b.subPixel, axis));
    var moved := b.(subPixel := WithComponent(b.subPixel, axis, sc.rest));
    if sc.hit then AxisOutcome(Bounce(moved, sc.wall, unit), sc.reached, true)
    else AxisOutcome(moved, sc.reached, false)
  }

  /** The frame's velocity added to the sub-pixel amounts, before any step is taken. */
  function Fed(b: BulletState): BulletState
  {
    b.(subPixel := Velocity(b.subPixel.x + b.velocity.x, b.subPixel.y + b.velocity.y))
  }

  /**
   * The movement part of a frame: X steps first, then Y steps unless X hit.
   * The bullet ends at its old position or a Clear one, and either met no
   * wall (counters and flags unchanged) or met exactly one.
   */
  function Advance(b: BulletState, grid: Grid, unit: real -> Velocity): (r: BulletState)
    requires WellFormed(grid) && Interior(b.pos)
    ensures r.inFlight == b.inFlight && r.speed == b.speed && r.maxRicochets == b.maxRicochets
    ensures Interior(r.pos)
    ensures (r.numRicochets == b.numRicochets && r.hasExploded == b.hasExploded &&
             r.effectHidden == b.effectHidden) || OneHit(b, r)
  {
    var fed := Fed(b);
    var ox := StepAxis(fed, b.pos, XAxis, grid, unit);
    if ox.hit then ox.state.(pos := ox.reached)
    else
      var oy := StepAxis(ox.state, ox.reached, YAxis, grid, unit);
      oy.state.(pos := oy.reached)
  }

  /** An idle bullet: hidden, parked at the origin, heading and counters cleared. */
  function ResetState(b: BulletState): BulletState
  {
    b.(inFlight := false, hidden := true, hasExploded := false, direction := 0.0,
       numRicochets := 0, pos := Position(0, 0), velocity := Velocity(0.0, 0.0),
       subPixel := Velocity(0.0, 0.0))
  }

  function ExplodeState(b: BulletState): BulletState
  {
    b.(effectHidden := false, hasExploded := true)
  }

  /** A launched bullet: in flight and visible at the spawn, with its heading set. */
  function FireState(b: BulletState, spawn: Position, heading: real, unit: real -> Velocity)
    : BulletState
  {
    WithHeading(b.(inFlight := true, hidden := false, pos := spawn, effectHidden := false),
                heading, unit)
  }

  /**
   * One frame of a bullet. An idle bullet does nothing. While the ricochet
   * effect shows, it advances one animation step (`effectFinished` says
   * whether that step ends the animation and hides it); an exploded bullet
   * then hides and, once its effect has ended, resets, and does not move.
   * Otherwise the bullet moves.
   */
  function UpdateSpec(b: BulletState, grid: Grid, unit: real -> Velocity, effectFinished: bool)
    : (r: BulletState)
    requires WellFormed(grid) && ValidState(b)
    ensures r.speed == b.speed && r.maxRicochets == b.maxRicochets
    ensures !b.inFlight ==> r == b
  {
    if !b.inFlight then b
    else
      var animated := if !b.effectHidden then b.(effectHidden := effectFinished) else b;
      if !b.effectHidden && animated.hasExploded then
        var hiddenNow := animated.(hidden := true);
        if hiddenNow.effectHidden then ResetState(hiddenNow) else hiddenNow
      else
        Advance(animated, grid, unit)
  }

  /**
   * A frame keeps a bullet valid: the ricochet count never exceeds the
   * budget, grows by at most one, and an exploded bullet either still shows
   * its effect or has been reset to idle.
   */
  lemma UpdateKeepsValid(b: BulletState, grid: Grid, unit: real -> Velocity, effectFinished: bool)
    requires WellFormed(grid) && ValidState(b)
    ensures var r := UpdateSpec(b, grid, unit, effectFinished);
      ValidState(r) && r.speed == b.speed && r.maxRicochets == b.maxRicochets &&
      (r.inFlight ==> b.numRicochets <= r.numRicochets <= b.numRicochets + 1) &&
      (b.hasExploded ==> r.hasExploded == r.inFlight)
  {
  }

  /**
   * No tunnelling: if the j-th pixel along the X path (within this frame's
   * whole-pixel allowance) meets a wall, the bullet stops before it and
   * either ricochets or explodes.
   */
  lemma StopsBeforeFirstWall(b: BulletState, grid: Grid, unit: real -> Velocity, j: int)
    requires WellFormed(grid) && Interior(b.pos)
    requires var c := b.subPixel.x + b.velocity.x;
      1 <= j <= StepsOf(c) && !Clear(grid, Walk(b.pos, XAxis, SignOf(c), j))
    ensures var r := Advance(b, grid, unit);
      -j < r.pos.x - b.pos.x < j && r.pos.y == b.pos.y &&
      (r.numRicochets == b.numRicochets + 1 || r.hasExploded)
  {
    ScanStopsBeforeWall(grid, b.pos, XAxis, b.subPixel.x + b.velocity.x, j);
    var ox := StepAxis(Fed(b), b.pos, XAxis, grid, unit);
    assert ox.hit;
    assert Advance(b, grid, unit) == ox.state.(pos := ox.reached);
  }

  /**
   * A bullet that meets nothing ends the frame with less than one pixel of
   * sub-pixel movement left on each axis, at a Clear position or where it was.
   */
  lemma UnobstructedLeavesFraction(b: BulletState, grid: Grid, unit: real -> Velocity)
    requires WellFormed(grid) && Interior(b.pos) && !b.hasExploded
    ensures var r := Advance(b, grid, unit);
      r.numRicochets == b.numRicochets && !r.hasExploded ==>
        -1.0 < r.subPixel.x < 1.0 && -1.0 < r.subPixel.y < 1.0
  {
    var ox := StepAxis(Fed(b), b.pos, XAxis, grid, unit);
    if !ox.hit {
      var oy := StepAxis(ox.state, ox.reached, YAxis, grid, unit);
    }
  }

  /**
   * A bullet that meets nothing travels: it takes every whole pixel its
   * accumulated x movement allows along x, then every whole pixel of its y
   * movement along y, and keeps the unconsumed fractions.
   */
  lemma UnobstructedTravels(b: BulletState, grid: Grid, unit: real -> Velocity)
    requires WellFormed(grid) && Interior(b.pos) && !b.hasExploded
    ensures var r := Advance(b, grid, unit);
      var cx := b.subPixel.x + b.velocity.x;
      var cy := b.subPixel.y + b.velocity.y;
      r.numRicochets == b.numRicochets && !r.hasExploded ==>
        r.pos == Walk(Walk(b.pos, XAxis, SignOf(cx), StepsOf(cx)), YAxis, SignOf(cy), StepsOf(cy)) &&
        r.subPixel == Velocity(cx - (Signed(SignOf(cx), StepsOf(cx)) as real),
                               cy - (Signed(SignOf(cy), StepsOf(cy)) as real))
  {
    var fed := Fed(b);
    ScanTravels(grid, b.pos, XAxis, fed.subPixel.x);
    var ox := StepAxis(fed, b.pos, XAxis, grid, unit);
    if !ox.hit {
      ScanTravels(grid, ox.reached, YAxis, ox.state.subPixel.y);
      var oy := StepAxis(ox.state, ox.reached, YAxis, grid, unit);
    }
  }

  /** Wherever a frame leaves a bullet, it is where it was or on a Clear position. */
  lemma AdvanceRestsOnClear(b: BulletState, grid: Grid, unit: real -> Velocity)
    requires WellFormed(grid) && Interior(b.pos)
    ensures var r := Advance(b, grid, unit);
      r.pos == b.pos || Clear(grid, r.pos)
  {
    var fed := Fed(b);
    ScanRestsOnClear(grid, b.pos, XAxis, Component(fed.subPixel, XAxis));
    var ox := StepAxis(fed, b.pos, XAxis, grid, unit);
    if !ox.hit {
      ScanRestsOnClear(grid, ox.reached, YAxis, Component(ox.state.subPixel, YAxis));
    }
  }


  /**
   * The stepping loop of one axis: while at least a whole pixel of `c0`
   * is left, step one pixel, stop if the new position meets a wall, else
   * take it and consume one pixel.
   */
  method ScanAxis(grid: Grid, start: Position, axis: Axis, c0: real)
    returns (reached: Position, c: real, collision: bool, wall: RicochetDir)
    requires WellFormed(grid) && Interior(start)
    ensures Scan(reached, c, collision, wall) == AxisScan(grid, start, axis, c0)
  {
    c := c0;
    reached := start;
    collision := false;
    wall := NoRicochet;
    while c >= 1.0 || c <= -1.0
      invariant Interior(reached)
      invariant AxisScan(grid, start, axis, c0) == AxisScan(grid, reached, axis, c)
      invariant wall == NoRicochet
      decreases StepsOf(c)
    {
      var step := if c > 0.0 then 1 else -1;
      InteriorNeighbours(reached, axis, step);
      var stepPos := Shift(reached, axis, step);
      wall := CheckForRicochet(grid, stepPos);
      if wall != NoRicochet {
        collision := true;
        break;
      }
      ClearIsInterior(grid, stepPos);
      reached := stepPos;
      c := c + (if step > 0 then -1.0 else 1.0);
    }
  }

  /*---------------------------------------------------------------------------
   * The bullet object
   *-------------------------------------------------------------------------*/

  class Bullet {
    const speed: BulletSpeed
    const maxRicochets: int

    var pos: Position
    var velocity: Velocity
    var subPixel: Velocity
    var direction: real
    var inFlight: bool
    var hasExploded: bool
    var numRicochets: int
    /** The bullet sprite's hide flag. */
    var hidden: bool
    /** The ricochet effect sprite's hide flag. */
    var effectHidden: bool

    ghost function State(): BulletState
      reads this
    {
      BulletState(pos, velocity, subPixel, direction, inFlight, hasExploded,
                  numRicochets, hidden, effectHidden, speed, maxRicochets)
    }

    ghost predicate Valid()
      reads this
    {
      ValidState(State())
    }

    /** A new bullet is idle and hidden, with its effect hidden too. */
    constructor(speed: BulletSpeed, maxRicochets: int)
      ensures Valid()
      ensures State() == BulletState(Position(0, 0), Velocity(0.0, 0.0), Velocity(0.0, 0.0),
                                     0.0, false, false, 0, true, true, speed, maxRicochets)
    {
      this.speed := speed;
      this.maxRicochets := maxRicochets;
      pos := Position(0, 0);
      velocity := Velocity(0.0, 0.0);
      subPixel := Velocity(0.0, 0.0);
      direction := 0.0;
      inFlight := false;
      hasExploded := false;
      numRicochets := 0;
      hidden := true;
      effectHidden := true;
    }

    method UpdateDirection(newDirection: real, unit: real -> Velocity)
      modifies this
      ensures State() == WithHeading(old(State()), newDirection, unit)
    {
      direction := newDirection;
      var u := unit(newDirection);
      velocity := Scale(u, SpeedValue(speed));
      subPixel := Velocity(0.0, 0.0);
    }

    method Reset()
      modifies this
      ensures State() == ResetState(old(State()))
    {
      inFlight := false;
      hidden := true;
      hasExploded := false;
      direction := 0.0;
      numRicochets := 0;
      pos := Position(0, 0);
      velocity := Velocity(0.0, 0.0);
      subPixel := Velocity(0.0, 0.0);
    }

    /**
     * Launch from `spawn` (the tank's muzzle) along the turret heading. The
     * ricochet count and exploded flag are not cleared here.
     */
    method Fire(spawn: Position, heading: real, unit: real -> Velocity)
      requires Valid() && Interior(spawn)
      modifies this
      ensures Valid()
      ensures State() == FireState(old(State()), spawn, heading, unit)
    {
      inFlight := true;
      hidden := false;
      pos := spawn;
      effectHidden := false;
      UpdateDirection(heading, unit);
    }

    method Explode()
      modifies this
      ensures State() == ExplodeState(old(State()))
    {
      effectHidden := false;
      hasExploded := true;
    }

    /** The hit branch of both step loops. */
    method Ricochet(wall: RicochetDir, unit: real -> Velocity)
      modifies this
      ensures State() == Bounce(old(State()), wall, unit)
    {
      effectHidden := false;
      if numRicochets < maxRicochets {
        numRicochets := numRicochets + 1;
        var newDirection := ReflectionDirection(direction, wall);
        UpdateDirection(newDirection, unit);
      } else {
        Explode();
      }
    }

    /**
     * One axis loop of the frame, from `start`. Returns the last position
     * reached and whether a step met a wall (the Y loop's caller ignores it).
     * The sub-pixel amount left is written back before reacting to the wall,
     * which is the order the fields change in when the loop breaks on a hit.
     */
    method StepLoop(axis: Axis, start: Position, grid: Grid, unit: real -> Velocity)
      returns (reached: Position, collision: bool)
      requires WellFormed(grid) && Interior(start)
      modifies this
      ensures State() == StepAxis(old(State()), start, axis, grid, unit).state
      ensures reached == StepAxis(old(State()), start, axis, grid, unit).reached
      ensures collision == StepAxis(old(State()), start, axis, grid, unit).hit
    {
      var reachedAt, c, hit, wall := ScanAxis(grid, start, axis, Component(subPixel, axis));
      subPixel := WithComponent(subPixel, axis, c);
      if hit {
        Ricochet(wall, unit);
      }
      reached, collision := reachedAt, hit;
    }

    /**
     * The movement part of a frame: feed the velocity into the sub-pixel
     * amounts, run the X loop, then the Y loop from where X stopped unless
     * X met a wall, and commit the position reached.
     */
    method Move(grid: Grid, unit: real -> Velocity)
      requires WellFormed(grid) && Interior(pos)
      modifies this
      ensures State() == Advance(old(State()), grid, unit)
    {
      ghost var fed := Fed(State());
      ghost var ox := StepAxis(fed, fed.pos, XAxis, grid, unit);
      subPixel := Velocity(subPixel.x + velocity.x, subPixel.y + velocity.y);
      assert State() == fed;
      var start := pos;
      var reachedX, collision := StepLoop(XAxis, start, grid, unit);
      var newPos := reachedX;
      if !collision {
        ghost var oy := StepAxis(ox.state, ox.reached, YAxis, grid, unit);
        var reachedY, _ := StepLoop(YAxis, reachedX, grid, unit);
        newPos := reachedY;
        assert State().(pos := newPos) == oy.state.(pos := oy.reached);
      } else {
        assert State().(pos := newPos) == ox.state.(pos := ox.reached);
      }
      pos := newPos;
    }

    /**
     * One frame of the bullet: the effect animation, the end of an explosion,
     * or the pixel-by-pixel move.
     */
    method UpdatePosition(grid: Grid, unit: real -> Velocity, effectFinished: bool)
      requires WellFormed(grid) && Valid()
      modifies this
      ensures Valid()
      ensures State() == UpdateSpec(old(State()), grid, unit, effectFinished)
    {
      ghost var b0 := State();
      UpdateKeepsValid(b0, grid, unit, effectFinished);
      if !inFlight {
        return;
      }
      ghost var animated := if !b0.effectHidden then b0.(effectHidden := effectFinished) else b0;
      if !effectHidden {
        if effectFinished {
          effectHidden := true;
        }
        if hasExploded {
          hidden := true;
          if effectHidden {
            Reset();
          }
          return;
        }
      }
      assert State() == animated;
      Move(grid, unit);
    }
  }
}
