/**
 * The sprite revisions of the game, before the tank became a class: the
 * movement code of v2_sprites_and_backgrounds/source/main.cpp, copied
 * unchanged into v3_projectiles/source/main.cpp, and the by-value variant
 * of its validation in v3_projectiles/source/input.cpp.
 *
 * Two tanks live in a global array; the player's tank (slot 0) moves one
 * pixel per axis per frame, Y first and then X from the updated position,
 * each candidate checked against the screen, the other tanks and the wall
 * cells (code 1) of the stage grid. The direction is an integer code
 * 0..7 (N, NE, E, SE, S, SW, W, NW) that the sprite update turns into a
 * rotation angle, and the body animation steps every ANIMATION_SPEED
 * frames while an arrow is held.
 */
module SpriteRevision {
  import opened Geometry
  import opened TankDefs
  import opened Tanks
  import opened Input

  const MAX_TANKS: int := 2
  const ANIMATION_SPEED: int := 2

  /** The fields of the revision's Tank struct that the game logic reads or writes. */
  datatype SpriteTank = SpriteTank(pos: Position, color: int, animFrame: int, width: int, height: int,
                                   direction: int)

  /** createTank: a 16 x 16 tank facing code 0 on animation frame 0. */
  function NewSpriteTank(x: int, y: int, color: int): (t: SpriteTank)
    ensures t.pos == Position(x, y) && t.color == color
    ensures t.width == TANK_SIZE && t.height == TANK_SIZE && t.direction == 0 && t.animFrame == 0
  {
    SpriteTank(Position(x, y), color, 0, TANK_SIZE, TANK_SIZE, 0)
  }

  /**
   * What the tank loop of the validation sees of the array: each slot's box,
   * and whether that slot is the very object being moved. `self` is the
   * slot of the mover, or -1 when no slot is (the list is a copy).
   */
  function Boxes(tanks: seq<SpriteTank>, self: int): (r: seq<TankBox>)
    ensures |r| == |tanks|
    ensures forall i :: 0 <= i < |r| ==>
      r[i] == TankBox(tanks[i].pos, tanks[i].width, tanks[i].height, i == self)
  {
    seq(|tanks|, i requires 0 <= i < |tanks| =>
      TankBox(tanks[i].pos, tanks[i].width, tanks[i].height, i == self))
  }

  /*-------------------------------------------------------------------------
   * Validation
   *-------------------------------------------------------------------------*/

  /**
   * The barrier test of these revisions: a box reaching off screen counts
   * as blocked, and otherwise only a corner cell holding a wall (code 1)
   * blocks.
   */
  function NoWallCollisions(p: Position, w: int, h: int, grid: Grid): (r: bool)
    requires WellFormed(grid) && w >= 1 && h >= 1
    ensures r ==> WithinBounds(p, w, h)
    ensures WithinBounds(p, w, h) && (forall px, py :: InBox(px, py, p, w, h) ==> grid[py][px] != 1) ==> r
  {
    var x1 := p.x;
    var y1 := p.y;
    var x2 := p.x + w - 1;
    var y2 := p.y + h - 1;
    if x1 < 0 || y1 < 0 || x2 >= SCREEN_WIDTH || y2 >= SCREEN_HEIGHT then false
    else if grid[y1][x1] == 1 || grid[y1][x2] == 1 || grid[y2][x1] == 1 || grid[y2][x2] == 1 then false
    else true
  }

  /** The box is on screen and none of its four corner cells is a wall. */
  lemma NoWallCollisionsMeans(p: Position, w: int, h: int, grid: Grid)
    requires WellFormed(grid) && w >= 1 && h >= 1
    ensures NoWallCollisions(p, w, h, grid) <==>
      WithinBounds(p, w, h) &&
      forall px, py :: IsCorner(px, py, p, w, h) && OnScreen(px, py) ==> grid[py][px] != 1
  {
    var x2 := p.x + w - 1;
    var y2 := p.y + h - 1;
    if WithinBounds(p, w, h) && !NoWallCollisions(p, w, h, grid) {
      if grid[p.y][p.x] == 1 {
        assert IsCorner(p.x, p.y, p, w, h);
      } else if grid[p.y][x2] == 1 {
        assert IsCorner(x2, p.y, p, w, h);
      } else if grid[y2][p.x] == 1 {
        assert IsCorner(p.x, y2, p, w, h);
      } else {
        assert IsCorner(x2, y2, p, w, h);
      }
    }
  }

  /** validateInput: on screen, clear of every other tank, no wall corner. */
  function ValidateInput(p: Position, w: int, h: int, tanks: seq<SpriteTank>, self: int, grid: Grid): (r: bool)
    requires WellFormed(grid) && w >= 1 && h >= 1
    ensures r ==> forall px, py :: InBox(px, py, p, w, h) ==> OnScreen(px, py)
    ensures r ==> forall i :: 0 <= i < |tanks| && i != self ==>
                    !Overlap(p, w, h, tanks[i].pos, tanks[i].width, tanks[i].height)
  {
    WithinBounds(p, w, h) && NoTanksCollided(p, w, h, Boxes(tanks, self)) && NoWallCollisions(p, w, h, grid)
  }

  /**
   * The production tank's validation is this one plus holes: it accepts a
   * place exactly when this revision does and no corner cell is a hole
   * (code 2).
   */
  lemma ProductionAddsHoles(p: Position, w: int, h: int, tanks: seq<SpriteTank>, self: int, grid: Grid)
    requires WellFormed(grid) && w >= 1 && h >= 1
    ensures ValidMove(p, w, h, Boxes(tanks, self), grid) <==>
      ValidateInput(p, w, h, tanks, self, grid) &&
      forall px, py :: IsCorner(px, py, p, w, h) && OnScreen(px, py) ==> grid[py][px] != 2
  {
    var x2 := p.x + w - 1;
    var y2 := p.y + h - 1;
    NoWallCollisionsMeans(p, w, h, grid);
    if ValidateInput(p, w, h, tanks, self, grid) && !ValidMove(p, w, h, Boxes(tanks, self), grid) {
      if grid[p.y][p.x] == 2 {
        assert IsCorner(p.x, p.y, p, w, h);
      } else if grid[p.y][x2] == 2 {
        assert IsCorner(x2, p.y, p, w, h);
      } else if grid[y2][p.x] == 2 {
        assert IsCorner(p.x, y2, p, w, h);
      } else {
        assert IsCorner(x2, y2, p, w, h);
      }
    }
  }

  /**
   * The mover's own slot never decides the verdict: whatever that slot
   * holds, the validation answers the same.
   */
  lemma MoverNeverBlocksItself(p: Position, w: int, h: int, tanks: seq<SpriteTank>, self: int,
                               t: SpriteTank, grid: Grid)
    requires WellFormed(grid) && w >= 1 && h >= 1 && 0 <= self < |tanks|
    ensures ValidateInput(p, w, h, tanks[self := t], self, grid) == ValidateInput(p, w, h, tanks, self, grid)
  {
    SelfIsIgnored(p, w, h, Boxes(tanks[self := t], self), Boxes(tanks, self), grid);
  }

  /**
   * validateInput of v3_projectiles/source/input.cpp: the tank list is a
   * copy, so the address test that should skip the mover never matches
   * and every slot, the mover's included, is compared.
   */
  function ValidateInputByValue(p: Position, w: int, h: int, tanks: seq<SpriteTank>, grid: Grid): (r: bool)
    requires WellFormed(grid) && w >= 1 && h >= 1
    ensures r ==> forall i :: 0 <= i < |tanks| ==>
                    !Overlap(p, w, h, tanks[i].pos, tanks[i].width, tanks[i].height)
  {
    WithinBounds(p, w, h) && NoTanksCollided(p, w, h, Boxes(tanks, -1)) && NoWallCollisions(p, w, h, grid)
  }

  /**
   * With the list copied, a tank blocks itself: every place less than 16
   * pixels from where it stands, on both axes (so every one-pixel step and
   * standing still), is rejected.
   */
  lemma ByValueBlocksOwnNeighbourhood(q: Position, tanks: seq<SpriteTank>, self: int, grid: Grid)
    requires WellFormed(grid) && 0 <= self < |tanks|
    requires tanks[self].width == TANK_SIZE && tanks[self].height == TANK_SIZE
    requires -TANK_SIZE < q.x - tanks[self].pos.x < TANK_SIZE && -TANK_SIZE < q.y - tanks[self].pos.y < TANK_SIZE
    ensures !ValidateInputByValue(q, TANK_SIZE, TANK_SIZE, tanks, grid)
  {
    var b := Boxes(tanks, -1);
    assert !b[self].isSelf;
    assert Overlap(q, TANK_SIZE, TANK_SIZE, b[self].pos, b[self].width, b[self].height);
  }

  /*-------------------------------------------------------------------------
   * Direction codes, angles, animation
   *-------------------------------------------------------------------------*/

  /** The compass direction of a code 0..7, the inverse of CompassIndex. */
  function CompassDirection(c: int): (d: Direction)
    requires 0 <= c < 8
    ensures CompassIndex(d) == c
  {
    if c == 0 then N else if c == 1 then NE else if c == 2 then E else if c == 3 then SE
    else if c == 4 then S else if c == 5 then SW else if c == 6 then W else NW
  }

  predicate HorizontalHeld(keys: bv32)
  {
    Pressed(keys, KEY_LEFT) || Pressed(keys, KEY_RIGHT)
  }

  /**
   * The direction code after the handler's assignments, later ones
   * overwriting earlier ones: UP gives 0, then DOWN 4, then LEFT 7/5/6 and
   * then RIGHT 1/3/2 by the vertical key held (UP first). So RIGHT wins
   * over LEFT, DOWN over UP when no horizontal key is held, and UP over
   * DOWN on a diagonal; with no arrow held the code is unchanged.
   */
  function DirectionCode(keys: bv32, current: int): (c: int)
    ensures !ArrowHeld(keys) ==> c == current
    ensures ArrowHeld(keys) ==> 0 <= c < 8
    ensures ArrowHeld(keys) ==>
      XSign(CompassDirection(c)) ==
        (if Pressed(keys, KEY_RIGHT) then 1 else if Pressed(keys, KEY_LEFT) then -1 else 0)
    ensures ArrowHeld(keys) ==>
      YSign(CompassDirection(c)) ==
        (if HorizontalHeld(keys) then (if Pressed(keys, KEY_UP) then -1 else if Pressed(keys, KEY_DOWN) then 1 else 0)
         else if Pressed(keys, KEY_DOWN) then 1 else -1)
  {
    var c0 := if Pressed(keys, KEY_UP) then 0 else current;
    var c1 := if Pressed(keys, KEY_DOWN) then 4 else c0;
    var c2 := if Pressed(keys, KEY_LEFT) then
                (if Pressed(keys, KEY_UP) then 7 else if Pressed(keys, KEY_DOWN) then 5 else 6)
              else c1;
    if Pressed(keys, KEY_RIGHT) then
      (if Pressed(keys, KEY_UP) then 1 else if Pressed(keys, KEY_DOWN) then 3 else 2)
    else c2
  }

  /**
   * With no pair of opposite arrows held, this revision picks the same
   * direction as the production handler.
   */
  lemma DirectionCodeMatchesProduction(keys: bv32, current: Direction)
    requires ArrowHeld(keys)
    requires !(Pressed(keys, KEY_UP) && Pressed(keys, KEY_DOWN))
    requires !(Pressed(keys, KEY_LEFT) && Pressed(keys, KEY_RIGHT))
    ensures DirectionCode(keys, CompassIndex(current)) == CompassIndex(ResolveDirection(keys, current))
  {
    var c := DirectionCode(keys, CompassIndex(current));
    ComponentsDetermineDirection(CompassDirection(c), ResolveDirection(keys, current));
  }

  /**
   * Opposite arrows are resolved the other way round: UP with DOWN faces
   * south here and north in production, LEFT with RIGHT east here and west
   * in production.
   */
  lemma OppositeArrowsDisagree(current: Direction)
    ensures DirectionCode(KEY_UP | KEY_DOWN, CompassIndex(current)) == CompassIndex(S)
    ensures ResolveDirection(KEY_UP | KEY_DOWN, current) == N
    ensures DirectionCode(KEY_LEFT | KEY_RIGHT, CompassIndex(current)) == CompassIndex(E)
    ensures ResolveDirection(KEY_LEFT | KEY_RIGHT, current) == W
  {
  }

  /** The sprite update's switch from direction code to rotation angle (0 for other codes). */
  function DirectionAngle(code: int): (a: int)
    ensures 0 <= a < 360 && a % 45 == 0
    ensures !(0 <= code < 8) ==> a == 0
  {
    match code
    case 0 => 0
    case 1 => 315
    case 2 => 270
    case 3 => 225
    case 4 => 180
    case 5 => 135
    case 6 => 90
    case 7 => 45
    case _ => 0
  }

  /** The switch agrees with the production direction enum's angles. */
  lemma DirectionAngleMatchesEnum(d: Direction)
    ensures DirectionAngle(CompassIndex(d)) == Angle(d)
  {
  }

  /** C's % on ints: the quotient truncates toward zero, the remainder takes a's sign. */
  function CRem(a: int, b: int): (r: int)
    requires b > 0
    ensures a >= 0 ==> 0 <= r < b
    ensures a < 0 ==> -b < r <= 0
  {
    if a >= 0 then a % b else -((-a) % b)
  }

  /**
   * One animation step, (frame - 1 + 3) % 3: on a frame in {0, 1, 2} it
   * steps back cyclically (0 to 2, 2 to 1, 1 to 0) and stays in {0, 1, 2}.
   */
  function AnimStep(frame: int): (r: int)
    ensures 0 <= frame < 3 ==> 0 <= r < 3 && (r + 1) % 3 == frame
  {
    CRem(frame - 1 + 3, 3)
  }

  /*-------------------------------------------------------------------------
   * The direction handler
   *-------------------------------------------------------------------------*/

  /** The sprite game's mutable state: the tank array and the global frame counter. */
  datatype SpriteWorld = SpriteWorld(tanks: seq<SpriteTank>, frameCounter: int)

  function VerticalDelta(keys: bv32): int
  {
    (if Pressed(keys, KEY_UP) then -1 else 0) + (if Pressed(keys, KEY_DOWN) then 1 else 0)
  }

  function HorizontalDelta(keys: bv32): int
  {
    (if Pressed(keys, KEY_LEFT) then -1 else 0) + (if Pressed(keys, KEY_RIGHT) then 1 else 0)
  }

  /**
   * Where the two axis commits take the tank in slot `self`: the Y
   * candidate is validated and committed, then the X candidate is built
   * from the updated position and validated.
   */
  function MovedTo(tanks: seq<SpriteTank>, self: int, keys: bv32, grid: Grid): Position
    requires 0 <= self < |tanks| && WellFormed(grid)
    requires tanks[self].width >= 1 && tanks[self].height >= 1
  {
    var t := tanks[self];
    var candY := Position(t.pos.x, t.pos.y + VerticalDelta(keys));
    var y := if ValidateInput(candY, t.width, t.height, tanks, self, grid) then candY.y else t.pos.y;
    var candX := Position(t.pos.x + HorizontalDelta(keys), y);
    var x := if ValidateInput(candX, t.width, t.height, tanks, self, grid) then candX.x else t.pos.x;
    Position(x, y)
  }

  /**
   * handleDirectionInput on the tank in slot `self`: the axis commits, the
   * direction code following the arrows, and once the frame counter has
   * reached ANIMATION_SPEED an arrow held (whether or not the tank moved)
   * steps the animation and zeroes the counter.
   */
  function DirectionSpec(s: SpriteWorld, self: int, keys: bv32, grid: Grid): SpriteWorld
    requires 0 <= self < |s.tanks| && WellFormed(grid)
    requires s.tanks[self].width >= 1 && s.tanks[self].height >= 1
  {
    var t := s.tanks[self];
    var animate := ArrowHeld(keys) && s.frameCounter >= ANIMATION_SPEED;
    var t' := t.(pos := MovedTo(s.tanks, self, keys, grid), direction := DirectionCode(keys, t.direction),
                 animFrame := if animate then AnimStep(t.animFrame) else t.animFrame);
    SpriteWorld(s.tanks[self := t'], if animate then 0 else s.frameCounter)
  }

  /**
   * The mover never leaves valid ground: started at a place the validation
   * accepts, it ends at one; each axis moves at most one pixel and opposite
   * arrows cancel on their axis.
   */
  lemma DirectionKeepsPlacement(s: SpriteWorld, self: int, keys: bv32, grid: Grid)
    requires 0 <= self < |s.tanks| && WellFormed(grid)
    requires s.tanks[self].width >= 1 && s.tanks[self].height >= 1
    requires ValidateInput(s.tanks[self].pos, s.tanks[self].width, s.tanks[self].height, s.tanks, self, grid)
    ensures var t := s.tanks[self];
      var t' := DirectionSpec(s, self, keys, grid).tanks[self];
      ValidateInput(t'.pos, t.width, t.height, s.tanks, self, grid) &&
      -1 <= t'.pos.x - t.pos.x <= 1 && -1 <= t'.pos.y - t.pos.y <= 1 &&
      (Pressed(keys, KEY_UP) == Pressed(keys, KEY_DOWN) ==> t'.pos.y == t.pos.y) &&
      (Pressed(keys, KEY_LEFT) == Pressed(keys, KEY_RIGHT) ==> t'.pos.x == t.pos.x)
  {
    var t := s.tanks[self];
    var candY := Position(t.pos.x, t.pos.y + VerticalDelta(keys));
    var y := if ValidateInput(candY, t.width, t.height, s.tanks, self, grid) then candY.y else t.pos.y;
    assert ValidateInput(Position(t.pos.x, y), t.width, t.height, s.tanks, self, grid);
  }

  /** Only the mover changes, and with no arrow held nothing changes at all. */
  lemma IdleFrameChangesNothing(s: SpriteWorld, self: int, keys: bv32, grid: Grid)
    requires 0 <= self < |s.tanks| && WellFormed(grid)
    requires s.tanks[self].width >= 1 && s.tanks[self].height >= 1
    ensures var r := DirectionSpec(s, self, keys, grid);
      |r.tanks| == |s.tanks| &&
      (forall i :: 0 <= i < |s.tanks| && i != self ==> r.tanks[i] == s.tanks[i]) &&
      (!ArrowHeld(keys) ==> r == s)
  {
    var r := DirectionSpec(s, self, keys, grid);
    if !ArrowHeld(keys) {
      assert r.tanks[self] == s.tanks[self];
    }
  }

  /**
   * An arrow held on a frame whose counter has reached ANIMATION_SPEED
   * steps the animation and restarts the counter even when both candidates
   * are rejected; otherwise frame and counter are untouched.
   */
  lemma AnimationFollowsArrows(s: SpriteWorld, self: int, keys: bv32, grid: Grid)
    requires 0 <= self < |s.tanks| && WellFormed(grid)
    requires s.tanks[self].width >= 1 && s.tanks[self].height >= 1
    requires 0 <= s.tanks[self].animFrame < 3
    ensures var r := DirectionSpec(s, self, keys, grid);
      var f := s.tanks[self].animFrame;
      if ArrowHeld(keys) && s.frameCounter >= ANIMATION_SPEED then
        r.frameCounter == 0 && (r.tanks[self].animFrame + 1) % 3 == f && 0 <= r.tanks[self].animFrame < 3
      else
        r.frameCounter == s.frameCounter && r.tanks[self].animFrame == f
  {
  }

  /** A 16 x 16 tank on an animation frame in {0, 1, 2}. */
  predicate Shaped16(t: SpriteTank)
  {
    t.width == TANK_SIZE && t.height == TANK_SIZE && 0 <= t.animFrame < 3
  }

  /** The sprite game: its tank array and the frame counter, mutated in place. */
  class SpriteGame {
    var tanks: seq<SpriteTank>
    var frameCounter: int

    function State(): SpriteWorld
      reads this
    {
      SpriteWorld(tanks, frameCounter)
    }

    /** Two 16 x 16 tanks, animation frames in {0, 1, 2}, a counter never negative. */
    predicate Valid()
      reads this
    {
      |tanks| == MAX_TANKS && frameCounter >= 0 && forall i :: 0 <= i < |tanks| ==> Shaped16(tanks[i])
    }

    /** main's set-up: the blue player at (16, 88), the red enemy at (224, 88). */
    constructor()
      ensures Valid()
      ensures tanks == [NewSpriteTank(16, 88, 0), NewSpriteTank(SCREEN_WIDTH - 2 * TANK_SIZE, 88, 1)]
      ensures frameCounter == 0
    {
      tanks := [NewSpriteTank(TANK_SIZE, 88, 0), NewSpriteTank(SCREEN_WIDTH - 2 * TANK_SIZE, 88, 1)];
      frameCounter := 0;
    }

    /**
     * handleDirectionInput on the tank in slot `self`, with the keys held:
     * the Y candidate, then the X candidate from the updated position, then
     * the direction code and the animation step. The arrows' separate
     * assignments to the candidate and the code are folded into
     * VerticalDelta, HorizontalDelta and DirectionCode.
     */
    method HandleDirectionInput(self: int, keys: bv32, grid: Grid)
      requires Valid() && 0 <= self < |tanks| && WellFormed(grid)
      modifies this
      ensures Valid()
      ensures State() == DirectionSpec(old(State()), self, keys, grid)
    {
      var tank := tanks[self];
      var newPos := tank.pos.(y := tank.pos.y + VerticalDelta(keys));
      if ValidateInput(newPos, tank.width, tank.height, tanks, self, grid) {
        tank := tank.(pos := tank.pos.(y := newPos.y));
      }
      newPos := tank.pos.(x := tank.pos.x + HorizontalDelta(keys));
      if ValidateInput(newPos, tank.width, tank.height, tanks, self, grid) {
        tank := tank.(pos := tank.pos.(x := newPos.x));
      }
      assert tank.pos == MovedTo(tanks, self, keys, grid);
      tank := tank.(direction := DirectionCode(keys, tank.direction));
      var hasMoved := ArrowHeld(keys);
      if hasMoved && frameCounter >= ANIMATION_SPEED {
        tank := tank.(animFrame := AnimStep(tank.animFrame));
        frameCounter := 0;
      }
      assert Shaped16(tank);
      tanks := tanks[self := tank];
    }

    /**
     * One pass of the main loop as far as game state goes: the player's
     * direction input, then the frame counter advances.
     */
    method RunFrame(keys: bv32, grid: Grid)
      requires Valid() && WellFormed(grid)
      modifies this
      ensures Valid()
      ensures var r := DirectionSpec(old(State()), 0, keys, grid);
        tanks == r.tanks && frameCounter == r.frameCounter + 1
    {
      HandleDirectionInput(0, keys, grid);
      frameCounter := frameCounter + 1;
    }
  }
}
