/**
 * The first sprite revision of the game, v2_sprites: main.cpp and the
 * template.cpp it grew from carry the same movement code. Two 16 x 16
 * tanks live in a global array; the player's tank moves one pixel per axis
 * per frame, Y first and then X from the updated position, each candidate
 * checked only against the screen and the other tank (there is no barrier
 * map yet). template.cpp also fills each tank's sprite memory with its
 * palette index.
 */
module PlainRevision {
  import opened Geometry
  import opened TankDefs
  import opened Tanks
  import opened Input
  import SpriteRevision

  const MAX_TANKS: int := 2

  /** The fields of the revision's Tank struct that movement reads or writes. */
  datatype PlainTank = PlainTank(pos: Position, width: int, height: int)

  /**
   * The validation's view of the array; `self` is the mover's slot. Each
   * tank representation builds this view over its own record: by slot here
   * and in SpriteRevision.Boxes, by arena index in Stages.ArenaBoxes, and by
   * object identity in Tanks.Tank.BoxesOf, where the production code
   * compares tank addresses. WallsAreTheOnlyAddition shows this view equals
   * SpriteRevision.Boxes of the same tanks.
   */
  function Boxes(tanks: seq<PlainTank>, self: int): (r: seq<TankBox>)
    ensures |r| == |tanks|
    ensures forall i :: 0 <= i < |r| ==>
      r[i] == TankBox(tanks[i].pos, tanks[i].width, tanks[i].height, i == self)
  {
    seq(|tanks|, i requires 0 <= i < |tanks| =>
      TankBox(tanks[i].pos, tanks[i].width, tanks[i].height, i == self))
  }

  /** validateInput: on screen and clear of every other tank. */
  function ValidateInput(p: Position, w: int, h: int, tanks: seq<PlainTank>, self: int): (r: bool)
    ensures r ==> forall i :: 0 <= i < |tanks| && i != self ==>
                    !Overlap(p, w, h, tanks[i].pos, tanks[i].width, tanks[i].height)
  {
    WithinBounds(p, w, h) && NoTanksCollided(p, w, h, Boxes(tanks, self))
  }

  /**
   * For a 16 x 16 tank this is: every pixel of the box is on screen and
   * no pixel is shared with another listed tank.
   */
  lemma ValidateInputMeans(p: Position, tanks: seq<PlainTank>, self: int)
    requires forall i :: 0 <= i < |tanks| ==> tanks[i].width >= 1 && tanks[i].height >= 1
    ensures ValidateInput(p, TANK_SIZE, TANK_SIZE, tanks, self) <==>
      (forall px, py :: InBox(px, py, p, TANK_SIZE, TANK_SIZE) ==> OnScreen(px, py)) &&
      (forall i, px, py :: 0 <= i < |tanks| && i != self ==>
         !(InBox(px, py, p, TANK_SIZE, TANK_SIZE) && InBox(px, py, tanks[i].pos, tanks[i].width, tanks[i].height)))
  {
    var s := TANK_SIZE;
    var b := Boxes(tanks, self);
    if ValidateInput(p, s, s, tanks, self) {
      forall i, px, py | 0 <= i < |tanks| && i != self
        ensures !(InBox(px, py, p, s, s) && InBox(px, py, tanks[i].pos, tanks[i].width, tanks[i].height))
      {
        assert !b[i].isSelf;
        assert !Overlap(p, s, s, tanks[i].pos, tanks[i].width, tanks[i].height);
      }
    } else if WithinBounds(p, s, s) {
      var i :| 0 <= i < |b| && !b[i].isSelf && Overlap(p, s, s, b[i].pos, b[i].width, b[i].height);
      var px, py :| InBox(px, py, p, s, s) && InBox(px, py, tanks[i].pos, tanks[i].width, tanks[i].height);
    }
  }

  /** The sprite tanks as this revision's tanks: position and size only. */
  function Plain(tanks: seq<SpriteRevision.SpriteTank>): (r: seq<PlainTank>)
    ensures |r| == |tanks|
    ensures forall i :: 0 <= i < |r| ==> r[i] == PlainTank(tanks[i].pos, tanks[i].width, tanks[i].height)
  {
    seq(|tanks|, i requires 0 <= i < |tanks| => PlainTank(tanks[i].pos, tanks[i].width, tanks[i].height))
  }

  predicate WallFree(grid: Grid)
    requires WellFormed(grid)
  {
    forall y, x :: 0 <= y < SCREEN_HEIGHT && 0 <= x < SCREEN_WIDTH ==> grid[y][x] != 1
  }

  /**
   * The later sprite revisions only added walls: on a stage without wall
   * cells their validation answers exactly as this one does.
   */
  lemma WallsAreTheOnlyAddition(p: Position, w: int, h: int, tanks: seq<SpriteRevision.SpriteTank>, self: int,
                                grid: Grid)
    requires WellFormed(grid) && WallFree(grid) && w >= 1 && h >= 1
    ensures SpriteRevision.ValidateInput(p, w, h, tanks, self, grid) == ValidateInput(p, w, h, Plain(tanks), self)
  {
    assert SpriteRevision.Boxes(tanks, self) == Boxes(Plain(tanks), self);
  }

  /** Where handleInput's two axis commits take the tank in slot `self`. */
  function MovedTo(tanks: seq<PlainTank>, self: int, keys: bv32): Position
    requires 0 <= self < |tanks|
  {
    var t := tanks[self];
    var candY := Position(t.pos.x, t.pos.y + SpriteRevision.VerticalDelta(keys));
    var y := if ValidateInput(candY, t.width, t.height, tanks, self) then candY.y else t.pos.y;
    var candX := Position(t.pos.x + SpriteRevision.HorizontalDelta(keys), y);
    var x := if ValidateInput(candX, t.width, t.height, tanks, self) then candX.x else t.pos.x;
    Position(x, y)
  }

  /**
   * Started at a place the validation accepts, the tank ends at one; each
   * axis moves at most one pixel, opposite arrows cancel on their axis and
   * with no arrow held the tank stays put.
   */
  lemma MoveKeepsPlacement(tanks: seq<PlainTank>, self: int, keys: bv32)
    requires 0 <= self < |tanks|
    requires ValidateInput(tanks[self].pos, tanks[self].width, tanks[self].height, tanks, self)
    ensures var t := tanks[self];
      var q := MovedTo(tanks, self, keys);
      ValidateInput(q, t.width, t.height, tanks, self) &&
      -1 <= q.x - t.pos.x <= 1 && -1 <= q.y - t.pos.y <= 1 &&
      (Pressed(keys, KEY_UP) == Pressed(keys, KEY_DOWN) ==> q.y == t.pos.y) &&
      (Pressed(keys, KEY_LEFT) == Pressed(keys, KEY_RIGHT) ==> q.x == t.pos.x) &&
      (!ArrowHeld(keys) ==> q == t.pos)
  {
    var t := tanks[self];
    var candY := Position(t.pos.x, t.pos.y + SpriteRevision.VerticalDelta(keys));
    var y := if ValidateInput(candY, t.width, t.height, tanks, self) then candY.y else t.pos.y;
    assert ValidateInput(Position(t.pos.x, y), t.width, t.height, tanks, self);
  }

  /**
   * On a wall-free stage the later sprite revisions move the tank exactly
   * as this one does.
   */
  lemma SameMoveOnOpenGround(tanks: seq<SpriteRevision.SpriteTank>, self: int, keys: bv32, grid: Grid)
    requires WellFormed(grid) && WallFree(grid) && 0 <= self < |tanks|
    requires tanks[self].width >= 1 && tanks[self].height >= 1
    ensures SpriteRevision.MovedTo(tanks, self, keys, grid) == MovedTo(Plain(tanks), self, keys)
  {
    var t := tanks[self];
    var candY := Position(t.pos.x, t.pos.y + SpriteRevision.VerticalDelta(keys));
    WallsAreTheOnlyAddition(candY, t.width, t.height, tanks, self, grid);
    var y := if ValidateInput(candY, t.width, t.height, Plain(tanks), self) then candY.y else t.pos.y;
    var candX := Position(t.pos.x + SpriteRevision.HorizontalDelta(keys), y);
    WallsAreTheOnlyAddition(candX, t.width, t.height, tanks, self, grid);
  }

  /** The game of this revision: the tank array, whose positions move in place. */
  class PlainGame {
    var tanks: seq<PlainTank>

    /** Two tanks, each 16 x 16. */
    predicate Valid()
      reads this
    {
      |tanks| == MAX_TANKS &&
      forall i :: 0 <= i < |tanks| ==> tanks[i].width == TANK_SIZE && tanks[i].height == TANK_SIZE
    }

    /** main.cpp's set-up: the player at (16, 88), the enemy at (224, 16). */
    constructor Main()
      ensures Valid()
      ensures tanks == [PlainTank(Position(16, 88), TANK_SIZE, TANK_SIZE),
                        PlainTank(Position(224, 16), TANK_SIZE, TANK_SIZE)]
    {
      tanks := [PlainTank(Position(TANK_SIZE, 88), TANK_SIZE, TANK_SIZE),
                PlainTank(Position(SCREEN_WIDTH - 2 * TANK_SIZE, TANK_SIZE), TANK_SIZE, TANK_SIZE)];
    }

    /** template.cpp's set-up: the player at (16, 88), the enemy at (224, 88). */
    constructor Template()
      ensures Valid()
      ensures tanks == [PlainTank(Position(16, 88), TANK_SIZE, TANK_SIZE),
                        PlainTank(Position(224, 88), TANK_SIZE, TANK_SIZE)]
    {
      tanks := [PlainTank(Position(TANK_SIZE, 88), TANK_SIZE, TANK_SIZE),
                PlainTank(Position(SCREEN_WIDTH - 2 * TANK_SIZE, 88), TANK_SIZE, TANK_SIZE)];
    }

    /**
     * handleInput on the tank in slot `self`: the Y candidate is validated
     * and committed, then the X candidate is built from the updated position
     * and validated; nothing else changes.
     */
    method HandleInput(self: int, keys: bv32)
      requires Valid() && 0 <= self < |tanks|
      modifies this
      ensures Valid()
      ensures tanks == old(tanks)[self := old(tanks)[self].(pos := MovedTo(old(tanks), self, keys))]
    {
      var tank := tanks[self];
      var newPos := tank.pos.(y := tank.pos.y + SpriteRevision.VerticalDelta(keys));
      if ValidateInput(newPos, tank.width, tank.height, tanks, self) {
        tank := tank.(pos := tank.pos.(y := newPos.y));
      }
      newPos := tank.pos.(x := tank.pos.x + SpriteRevision.HorizontalDelta(keys));
      if ValidateInput(newPos, tank.width, tank.height, tanks, self) {
        tank := tank.(pos := tank.pos.(x := newPos.x));
      }
      tanks := tanks[self := tank];
    }
  }

  /*-------------------------------------------------------------------------
   * Sprite memory fill
   *-------------------------------------------------------------------------*/

  /** Words of a 16 x 16 sprite at 8 bits per pixel, two pixels per word. */
  const SPRITE_WORDS: int := (TANK_SIZE * TANK_SIZE) / 2

  /**
   * The 16-bit word createSpriteGfx stores: paletteIndex | paletteIndex << 8,
   * truncated to 16 bits. Both of its pixels (bytes) get the palette index
   * when the index fits a byte.
   */
  function PaletteWord(paletteIndex: bv32): (w: bv16)
    ensures w & 0xFF == (paletteIndex & 0xFF) as bv16
    ensures paletteIndex < 256 ==> w >> 8 == paletteIndex as bv16 && w & 0xFF == paletteIndex as bv16
  {
    ((paletteIndex | (paletteIndex << 8)) & 0xFFFF) as bv16
  }

  /** createSpriteGfx's loop: the first 128 words of the sprite memory get the palette word. */
  method FillSpriteGfx(gfx: array<bv16>, paletteIndex: bv32)
    requires gfx.Length >= SPRITE_WORDS
    modifies gfx
    ensures forall i :: 0 <= i < SPRITE_WORDS ==> gfx[i] == PaletteWord(paletteIndex)
    ensures forall i :: SPRITE_WORDS <= i < gfx.Length ==> gfx[i] == old(gfx[i])
  {
    for i := 0 to SPRITE_WORDS
      invariant forall j :: 0 <= j < i ==> gfx[j] == PaletteWord(paletteIndex)
      invariant forall j :: SPRITE_WORDS <= j < gfx.Length ==> gfx[j] == old(gfx[j])
    {
      gfx[i] := PaletteWord(paletteIndex);
    }
  }
}
