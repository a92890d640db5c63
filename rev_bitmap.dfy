/**
 * The first revision of the game, v1_bitmap: two 16 x 16 boxes drawn with
 * GL on a stage of two walls and three barriers. The player's box follows
 * the held arrows, the enemy's box drifts by a direction code 0..8 that
 * the main loop rerolls every 30 frames after the first 60, and a touch
 * on the enemy box while L is held sends both boxes back to their start.
 *
 * The random roll is a parameter, and so is the enemy's first direction
 * code, which the source never initialises.
 */
module BitmapRevision {
  import opened Geometry
  import opened Input

  const CELL_SIZE: int := 16

  /** A box's top-left corner and its direction code (only the enemy's is used). */
  datatype Pos = Pos(x: int, y: int, dir: int)

  /** Where both boxes start: (16, 88) and (224, 88); 88 is CELL_SIZE * 5.5 truncated. */
  const USER_START_X: int := CELL_SIZE
  const ENEMY_START_X: int := SCREEN_WIDTH - CELL_SIZE * 2
  const START_Y: int := 88

  /*-------------------------------------------------------------------------
   * Collision
   *-------------------------------------------------------------------------*/

  /** A filled rectangle of drawStage(1), by its inclusive corners. */
  datatype Rect = Rect(x1: int, y1: int, x2: int, y2: int)

  predicate InRect(px: int, py: int, r: Rect)
  {
    r.x1 <= px <= r.x2 && r.y1 <= py <= r.y2
  }

  /** The upper wall, the lower wall and the three barriers drawStage(1) fills. */
  function Stage1Rects(): seq<Rect>
  {
    [Rect(0, 0, SCREEN_WIDTH, CELL_SIZE - 1),
     Rect(0, SCREEN_HEIGHT - CELL_SIZE, SCREEN_WIDTH, SCREEN_HEIGHT),
     Rect(CELL_SIZE * 4, CELL_SIZE * 3, CELL_SIZE * 5 - 1, CELL_SIZE * 5 - 1),
     Rect(CELL_SIZE * 4, CELL_SIZE * 7, CELL_SIZE * 5 - 1, CELL_SIZE * 9 - 1),
     Rect(CELL_SIZE * 8, CELL_SIZE * 3, CELL_SIZE * 9 - 1, CELL_SIZE * 9 - 1)]
  }

  /**
   * checkCollision: the box at p is blocked when it leaves the screen, when
   * it reaches into the top or bottom wall row, or when it strictly
   * overlaps one of the three barriers.
   */
  function CheckCollision(p: Pos): (r: bool)
    ensures !r ==> 0 <= p.x && p.x + CELL_SIZE <= SCREEN_WIDTH &&
                   CELL_SIZE <= p.y && p.y + CELL_SIZE <= SCREEN_HEIGHT - CELL_SIZE
  {
    if p.x < 0 || p.x + CELL_SIZE > SCREEN_WIDTH || p.y < 0 || p.y + CELL_SIZE > SCREEN_HEIGHT then true
    else if p.y < CELL_SIZE || p.y + CELL_SIZE > SCREEN_HEIGHT - CELL_SIZE then true
    else if (p.x < CELL_SIZE * 5 && p.x + CELL_SIZE > CELL_SIZE * 4 &&
             p.y < CELL_SIZE * 5 && p.y + CELL_SIZE > CELL_SIZE * 3) ||
            (p.x < CELL_SIZE * 5 && p.x + CELL_SIZE > CELL_SIZE * 4 &&
             p.y < CELL_SIZE * 9 && p.y + CELL_SIZE > CELL_SIZE * 7) ||
            (p.x < CELL_SIZE * 9 && p.x + CELL_SIZE > CELL_SIZE * 8 &&
             p.y < CELL_SIZE * 9 && p.y + CELL_SIZE > CELL_SIZE * 3) then true
    else false
  }

  /** Pixel (px, py) lies on screen and outside every rectangle drawStage(1) fills. */
  predicate OpenPixel(px: int, py: int)
  {
    OnScreen(px, py) && forall i :: 0 <= i < |Stage1Rects()| ==> !InRect(px, py, Stage1Rects()[i])
  }

  /**
   * The collision test agrees with the drawing: a box is free exactly when
   * every one of its pixels is on screen and in none of the drawn walls
   * and barriers.
   */
  lemma CheckCollisionMatchesDrawing(p: Pos)
    ensures !CheckCollision(p) <==>
      forall px, py :: InBox(px, py, Position(p.x, p.y), CELL_SIZE, CELL_SIZE) ==> OpenPixel(px, py)
  {
    var q := Position(p.x, p.y);
    var rs := Stage1Rects();
    if CheckCollision(p) {
      var px, py;
      if p.x < 0 || p.y < 0 || p.y < CELL_SIZE {
        px, py := p.x, p.y;
        if OnScreen(px, py) {
          assert InRect(px, py, rs[0]);
        }
      } else if p.x + CELL_SIZE > SCREEN_WIDTH || p.y + CELL_SIZE > SCREEN_HEIGHT - CELL_SIZE {
        px, py := p.x + CELL_SIZE - 1, p.y + CELL_SIZE - 1;
        if OnScreen(px, py) {
          assert InRect(px, py, rs[1]);
        }
      } else if p.x < CELL_SIZE * 5 && p.x + CELL_SIZE > CELL_SIZE * 4 &&
                p.y < CELL_SIZE * 5 && p.y + CELL_SIZE > CELL_SIZE * 3 {
        px := if p.x < rs[2].x1 then rs[2].x1 else p.x;
        py := if p.y < rs[2].y1 then rs[2].y1 else p.y;
        assert InRect(px, py, rs[2]);
      } else if p.x < CELL_SIZE * 5 && p.x + CELL_SIZE > CELL_SIZE * 4 &&
                p.y < CELL_SIZE * 9 && p.y + CELL_SIZE > CELL_SIZE * 7 {
        px := if p.x < rs[3].x1 then rs[3].x1 else p.x;
        py := if p.y < rs[3].y1 then rs[3].y1 else p.y;
        assert InRect(px, py, rs[3]);
      } else {
        px := if p.x < rs[4].x1 then rs[4].x1 else p.x;
        py := if p.y < rs[4].y1 then rs[4].y1 else p.y;
        assert InRect(px, py, rs[4]);
      }
      assert InBox(px, py, q, CELL_SIZE, CELL_SIZE) && !OpenPixel(px, py);
    } else {
      forall px, py | InBox(px, py, q, CELL_SIZE, CELL_SIZE)
        ensures OpenPixel(px, py)
      {
        forall i | 0 <= i < |rs|
          ensures !InRect(px, py, rs[i])
        {
        }
      }
    }
  }

  /*-------------------------------------------------------------------------
   * Movement
   *-------------------------------------------------------------------------*/

  /** The player's step on each axis: RIGHT adds one, LEFT takes one away. */
  function KeyDX(keys: bv32): int
  {
    (if Pressed(keys, KEY_RIGHT) then 1 else 0) - (if Pressed(keys, KEY_LEFT) then 1 else 0)
  }

  function KeyDY(keys: bv32): int
  {
    (if Pressed(keys, KEY_DOWN) then 1 else 0) - (if Pressed(keys, KEY_UP) then 1 else 0)
  }

  /** The enemy's vertical step: 1, 2 and 8 go down, 4, 5 and 6 go up. */
  function EnemyDY(dir: int): int
  {
    (if dir == 1 || dir == 2 || dir == 8 then 1 else 0) - (if dir == 4 || dir == 5 || dir == 6 then 1 else 0)
  }

  /** The enemy's horizontal step: 2, 3 and 4 go right, 6, 7 and 8 go left. */
  function EnemyDX(dir: int): int
  {
    (if dir == 2 || dir == 3 || dir == 4 then 1 else 0) - (if dir == 6 || dir == 7 || dir == 8 then 1 else 0)
  }

  /**
   * The nine codes a roll of rand() % 9 can give are the nine one-pixel
   * moves: 0 stands still, 1 to 8 go round the compass from south through
   * east, and no two codes make the same move.
   */
  lemma EnemyCodesAreTheNineMoves(d1: int, d2: int)
    requires 0 <= d1 < 9 && 0 <= d2 < 9
    ensures -1 <= EnemyDX(d1) <= 1 && -1 <= EnemyDY(d1) <= 1
    ensures (EnemyDX(d1) == 0 && EnemyDY(d1) == 0) <==> d1 == 0
    ensures EnemyDX(d1) == EnemyDX(d2) && EnemyDY(d1) == EnemyDY(d2) ==> d1 == d2
  {
  }

  /**
   * How drawFrame moves a box by (dx, dy) as written: both candidates are
   * copied from the box before either axis commits, so each axis is
   * checked at the other axis's old coordinate. The order of the two
   * commits (X first for the player, Y first for the enemy) does not matter.
   */
  function SeparateAxes(p: Pos, dx: int, dy: int): Pos
  {
    var x := if !CheckCollision(p.(x := p.x + dx)) then p.x + dx else p.x;
    var y := if !CheckCollision(p.(y := p.y + dy)) then p.y + dy else p.y;
    Pos(x, y, p.dir)
  }

  /**
   * As written, a diagonal step can end inside a barrier: from (48, 32),
   * right and down are each free on their own, but (49, 33) overlaps the
   * first barrier. The player (RIGHT with DOWN) and the enemy (code 2) both
   * take that step.
   */
  lemma SeparateAxesEntersBarrier(dir: int)
    ensures var p := Pos(48, 32, dir);
      !CheckCollision(p) && SeparateAxes(p, 1, 1) == Pos(49, 33, dir) && CheckCollision(Pos(49, 33, dir))
    ensures KeyDX(KEY_RIGHT | KEY_DOWN) == 1 && KeyDY(KEY_RIGHT | KEY_DOWN) == 1
    ensures EnemyDX(2) == 1 && EnemyDY(2) == 1
  {
  }

  /**
   * The move as evidently meant: the second candidate starts from the
   * position the first axis committed (X first, as for the player).
   */
  function ChainedAxes(p: Pos, dx: int, dy: int): Pos
  {
    var x := if !CheckCollision(p.(x := p.x + dx)) then p.x + dx else p.x;
    var q := p.(x := x);
    var y := if !CheckCollision(q.(y := q.y + dy)) then q.y + dy else q.y;
    Pos(x, y, p.dir)
  }

  /**
   * The chained move never leaves free ground and moves each axis by its
   * step or not at all.
   */
  lemma ChainedAxesStaysClear(p: Pos, dx: int, dy: int)
    requires !CheckCollision(p)
    ensures var r := ChainedAxes(p, dx, dy);
      !CheckCollision(r) && (r.x == p.x || r.x == p.x + dx) && (r.y == p.y || r.y == p.y + dy) &&
      r.dir == p.dir
  {
  }

  /*-------------------------------------------------------------------------
   * The frame
   *-------------------------------------------------------------------------*/

  /** The touch screen reading: raw coordinates (0 when untouched) and pixel coordinates. */
  datatype Touch = Touch(rawx: int, rawy: int, px: int, py: int)

  /** The three variables drawFrame updates through its references. */
  datatype BitmapWorld = BitmapWorld(user: Pos, enemy: Pos, frame: int)

  /**
   * A touch, with L held, on a pixel of the enemy's box (after this frame's
   * moves): both boxes go back to where they started and the frame count
   * restarts.
   */
  predicate EnemyHit(enemy: Pos, keys: bv32, touch: Touch)
  {
    touch.rawx != 0 && touch.rawy != 0 && Pressed(keys, KEY_L) &&
    touch.px >= enemy.x && touch.px < enemy.x + CELL_SIZE && touch.py >= enemy.y && touch.py < enemy.y + CELL_SIZE
  }

  /** drawFrame's effect on the game: both moves, then the hit test. */
  function DrawFrameSpec(s: BitmapWorld, keys: bv32, touch: Touch): BitmapWorld
  {
    var u := SeparateAxes(s.user, KeyDX(keys), KeyDY(keys));
    var e := SeparateAxes(s.enemy, EnemyDX(s.enemy.dir), EnemyDY(s.enemy.dir));
    HitTest(BitmapWorld(u, e, s.frame), keys, touch)
  }

  /** The last part of drawFrame, once both boxes have moved. */
  function HitTest(m: BitmapWorld, keys: bv32, touch: Touch): BitmapWorld
  {
    if EnemyHit(m.enemy, keys, touch) then
      BitmapWorld(Pos(USER_START_X, START_Y, m.user.dir), Pos(ENEMY_START_X, START_Y, m.enemy.dir), 0)
    else m
  }

  /**
   * A hit needs the touched pixel inside the enemy's box, and it puts both
   * boxes back on their free starting places; without a hit the frame
   * count and the direction codes are kept.
   */
  lemma HitResetsBoth(s: BitmapWorld, keys: bv32, touch: Touch)
    ensures var r := DrawFrameSpec(s, keys, touch);
      var e := SeparateAxes(s.enemy, EnemyDX(s.enemy.dir), EnemyDY(s.enemy.dir));
      if EnemyHit(e, keys, touch) then
        InBox(touch.px, touch.py, Position(e.x, e.y), CELL_SIZE, CELL_SIZE) &&
        r.frame == 0 && r.user.x == USER_START_X && r.enemy.x == ENEMY_START_X &&
        r.user.y == START_Y && r.enemy.y == START_Y &&
        !CheckCollision(r.user) && !CheckCollision(r.enemy)
      else
        r.frame == s.frame && r.user.dir == s.user.dir && r.enemy.dir == s.enemy.dir
  {
  }

  /** v1's main-loop state, updated in place by drawFrame. */
  class BitmapGame {
    var user: Pos
    var enemy: Pos
    var frame: int

    function State(): BitmapWorld
      reads this
    {
      BitmapWorld(user, enemy, frame)
    }

    /** Both boxes at their starting places, frame count 0; the enemy's code is given. */
    constructor(enemyDir: int)
      ensures user.x == USER_START_X && user.y == START_Y
      ensures enemy == Pos(ENEMY_START_X, START_Y, enemyDir) && frame == 0
    {
      user := Pos(USER_START_X, START_Y, 0);
      enemy := Pos(ENEMY_START_X, START_Y, enemyDir);
      frame := 0;
    }

    /** drawFrame: the player's move, the enemy's move, then the touch test. */
    method DrawFrame(keys: bv32, touch: Touch)
      modifies this
      ensures State() == DrawFrameSpec(old(State()), keys, touch)
    {
      MoveUser(keys);
      MoveEnemy();
      ghost var m := State();
      if touch.rawx != 0 && touch.rawy != 0 && Pressed(keys, KEY_L) {
        if touch.px >= enemy.x && touch.px < enemy.x + CELL_SIZE &&
           touch.py >= enemy.y && touch.py < enemy.y + CELL_SIZE {
          user := user.(x := USER_START_X, y := START_Y);
          enemy := enemy.(x := ENEMY_START_X, y := START_Y);
          frame := 0;
        }
      }
      assert State() == HitTest(m, keys, touch);
    }

    /** The player's part of drawFrame: X and Y candidates both copied from the box. */
    method MoveUser(keys: bv32)
      modifies this
      ensures user == SeparateAxes(old(user), KeyDX(keys), KeyDY(keys))
      ensures enemy == old(enemy) && frame == old(frame)
    {
      var newPosX := user;
      var newPosY := user;
      newPosX := newPosX.(x := newPosX.x + KeyDX(keys));
      if !CheckCollision(newPosX) {
        user := user.(x := newPosX.x);
      }
      newPosY := newPosY.(y := newPosY.y + KeyDY(keys));
      if !CheckCollision(newPosY) {
        user := user.(y := newPosY.y);
      }
    }

    /** The enemy's part of drawFrame: Y and X candidates both copied from the box. */
    method MoveEnemy()
      modifies this
      ensures enemy == SeparateAxes(old(enemy), EnemyDX(old(enemy).dir), EnemyDY(old(enemy).dir))
      ensures user == old(user) && frame == old(frame)
    {
      var newEnemyPosY := enemy;
      var newEnemyPosX := enemy;
      newEnemyPosY := newEnemyPosY.(y := newEnemyPosY.y + EnemyDY(enemy.dir));
      if !CheckCollision(newEnemyPosY) {
        enemy := enemy.(y := newEnemyPosY.y);
      }
      newEnemyPosX := newEnemyPosX.(x := newEnemyPosX.x + EnemyDX(enemy.dir));
      if !CheckCollision(newEnemyPosX) {
        enemy := enemy.(x := newEnemyPosX.x);
      }
    }

    /**
     * One pass of the main loop: the frame count advances, every 30th
     * frame after the 60th the enemy takes the rolled code, then drawFrame.
     */
    method Tick(keys: bv32, touch: Touch, roll: int)
      requires 0 <= roll < 9
      modifies this
      ensures var f := old(frame) + 1;
        var s := BitmapWorld(old(user), if f > 60 && f % 30 == 0 then old(enemy).(dir := roll) else old(enemy), f);
        State() == DrawFrameSpec(s, keys, touch)
    {
      frame := frame + 1;
      if frame > 60 && frame % 30 == 0 {
        enemy := enemy.(dir := roll);
      }
      DrawFrame(keys, touch);
    }
  }
}
