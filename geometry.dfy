/**
 * Screen geometry shared by every revision of the arena: the 256x192 pixel
 * screen, integer positions, the barrier grid indexed [y][x], and the two
 * box tests the game uses (on-screen and overlap).
 */
module Geometry {

  /** Size of the Nintendo DS main screen, in pixels. */
  const SCREEN_WIDTH: int := 256
  const SCREEN_HEIGHT: int := 192

  /** A pixel position, top-left origin, y growing downwards. */
  datatype Position = Position(x: int, y: int)

  /** A barrier map: one cell code per screen pixel, indexed [y][x]. */
  type Grid = seq<seq<int>>

  predicate WellFormed(g: Grid)
  {
    |g| == SCREEN_HEIGHT && forall y :: 0 <= y < |g| ==> |g[y]| == SCREEN_WIDTH
  }

  predicate OnScreen(px: int, py: int)
  {
    0 <= px < SCREEN_WIDTH && 0 <= py < SCREEN_HEIGHT
  }

  /** Pixel (px, py) lies in the w x h box whose top-left corner is p. */
  predicate InBox(px: int, py: int, p: Position, w: int, h: int)
  {
    p.x <= px < p.x + w && p.y <= py < p.y + h
  }

  /**
   * The bounds test of every revision's isWithinBounds: none of the four
   * "too far" conditions holds. For a non-empty box this is exactly "every
   * pixel of the box is on screen".
   */
  function WithinBounds(p: Position, w: int, h: int): (r: bool)
    ensures w >= 1 && h >= 1 ==>
      (r <==> forall px, py :: InBox(px, py, p, w, h) ==> OnScreen(px, py))
  {
    var tooFarUp := p.y < 0;
    var tooFarLeft := p.x < 0;
    var tooFarDown := p.y + h - 1 >= SCREEN_HEIGHT;
    var tooFarRight := p.x + w - 1 >= SCREEN_WIDTH;
    assert w >= 1 && h >= 1 && !InBox(p.x, p.y, p, w, h) ==> false;
    assert w >= 1 && h >= 1 && !InBox(p.x + w - 1, p.y + h - 1, p, w, h) ==> false;
    !tooFarUp && !tooFarLeft && !tooFarDown && !tooFarRight
  }

  /**
   * Axis-aligned overlap of two boxes, written as the tank-versus-tank test
   * (not separated on x and not separated on y). The bullet sweep's strict
   * comparisons (a.x < b.x + bw && a.x + aw > b.x && ...) are the same
   * relation. For non-empty boxes it holds exactly when the boxes share a pixel.
   */
  function Overlap(a: Position, aw: int, ah: int, b: Position, bw: int, bh: int): (r: bool)
    ensures aw >= 1 && ah >= 1 && bw >= 1 && bh >= 1 ==>
      (r <==> exists px, py :: InBox(px, py, a, aw, ah) && InBox(px, py, b, bw, bh))
  {
    var xOverlap := !(a.x + aw <= b.x || b.x + bw <= a.x);
    var yOverlap := !(a.y + ah <= b.y || b.y + bh <= a.y);
    var px := if a.x < b.x then b.x else a.x;
    var py := if a.y < b.y then b.y else a.y;
    assert xOverlap && yOverlap && aw >= 1 && ah >= 1 && bw >= 1 && bh >= 1 ==>
      InBox(px, py, a, aw, ah) && InBox(px, py, b, bw, bh);
    xOverlap && yOverlap
  }

  /** The two axes that movement is split into. */
  datatype Axis = XAxis | YAxis

  /** p moved by d pixels along one axis. */
  function Shift(p: Position, axis: Axis, d: int): (q: Position)
    ensures axis == XAxis ==> q.y == p.y && q.x - p.x == d
    ensures axis == YAxis ==> q.x == p.x && q.y - p.y == d
  {
    match axis
    case XAxis => Position(p.x + d, p.y)
    case YAxis => Position(p.x, p.y + d)
  }

  /** C's (int) cast of a float: truncation toward zero. */
  function TruncReal(r: real): (n: int)
    ensures r >= 0.0 ==> n as real <= r < n as real + 1.0
    ensures r < 0.0 ==> n as real - 1.0 < r <= n as real
  {
    if r >= 0.0 then r.Floor else -((-r).Floor)
  }

  /**
   * C's fmod(a, 360): the remainder of a / 360 with the quotient truncated
   * toward zero, so the result has the sign of a and differs from a by
   * whole turns.
   */
  function Fmod360(a: real): (r: real)
    ensures a >= 0.0 ==> 0.0 <= r < 360.0
    ensures a < 0.0 ==> -360.0 < r <= 0.0
    ensures a - r == 360.0 * (TruncReal(a / 360.0) as real)
  {
    a - 360.0 * (TruncReal(a / 360.0) as real)
  }

  function Abs(n: int): nat
  {
    if n < 0 then -n else n
  }
}
