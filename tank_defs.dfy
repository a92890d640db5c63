/**
 * The enumerations of the tank header and the colour table of the tank
 * constructor: what each colour of tank moves, shoots and behaves like.
 */
module TankDefs {
  import opened Bullets

  /** Side of a tank's square body box, in pixels. */
  const TANK_SIZE: int := 16

  /** Turn applied to the body per frame while it rotates, in degrees. */
  const BODY_ROTATION_SPEED: int := 5

  /** Bullets a tank owns unless its colour says otherwise. */
  const DEFAULT_MAX_BULLETS: int := 5

  /** Blue is player one, Red player two, the rest are computer tanks. */
  datatype TankColor =
    | Blue | Red | Brown | Ash | Marine | Yellow | Pink | Green | Violet | White | Black

  /** The enumerator value of each colour (also the sprite-sheet row). */
  function ColorCode(c: TankColor): (n: int)
    ensures 0 <= n <= 10
  {
    match c
    case Blue => 0
    case Red => 1
    case Brown => 2
    case Ash => 3
    case Marine => 4
    case Yellow => 5
    case Pink => 6
    case Green => 7
    case Violet => 8
    case White => 9
    case Black => 10
  }

  predicate IsPlayer(c: TankColor)
  {
    c == Blue || c == Red
  }

  /** The eight facing directions of a tank, listed clockwise on the compass. */
  datatype Direction = N | NE | E | SE | S | SW | W | NW

  /**
   * The enumerator value of a direction: its rotation in degrees, counted
   * counter-clockwise from north (west is 90, east 270).
   */
  function Angle(d: Direction): int
  {
    match d
    case N => 0
    case NE => 315
    case E => 270
    case SE => 225
    case S => 180
    case SW => 135
    case W => 90
    case NW => 45
  }

  /** Position of a direction on the compass, clockwise from north. */
  function CompassIndex(d: Direction): int
  {
    match d
    case N => 0
    case NE => 1
    case E => 2
    case SE => 3
    case S => 4
    case SW => 5
    case W => 6
    case NW => 7
  }

  /** The direction whose angle is a, if there is one. */
  function DirectionOfAngle(a: int): (r: Option<Direction>)
    ensures r.Some? <==> 0 <= a < 360 && a % 45 == 0
  {
    if a == 0 then Some(N)
    else if a == 315 then Some(NE)
    else if a == 270 then Some(E)
    else if a == 225 then Some(SE)
    else if a == 180 then Some(S)
    else if a == 135 then Some(SW)
    else if a == 90 then Some(W)
    else if a == 45 then Some(NW)
    else None
  }

  datatype Option<T> = None | Some(value: T)

  /**
   * Each clockwise compass step lowers the angle by 45 degrees: the angles
   * are whole multiples of 45 in [0, 360), distinct, and decoded back to the
   * same direction.
   */
  lemma AngleIsCompassTurn(d: Direction)
    ensures Angle(d) == (360 - 45 * CompassIndex(d)) % 360
    ensures 0 <= Angle(d) < 360 && Angle(d) % 45 == 0
    ensures DirectionOfAngle(Angle(d)) == Some(d)
  {
  }

  lemma AngleInjective(d1: Direction, d2: Direction)
    requires Angle(d1) == Angle(d2)
    ensures d1 == d2
  {
    AngleIsCompassTurn(d1);
    AngleIsCompassTurn(d2);
  }

  /** Vertical component of a direction: -1 north (y shrinks), +1 south, 0 none. */
  function YSign(d: Direction): int
  {
    match d
    case NW | N | NE => -1
    case SW | S | SE => 1
    case _ => 0
  }

  /** Horizontal component of a direction: +1 east, -1 west, 0 none. */
  function XSign(d: Direction): int
  {
    match d
    case NE | E | SE => 1
    case NW | W | SW => -1
    case _ => 0
  }

  /** A direction is determined by its two components, which are never both zero. */
  lemma ComponentsDetermineDirection(d1: Direction, d2: Direction)
    ensures XSign(d1) != 0 || YSign(d1) != 0
    ensures XSign(d1) == XSign(d2) && YSign(d1) == YSign(d2) ==> d1 == d2
  {
  }

  datatype Movement = MoveNormal | MoveStationary | MoveSlow | MoveFast
  datatype Cooldown = CooldownControlled | CooldownSlow | CooldownFast
  datatype Behavior =
    | Controlled | Passive | Defensive | Incautious | Offensive | Active | Dynamic

  /** The per-colour settings the constructor's switch assigns. */
  datatype Tunables = Tunables(
    movement: Movement,
    bulletSpeed: BulletSpeed,
    cooldown: Cooldown,
    maxRicochets: int,
    maxBullets: int,
    behavior: Behavior)

  /**
   * The colour switch of the tank constructor. Red has no case of its own and
   * takes the default branch, so both player colours get the player settings.
   */
  function TunablesFor(c: TankColor): (t: Tunables)
    ensures 1 <= t.maxBullets <= DEFAULT_MAX_BULLETS
    ensures 0 <= t.maxRicochets <= 2
    ensures t.behavior == Controlled <==> IsPlayer(c)
    ensures t.cooldown == CooldownControlled <==> IsPlayer(c)
    ensures IsPlayer(c) ==>
      t == Tunables(MoveNormal, SpeedNormal, CooldownControlled, 1, DEFAULT_MAX_BULLETS, Controlled)
  {
    match c
    case Brown => Tunables(MoveStationary, SpeedNormal, CooldownSlow, 1, 1, Passive)
    case Ash => Tunables(MoveSlow, SpeedNormal, CooldownSlow, 1, 1, Defensive)
    case Marine => Tunables(MoveSlow, SpeedFast, CooldownSlow, 0, 1, Defensive)
    case Yellow => Tunables(MoveNormal, SpeedNormal, CooldownSlow, 1, 1, Incautious)
    case Pink => Tunables(MoveSlow, SpeedNormal, CooldownFast, 1, 3, Offensive)
    case Green => Tunables(MoveStationary, SpeedFast, CooldownFast, 2, 2, Active)
    case Violet => Tunables(MoveNormal, SpeedNormal, CooldownFast, 1, 5, Offensive)
    case White => Tunables(MoveSlow, SpeedNormal, CooldownFast, 1, 5, Offensive)
    case Black => Tunables(MoveFast, SpeedFast, CooldownFast, 0, 3, Dynamic)
    case _ => Tunables(MoveNormal, SpeedNormal, CooldownControlled, 1, 5, Controlled)
  }

  /** Only Marine and Black tanks fire bullets that never ricochet. */
  lemma NonRicochetingColors(c: TankColor)
    ensures TunablesFor(c).maxRicochets == 0 <==> c == Marine || c == Black
  {
  }
}
