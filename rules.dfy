/** Constants and pure rules of the touch-controlled game screen in App.js:
    clamping, the toss zone, the ease-out curve and the toss trajectory.
    Positions are reals; the screen size and the float-only trigonometry are
    supplied by a Config value. */
module Rules {

  // --- Game constants (App.js lines 9-27) ---
  const PLAYER_RADIUS: real := 20.0
  const PLAYER_START_X: real := 100.0
  const OPPONENT_SPEED: real := 3.0
  const BALL_TOSS_DISTANCE: real := 150.0
  const BALL_TOSS_DURATION: nat := 40
  const JOYSTICK_RADIUS: real := 100.0
  const JOYSTICK_X: real := 120.0

  // --- Literals written inline in the handlers and the update step ---
  const TOSS_ZONE_X_FRACTION: real := 0.7
  const TOSS_ZONE_Y_FRACTION: real := 0.6
  /** Height of the "up" strip at the top of the toss zone. */
  const TOSS_UP_STRIP: real := 40.0
  /** Vertical offset of the carried ball below the player's centre. */
  const BALL_CARRY_OFFSET: real := 5.0
  /** Top patrol bound of the opponent; the bottom one is the screen height minus OPPONENT_BOTTOM_MARGIN. */
  const OPPONENT_TOP: real := 80.0
  const OPPONENT_BOTTOM_MARGIN: real := 160.0

  /** A point or a velocity on the screen. */
  datatype Vec = Vec(x: real, y: real)

  datatype Direction = Up | Down

  /** What the program takes from its environment: the window size, the arc
      term `sin(t * PI) * 40` of the toss, and the joystick's float-only
      normalisation (speed vector and knob offset from
      (dx, dy) = touch - joystick centre). */
  datatype Config = Config(
    width: real,
    height: real,
    arc: real -> real,
    steer: (real, real) -> Vec,
    knobOffset: (real, real) -> Vec)

  /** The screen holds the player, and the arc term vanishes at t = 0 as sin(0) does. */
  predicate ValidConfig(c: Config) {
    c.width >= 2.0 * PLAYER_RADIUS && c.height >= 2.0 * PLAYER_RADIUS && c.arc(0.0) == 0.0
  }

  // --- Constants that depend on the window size (App.js lines 13-26) ---
  function PlayerStartY(c: Config): real { c.height / 2.0 }
  function OpponentStartX(c: Config): real { c.width - 40.0 }
  function OpponentStartY(c: Config): real { c.height / 2.0 }
  function JoystickY(c: Config): real { c.height - 120.0 }
  function JoystickCentre(c: Config): Vec { Vec(JOYSTICK_X, JoystickY(c)) }

  /** `Math.max(lo, Math.min(hi, v))`. */
  function Clamp(lo: real, hi: real, v: real): (r: real)
    ensures lo <= r
    ensures lo <= hi ==> r <= hi
    ensures lo <= v <= hi ==> r == v
    ensures v < lo ==> r == lo
    ensures lo <= hi < v ==> r == hi
  {
    var m := if hi < v then hi else v;
    if lo < m then m else lo
  }

  /** The player's centre keeps its radius away from every screen edge. */
  predicate PlayerInBounds(c: Config, p: Vec) {
    PLAYER_RADIUS <= p.x <= c.width - PLAYER_RADIUS &&
    PLAYER_RADIUS <= p.y <= c.height - PLAYER_RADIUS
  }

  /** The lower-right toss zone of the screen. On a screen at least 320 units
      wide it is clear of the joystick circle, so no touch both steers and tosses. */
  predicate InTossZone(c: Config, x: real, y: real)
    ensures InTossZone(c, x, y) && c.width >= 320.0 ==> !InJoystick(c, x, y)
  {
    x > c.width * TOSS_ZONE_X_FRACTION && y > c.height * TOSS_ZONE_Y_FRACTION
  }

  /** Up when the touch lies in the top strip of the toss zone, Down otherwise. */
  function ZoneDirection(c: Config, y: real): (d: Direction)
    ensures d == Up <==> y < c.height * TOSS_ZONE_Y_FRACTION + TOSS_UP_STRIP
  {
    if y - c.height * TOSS_ZONE_Y_FRACTION < TOSS_UP_STRIP then Up else Down
  }

  /** Lemma: the toss zone splits into an up strip 40 units high along its top
      edge and a down part below it, and nothing else. */
  lemma TossZoneSplit(c: Config, x: real, y: real)
    ensures InTossZone(c, x, y) && ZoneDirection(c, y) == Up <==>
      x > c.width * TOSS_ZONE_X_FRACTION &&
      c.height * TOSS_ZONE_Y_FRACTION < y < c.height * TOSS_ZONE_Y_FRACTION + TOSS_UP_STRIP
    ensures InTossZone(c, x, y) && ZoneDirection(c, y) == Down <==>
      x > c.width * TOSS_ZONE_X_FRACTION && y >= c.height * TOSS_ZONE_Y_FRACTION + TOSS_UP_STRIP
  {
  }

  /** The shift a toss or a ball-control touch in direction d applies to the ball's y:
      150 units, upwards (negative y) exactly for Up. */
  function Shift(d: Direction): (r: real)
    ensures r == BALL_TOSS_DISTANCE || r == -BALL_TOSS_DISTANCE
    ensures r < 0.0 <==> d == Up
  {
    if d == Up then -BALL_TOSS_DISTANCE else BALL_TOSS_DISTANCE
  }

  /** The joystick circle, without a square root: distance <= radius. A touch
      inside it is within the radius on each axis. */
  predicate InJoystick(c: Config, x: real, y: real)
    ensures InJoystick(c, x, y) ==>
      -JOYSTICK_RADIUS <= x - JOYSTICK_X <= JOYSTICK_RADIUS &&
      -JOYSTICK_RADIUS <= y - JoystickY(c) <= JOYSTICK_RADIUS
  {
    var dx, dy := x - JOYSTICK_X, y - JoystickY(c);
    SquareBound(dx, dy * dy);
    SquareBound(dy, dx * dx);
    dx * dx + dy * dy <= JOYSTICK_RADIUS * JOYSTICK_RADIUS
  }

  /** A coordinate whose square plus a non-negative rest is within the squared
      joystick radius is within the radius. */
  lemma SquareBound(a: real, rest: real)
    ensures rest >= 0.0 && a * a + rest <= JOYSTICK_RADIUS * JOYSTICK_RADIUS ==>
      -JOYSTICK_RADIUS <= a <= JOYSTICK_RADIUS
  {
    var m := if a >= 0.0 then a else -a;
    assert m * m == a * a;
    SquareAtMost(m);
  }

  /** For a non-negative d, d*d is within the squared radius exactly when d is within the radius. */
  lemma SquareAtMost(d: real)
    requires d >= 0.0
    ensures d * d <= JOYSTICK_RADIUS * JOYSTICK_RADIUS <==> d <= JOYSTICK_RADIUS
  {
    if d <= JOYSTICK_RADIUS {
      ScaleMonotone(d, d, JOYSTICK_RADIUS);
    } else {
      ScaleStrict(d, JOYSTICK_RADIUS, d);
    }
  }

  /** Lemma: the squared test is the source's `sqrt(dx*dx + dy*dy) <= radius`:
      for the non-negative `dist` whose square is dx*dx + dy*dy, the touch is
      in the circle exactly when dist is at most the radius. */
  lemma JoystickReach(c: Config, x: real, y: real, dist: real)
    requires dist >= 0.0
    requires dist * dist == (x - JOYSTICK_X) * (x - JOYSTICK_X) + (y - JoystickY(c)) * (y - JoystickY(c))
    ensures InJoystick(c, x, y) <==> dist <= JOYSTICK_RADIUS
  {
    SquareAtMost(dist);
  }

  /** Ease-out cubic `1 - (1 - t)^3`, the cube written as `Scaled(Scaled(u, u), u)`
      with u = 1 - t; maps [0, 1] into [0, 1]. */
  function Ease(t: real): (e: real)
    ensures 0.0 <= t <= 1.0 ==> 0.0 <= e <= 1.0
  {
    var u := 1.0 - t;
    1.0 - Scaled(Scaled(u, u), u)
  }

  lemma EaseEndpoints()
    ensures Ease(0.0) == 0.0 && Ease(1.0) == 1.0
  {
  }

  /** Lemma: the ease curve never goes backwards on [0, 1]. */
  lemma EaseMonotone(s: real, t: real)
    requires 0.0 <= s <= t <= 1.0
    ensures Ease(s) <= Ease(t)
  {
    var a, b := 1.0 - t, 1.0 - s;
    ScaleMonotone(a, a, b);
    ScaleMonotone(b, a, b);
    assert a * a <= b * b;
    ScaleMonotone(a, a * a, b * b);
    ScaleMonotone(b * b, a, b);
    assert a * a * a <= b * b * b;
  }

  /** Multiplying by a non-negative factor keeps the order. */
  lemma ScaleMonotone(k: real, x: real, y: real)
    requires 0.0 <= k && x <= y
    ensures k * x <= k * y
  {
    assert k * y - k * x == k * (y - x);
  }

  /** Multiplying by a positive factor keeps the strict order. */
  lemma ScaleStrict(k: real, x: real, y: real)
    requires 0.0 < k && x < y
    ensures k * x < k * y
  {
    assert k * y - k * x == k * (y - x);
  }

  /** Normalised toss time `frame / BALL_TOSS_DURATION`. */
  function TossT(frame: nat): (t: real)
    ensures 0.0 <= t
    ensures frame < BALL_TOSS_DURATION ==> t <= 39.0 / 40.0
    ensures frame <= BALL_TOSS_DURATION ==> t <= 1.0
    ensures frame == 0 <==> t == 0.0
  {
    frame as real / BALL_TOSS_DURATION as real
  }

  /** Ball height on the toss frame `frame`: eased interpolation from startY
      towards targetY, lifted by the arc term. */
  function TossY(c: Config, startY: real, targetY: real, frame: nat): (y: real)
    ensures frame == 0 && c.arc(0.0) == 0.0 ==> y == startY
    ensures frame <= BALL_TOSS_DURATION ==>
      (startY <= targetY ==> startY <= y + c.arc(TossT(frame)) <= targetY) &&
      (targetY <= startY ==> targetY <= y + c.arc(TossT(frame)) <= startY)
  {
    var t := TossT(frame);
    Lerp(startY, targetY, Ease(t)) - c.arc(t)
  }

  /** Linear interpolation `a + (b - a) * e`; for e in [0, 1] it stays between a and b,
      and it is a at e = 0. */
  function Lerp(a: real, b: real, e: real): (r: real)
    ensures e == 0.0 ==> r == a
    ensures 0.0 <= e <= 1.0 ==> (a <= b ==> a <= r <= b) && (b <= a ==> b <= r <= a)
  {
    a + Scaled(b - a, e)
  }

  /** The product `d * e`; for e in [0, 1] it lies between 0 and d. */
  function Scaled(d: real, e: real): (p: real)
    ensures e == 0.0 ==> p == 0.0
    ensures 0.0 <= e <= 1.0 && d >= 0.0 ==> 0.0 <= p <= d
    ensures 0.0 <= e <= 1.0 && d <= 0.0 ==> d <= p <= 0.0
  {
    d * e
  }
}
