/** The game state of App.js as one record, and each handler and the
    per-frame update as a pure function on it. These functions specify the
    methods of App.Game; the lemmas at the end relate several of them. */
module Step {
  import opened Rules

  datatype Option<T> = None | Some(value: T)

  /** The toss record held by the toss reference: whether a toss is running,
      its direction, the frame counter and the two ends of the flight. */
  datatype Toss = Toss(active: bool, direction: Option<Direction>, frame: nat, startY: real, targetY: real)

  /** Positions of the three circles, as the update step returns them. */
  datatype Entities = Entities(player: Vec, ball: Vec, opponent: Vec)

  /** Everything the update step and the touch handlers read or write.
      `joystick` holds the speed vector (dx, dy). */
  datatype State = State(
    player: Vec,
    ball: Vec,
    opponent: Vec,
    opponentDir: int,
    joystick: Vec,
    knobPos: Vec,
    playerHasBall: bool,
    toss: Toss)

  const IDLE_TOSS := Toss(false, None, 0, 0.0, 0.0)

  /** What every reachable state satisfies: the opponent heads down or up,
      the frame counter never passes the toss duration, a running toss is
      short of its last frame and flies 150 units in its direction. */
  predicate Invariant(s: State)
    ensures Invariant(s) && s.toss.active ==>
      TossT(s.toss.frame) <= 39.0 / 40.0 &&
      (s.toss.targetY == s.toss.startY - BALL_TOSS_DISTANCE || s.toss.targetY == s.toss.startY + BALL_TOSS_DISTANCE)
    ensures Invariant(s) ==> s.opponentDir != 0
  {
    (s.opponentDir == 1 || s.opponentDir == -1) &&
    s.toss.frame <= BALL_TOSS_DURATION &&
    (s.toss.active ==>
      s.toss.frame < BALL_TOSS_DURATION &&
      s.toss.direction.Some? &&
      s.toss.targetY == s.toss.startY + Shift(s.toss.direction.value))
  }

  /** The state the component starts with. */
  function Initial(c: Config): (s: State)
    ensures Invariant(s) && !s.toss.active && s.playerHasBall
    ensures s.ball.x == s.player.x && s.ball.y == s.player.y - 30.0
  {
    State(
      Vec(PLAYER_START_X, PlayerStartY(c)),
      Vec(PLAYER_START_X, PlayerStartY(c) - 30.0),
      Vec(OpponentStartX(c), OpponentStartY(c)),
      1,
      Vec(0.0, 0.0),
      JoystickCentre(c),
      true,
      IDLE_TOSS)
  }

  /** The player's move for one frame: add the joystick vector and clamp
      each axis to the screen minus the player's radius. */
  function MovePlayer(c: Config, p: Vec, v: Vec): (r: Vec)
    requires ValidConfig(c)
    ensures PlayerInBounds(c, r)
    ensures PlayerInBounds(c, Vec(p.x + v.x, p.y + v.y)) ==> r == Vec(p.x + v.x, p.y + v.y)
    ensures p.x + v.x < PLAYER_RADIUS ==> r.x == PLAYER_RADIUS
    ensures p.x + v.x > c.width - PLAYER_RADIUS ==> r.x == c.width - PLAYER_RADIUS
    ensures p.y + v.y < PLAYER_RADIUS ==> r.y == PLAYER_RADIUS
    ensures p.y + v.y > c.height - PLAYER_RADIUS ==> r.y == c.height - PLAYER_RADIUS
  {
    Vec(Clamp(PLAYER_RADIUS, c.width - PLAYER_RADIUS, p.x + v.x),
        Clamp(PLAYER_RADIUS, c.height - PLAYER_RADIUS, p.y + v.y))
  }

  /** The opponent's patrol step: move by direction times speed, then turn
      round for the next frame once past either bound. */
  function Patrol(c: Config, o: Vec, dir: int): (r: (Vec, int))
    ensures r.0.x == o.x && r.0.y == o.y + dir as real * OPPONENT_SPEED
    ensures r.1 == dir || r.1 == -dir
    ensures dir != 0 ==> (r.1 == -dir <==> r.0.y < OPPONENT_TOP || r.0.y > c.height - OPPONENT_BOTTOM_MARGIN)
    ensures (dir == 1 || dir == -1) ==> (r.1 == 1 || r.1 == -1)
  {
    var y := o.y + dir as real * OPPONENT_SPEED;
    (Vec(o.x, y), if y < OPPONENT_TOP || y > c.height - OPPONENT_BOTTOM_MARGIN then -dir else dir)
  }

  /** One frame of the update step. */
  function Tick(c: Config, s: State): (r: State)
    requires ValidConfig(c)
    ensures PlayerInBounds(c, r.player)
    ensures r.player == MovePlayer(c, s.player, s.joystick)
    ensures PlayerInBounds(c, s.player) && s.joystick == Vec(0.0, 0.0) ==> r.player == s.player
    ensures r.ball.x == r.player.x
    ensures !s.toss.active ==> r.ball.y == r.player.y + BALL_CARRY_OFFSET && r.toss == s.toss
    ensures s.toss.active ==>
      r.ball.y == TossY(c, s.toss.startY, s.toss.targetY, s.toss.frame) &&
      r.toss.frame == s.toss.frame + 1 &&
      r.toss.active == (s.toss.frame + 1 < BALL_TOSS_DURATION) &&
      r.toss.direction == s.toss.direction &&
      r.toss.startY == s.toss.startY && r.toss.targetY == s.toss.targetY
    ensures r.opponent.x == s.opponent.x
    ensures r.opponent.y == s.opponent.y + s.opponentDir as real * OPPONENT_SPEED
    ensures s.opponentDir != 0 ==>
      (r.opponentDir == -s.opponentDir <==>
       r.opponent.y < OPPONENT_TOP || r.opponent.y > c.height - OPPONENT_BOTTOM_MARGIN)
    ensures r.opponentDir == s.opponentDir || r.opponentDir == -s.opponentDir
    ensures r.joystick == s.joystick && r.knobPos == s.knobPos && r.playerHasBall == s.playerHasBall
    ensures Invariant(s) ==> Invariant(r)
  {
    var player := MovePlayer(c, s.player, s.joystick);
    var (ball, toss) :=
      if s.toss.active then
        var frame := s.toss.frame + 1;
        (Vec(player.x, TossY(c, s.toss.startY, s.toss.targetY, s.toss.frame)),
         s.toss.(frame := frame, active := frame < BALL_TOSS_DURATION))
      else
        (Vec(player.x, player.y + BALL_CARRY_OFFSET), s.toss);
    var (opponent, dir) := Patrol(c, s.opponent, s.opponentDir);
    s.(player := player, ball := ball, opponent := opponent, opponentDir := dir, toss := toss)
  }

  /** `n` frames of the update step. */
  function Ticks(c: Config, s: State, n: nat): (r: State)
    requires ValidConfig(c)
    ensures n > 0 ==> PlayerInBounds(c, r.player) && r.ball.x == r.player.x
    ensures Invariant(s) ==> Invariant(r)
    ensures r.playerHasBall == s.playerHasBall
  {
    if n == 0 then s else Tick(c, Ticks(c, s, n - 1))
  }

  /** The toss branch of the grant handler: a touch in the toss zone starts a
      toss from the ball's current height, unless one is already running. */
  function StartToss(c: Config, s: State, x: real, y: real): (r: State)
    ensures !InTossZone(c, x, y) || s.toss.active ==> r == s
    ensures InTossZone(c, x, y) && !s.toss.active ==>
      r.toss.active && r.toss.frame == 0 && r.toss.startY == s.ball.y &&
      r.toss.direction == Some(ZoneDirection(c, y)) &&
      r.toss.targetY == (if y - c.height * TOSS_ZONE_Y_FRACTION < TOSS_UP_STRIP
                         then s.ball.y - BALL_TOSS_DISTANCE
                         else s.ball.y + BALL_TOSS_DISTANCE) &&
      r.(toss := s.toss) == s
    ensures Invariant(s) ==> Invariant(r)
  {
    if InTossZone(c, x, y) && !s.toss.active then
      var d := ZoneDirection(c, y);
      s.(toss := Toss(true, Some(d), 0, s.ball.y, s.ball.y + Shift(d)))
    else
      s
  }

  /** A joystick touch at (x, y): inside the joystick circle it sets the speed
      vector and the knob; outside it changes nothing. */
  function JoystickMove(c: Config, s: State, x: real, y: real): (r: State)
    ensures !InJoystick(c, x, y) ==> r == s
    ensures InJoystick(c, x, y) ==>
      var dx, dy := x - JOYSTICK_X, y - JoystickY(c);
      var o := c.knobOffset(dx, dy);
      r.joystick == c.steer(dx, dy) &&
      r.knobPos == Vec(JOYSTICK_X + o.x, JoystickY(c) + o.y) &&
      r.(joystick := s.joystick, knobPos := s.knobPos) == s
  {
    if InJoystick(c, x, y) then
      var dx, dy := x - JOYSTICK_X, y - JoystickY(c);
      var o := c.knobOffset(dx, dy);
      s.(joystick := c.steer(dx, dy), knobPos := Vec(JOYSTICK_X + o.x, JoystickY(c) + o.y))
    else
      s
  }

  /** The pan grant handler: the joystick update first, then the toss branch
      on the same touch. */
  function Grant(c: Config, s: State, x: real, y: real): (r: State)
    ensures r.toss == StartToss(c, s, x, y).toss
    ensures r.(toss := s.toss) == JoystickMove(c, s, x, y)
    ensures Invariant(s) ==> Invariant(r)
  {
    StartToss(c, JoystickMove(c, s, x, y), x, y)
  }

  /** Lifting the finger: the speed vector returns to zero and the knob to the
      joystick centre. */
  function Release(c: Config, s: State): (r: State)
    ensures r.joystick == Vec(0.0, 0.0) && r.knobPos == JoystickCentre(c)
    ensures r.(joystick := s.joystick, knobPos := s.knobPos) == s
  {
    s.(joystick := Vec(0.0, 0.0), knobPos := JoystickCentre(c))
  }

  /** The ball-control touch: in the toss zone the ball jumps 150 units up or
      down at once and the player loses the ball; elsewhere nothing happens. */
  function BallControl(c: Config, s: State, x: real, y: real): (r: State)
    ensures !InTossZone(c, x, y) ==> r == s
    ensures InTossZone(c, x, y) ==>
      r.ball.x == s.ball.x &&
      r.ball.y == (if y - c.height * TOSS_ZONE_Y_FRACTION < TOSS_UP_STRIP
                   then s.ball.y - BALL_TOSS_DISTANCE
                   else s.ball.y + BALL_TOSS_DISTANCE) &&
      !r.playerHasBall &&
      r.(ball := s.ball, playerHasBall := s.playerHasBall) == s
    ensures Invariant(s) ==> Invariant(r)
  {
    if InTossZone(c, x, y) then
      s.(ball := s.ball.(y := s.ball.y + Shift(ZoneDirection(c, y))), playerHasBall := false)
    else
      s
  }

  // --- Properties over several frames and handlers ---

  /** A running toss advances one frame per tick, keeps its ends, and the
      ball follows the eased trajectory of the previous frame. */
  lemma {:induction false} TossRun(c: Config, s: State, k: nat)
    requires ValidConfig(c)
    requires s.toss.active && s.toss.frame + k <= BALL_TOSS_DURATION
    ensures var r := Ticks(c, s, k);
      r.toss.frame == s.toss.frame + k &&
      r.toss.active == (k == 0 || s.toss.frame + k < BALL_TOSS_DURATION) &&
      r.toss.direction == s.toss.direction &&
      r.toss.startY == s.toss.startY && r.toss.targetY == s.toss.targetY &&
      (k > 0 ==> r.ball.y == TossY(c, s.toss.startY, s.toss.targetY, s.toss.frame + k - 1))
  {
    if k > 0 {
      TossRun(c, s, k - 1);
    }
  }

  /** A freshly started toss is running for exactly 40 ticks: after each of
      the first 39 it is still active, after the 40th it is over, its last
      trajectory point is at t = 39/40, and on the 41st tick the ball is back
      5 units below the player. */
  lemma TossLifetime(c: Config, s: State)
    requires ValidConfig(c)
    requires s.toss.active && s.toss.frame == 0
    ensures forall k: nat :: k < BALL_TOSS_DURATION ==> Ticks(c, s, k).toss.active
    ensures !Ticks(c, s, BALL_TOSS_DURATION).toss.active
    ensures Ticks(c, s, BALL_TOSS_DURATION).ball.y ==
            TossY(c, s.toss.startY, s.toss.targetY, BALL_TOSS_DURATION - 1)
    ensures TossT(BALL_TOSS_DURATION - 1) == 39.0 / 40.0
    ensures var r := Ticks(c, s, BALL_TOSS_DURATION + 1);
      r.ball == Vec(r.player.x, r.player.y + BALL_CARRY_OFFSET)
  {
    forall k: nat | k < BALL_TOSS_DURATION
      ensures Ticks(c, s, k).toss.active
    {
      TossRun(c, s, k);
    }
    TossRun(c, s, BALL_TOSS_DURATION);
  }

  /** The first tick of a toss leaves the ball exactly at its start height. */
  lemma FirstTossFrame(c: Config, s: State)
    requires ValidConfig(c)
    requires s.toss.active && s.toss.frame == 0
    ensures Tick(c, s).ball == Vec(Tick(c, s).player.x, s.toss.startY)
  {
  }

  /** Every trajectory point of a toss lies between its start and target
      heights once the arc term is taken off, whichever way it goes. */
  lemma TossStaysBetweenEnds(c: Config, s: State)
    requires ValidConfig(c) && Invariant(s) && s.toss.active
    ensures var y := Tick(c, s).ball.y + c.arc(TossT(s.toss.frame));
      if s.toss.direction == Some(Up)
      then s.toss.startY - BALL_TOSS_DISTANCE <= y <= s.toss.startY
      else s.toss.startY <= y <= s.toss.startY + BALL_TOSS_DISTANCE
  {
  }

  /** A grant during a running toss leaves the toss record untouched. */
  lemma GrantWhileActive(c: Config, s: State, x: real, y: real)
    requires s.toss.active
    ensures Grant(c, s, x, y).toss == s.toss
  {
  }

  /** Repeating the same toss touch has no further effect, from any state. */
  lemma StartTossIdempotent(c: Config, s: State, x: real, y: real)
    ensures StartToss(c, StartToss(c, s, x, y), x, y) == StartToss(c, s, x, y)
  {
  }

  /** The update step never reads possession: two states that differ only in
      whether the player has the ball tick to states that differ in the same way. */
  lemma TickIgnoresPossession(c: Config, s: State, hasBall: bool)
    requires ValidConfig(c)
    ensures Tick(c, s.(playerHasBall := hasBall)) == Tick(c, s).(playerHasBall := hasBall)
  {
  }

  /** The next tick overwrites whatever a ball-control touch did to the ball. */
  lemma BallControlOverwritten(c: Config, s: State, x: real, y: real)
    requires ValidConfig(c)
    ensures Tick(c, BallControl(c, s, x, y)).ball == Tick(c, s).ball
  {
  }

  /** Once lost, possession never comes back: no handler and no tick sets it. */
  lemma PossessionNeverRestored(c: Config, s: State, x: real, y: real, n: nat)
    requires ValidConfig(c) && !s.playerHasBall
    ensures !Ticks(c, s, n).playerHasBall
    ensures !Grant(c, s, x, y).playerHasBall
    ensures !JoystickMove(c, s, x, y).playerHasBall
    ensures !Release(c, s).playerHasBall
    ensures !BallControl(c, s, x, y).playerHasBall
  {
  }
}
