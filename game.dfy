/** The App component's mutable state and its handlers. Each state cell
    (entities, opponent direction, joystick, knob, possession) and the toss
    reference is a field; a state setter is modelled as the field holding
    the new value by the next frame. Every method is proved against the
    matching function of module Step. */
module App {
  import opened Rules
  import opened Step

  class Game {
    const cfg: Config

    var player: Vec
    var ball: Vec
    var opponent: Vec
    var opponentDir: int
    var joystick: Vec
    var knobPos: Vec
    var playerHasBall: bool
    /** The toss reference's current record. */
    var toss: Toss

    ghost predicate Valid()
      reads this
    {
      ValidConfig(cfg) && Invariant(Snapshot())
    }

    /** The abstract state these fields hold. */
    function Snapshot(): State
      reads this
    {
      State(player, ball, opponent, opponentDir, joystick, knobPos, playerHasBall, toss)
    }

    constructor (c: Config)
      requires ValidConfig(c)
      ensures Valid() && cfg == c
      ensures Snapshot() == Initial(c)
    {
      cfg := c;
      player := Vec(PLAYER_START_X, PlayerStartY(c));
      ball := Vec(PLAYER_START_X, PlayerStartY(c) - 30.0);
      opponent := Vec(OpponentStartX(c), OpponentStartY(c));
      opponentDir := 1;
      joystick := Vec(0.0, 0.0);
      knobPos := JoystickCentre(c);
      playerHasBall := true;
      toss := IDLE_TOSS;
    }

    /** The per-frame update: clamp the player's move, advance the toss or
        carry the ball, patrol the opponent; returns the new entities. */
    method Tick() returns (e: Entities)
      requires Valid()
      modifies this
      ensures Valid()
      ensures Snapshot() == Step.Tick(cfg, old(Snapshot()))
      ensures e == Entities(player, ball, opponent)
    {
      ghost var s := Snapshot();
      player := player.(x := Clamp(PLAYER_RADIUS, cfg.width - PLAYER_RADIUS, player.x + joystick.x));
      player := player.(y := Clamp(PLAYER_RADIUS, cfg.height - PLAYER_RADIUS, player.y + joystick.y));

      if toss.active {
        ball := ball.(y := TossY(cfg, toss.startY, toss.targetY, toss.frame));
        ball := ball.(x := player.x);
        toss := toss.(frame := toss.frame + 1);
        if toss.frame >= BALL_TOSS_DURATION {
          toss := toss.(active := false);
        }
      } else {
        ball := ball.(y := player.y + BALL_CARRY_OFFSET);
        ball := ball.(x := player.x);
      }
      assert player == MovePlayer(cfg, s.player, s.joystick);
      ghost var mid := Step.Tick(cfg, s);
      assert ball == mid.ball && toss == mid.toss;

      opponent := opponent.(y := opponent.y + opponentDir as real * OPPONENT_SPEED);
      if opponent.y < OPPONENT_TOP || opponent.y > cfg.height - OPPONENT_BOTTOM_MARGIN {
        opponentDir := -opponentDir;
      }
      e := Entities(player, ball, opponent);
    }

    /** The joystick part of the grant and move handlers. */
    method Joystick(x: real, y: real)
      requires Valid()
      modifies this
      ensures Valid()
      ensures Snapshot() == JoystickMove(cfg, old(Snapshot()), x, y)
    {
      var dx := x - JOYSTICK_X;
      var dy := y - JoystickY(cfg);
      if dx * dx + dy * dy <= JOYSTICK_RADIUS * JOYSTICK_RADIUS {
        joystick := cfg.steer(dx, dy);
        var o := cfg.knobOffset(dx, dy);
        knobPos := Vec(JOYSTICK_X + o.x, JoystickY(cfg) + o.y);
      }
    }

    /** The pan grant handler: joystick first, then a toss if the touch is in
        the toss zone and none is running. */
    method Grant(x: real, y: real)
      requires Valid()
      modifies this
      ensures Valid()
      ensures Snapshot() == Step.Grant(cfg, old(Snapshot()), x, y)
    {
      Joystick(x, y);
      if x > cfg.width * TOSS_ZONE_X_FRACTION && y > cfg.height * TOSS_ZONE_Y_FRACTION {
        var relativeY := y - cfg.height * TOSS_ZONE_Y_FRACTION;
        var d := if relativeY < TOSS_UP_STRIP then Up else Down;
        if !toss.active {
          toss := Toss(true, Some(d), 0, ball.y,
                       if d == Up then ball.y - BALL_TOSS_DISTANCE else ball.y + BALL_TOSS_DISTANCE);
        }
      }
    }

    /** The pan move handler. */
    method Move(x: real, y: real)
      requires Valid()
      modifies this
      ensures Valid()
      ensures Snapshot() == JoystickMove(cfg, old(Snapshot()), x, y)
    {
      Joystick(x, y);
    }

    /** The pan release handler. */
    method Release()
      requires Valid()
      modifies this
      ensures Valid()
      ensures Snapshot() == Step.Release(cfg, old(Snapshot()))
    {
      joystick := Vec(0.0, 0.0);
      knobPos := Vec(JOYSTICK_X, JoystickY(cfg));
    }

    /** The responder grant handler's ball-control touch. */
    method BallControl(x: real, y: real)
      requires Valid()
      modifies this
      ensures Valid()
      ensures Snapshot() == Step.BallControl(cfg, old(Snapshot()), x, y)
    {
      if x > cfg.width * TOSS_ZONE_X_FRACTION && y > cfg.height * TOSS_ZONE_Y_FRACTION {
        var relativeY := y - cfg.height * TOSS_ZONE_Y_FRACTION;
        if relativeY < TOSS_UP_STRIP {
          ball := ball.(y := ball.y - BALL_TOSS_DISTANCE);
          playerHasBall := false;
        } else {
          ball := ball.(y := ball.y + BALL_TOSS_DISTANCE);
          playerHasBall := false;
        }
      }
    }
  }

  /** A client that only relies on the methods' contracts: a toss started
      from a fresh game runs for 40 frames and the ball is carried again on
      the 41st. */
  method TossScenario(c: Config, x: real, y: real) returns (g: Game)
    requires ValidConfig(c) && InTossZone(c, x, y)
    ensures g.Valid() && !g.toss.active && g.toss.frame == BALL_TOSS_DURATION
    ensures g.ball == Vec(g.player.x, g.player.y + BALL_CARRY_OFFSET)
  {
    g := new Game(c);
    g.Grant(x, y);
    ghost var s0 := g.Snapshot();
    assert s0.toss.active && s0.toss.frame == 0;
    var i := 0;
    while i < BALL_TOSS_DURATION + 1
      invariant 0 <= i <= BALL_TOSS_DURATION + 1
      invariant fresh(g) && g.Valid() && g.cfg == c
      invariant g.Snapshot() == Ticks(c, s0, i)
    {
      var snapshot := g.Tick();
      i := i + 1;
    }
    TossLifetime(c, s0);
    TossRun(c, s0, BALL_TOSS_DURATION);
  }
}
