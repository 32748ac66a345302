/** The two structs that `init_game` keeps in local variables and hands to
    the helpers by pointer. Each class holds the struct's fields; `State()`
    reads them back as the value that module Rules specifies, and every
    method updates the fields in place the way the C helper does. */
module Objects {
  import opened CInt
  import opened Config
  import opened Input
  import opened Rules

  /** `struct Player`. */
  class Player {
    var paddle: Rect
    var velocity: int
    var keyUpPressed: bool
    var keyDownPressed: bool
    var keyUp: KeyCode
    var keyDown: KeyCode
    var index: int
    var human: bool

    function State(): PlayerState
      reads this
    {
      PlayerState(paddle, velocity, keyUpPressed, keyDownPressed, keyUp, keyDown, index, human)
    }

    /** `struct Player p = init_player(cfg, index, human)`. */
    constructor (cfg: GameConfig, playerIndex: int, isHuman: bool)
      requires playerIndex == FirstPlayerIndex || playerIndex == SecondPlayerIndex
      ensures State() == InitPlayer(cfg, playerIndex, isHuman)
    {
      var y := Div(cfg.screenHeight - cfg.paddleHeight, 2);
      velocity := 0;
      keyUpPressed := false;
      keyDownPressed := false;
      index := playerIndex;
      human := isHuman;
      if playerIndex == FirstPlayerIndex {
        paddle := Rect(cfg.xOffset, y, cfg.paddleWidth, cfg.paddleHeight);
        keyUp := KeyW;
        keyDown := KeyS;
      } else {
        paddle := Rect(cfg.screenWidth - cfg.xOffset - cfg.paddleWidth, y, cfg.paddleWidth, cfg.paddleHeight);
        keyUp := Input.KeyUp;
        keyDown := Input.KeyDown;
      }
    }

    /** `move_player`. */
    method Move(cfg: GameConfig)
      modifies this
      ensures State() == MovePlayer(old(State()), cfg)
    {
      paddle := paddle.(y := paddle.y + velocity);
      if paddle.y + paddle.h >= cfg.screenHeight {
        velocity := 0;
        paddle := paddle.(y := cfg.screenHeight - paddle.h);
      } else if paddle.y <= 0 {
        velocity := 0;
        paddle := paddle.(y := 0);
      }
    }

    /** `handle_player_key_press`. */
    method HandleKey(ev: Event)
      modifies this
      ensures State() == HandleKeyPress(old(State()), ev)
    {
      if ev.KeyPressed? {
        if ev.key == keyUp {
          keyUpPressed := true;
        } else if ev.key == keyDown {
          keyDownPressed := true;
        }
      } else if ev.KeyReleased? {
        if ev.key == keyUp {
          keyUpPressed := false;
        } else if ev.key == keyDown {
          keyDownPressed := false;
        }
      }
    }

    /** `handle_human_player_acceleration`. */
    method AccelerateHuman(cfg: GameConfig)
      modifies this
      ensures State() == HumanAcceleration(old(State()), cfg)
    {
      if keyUpPressed {
        if velocity > -cfg.maxVelocity {
          velocity := velocity - 1;
        }
      } else if keyDownPressed {
        if velocity < cfg.maxVelocity {
          velocity := velocity + 1;
        }
      }
    }

    /** `handle_computer_player_acceleration`. */
    method AccelerateComputer(ball: Ball, cfg: GameConfig)
      modifies this
      ensures State() == ComputerAcceleration(old(State()), ball.State(), cfg)
    {
      if ball.rect.y + ball.rect.h <= paddle.y && velocity > -cfg.maxVelocity {
        velocity := velocity - 1;
      } else if ball.rect.y >= paddle.y + paddle.h && velocity < cfg.maxVelocity {
        velocity := velocity + 1;
      }
    }
  }

  /** `struct Ball`. */
  class Ball {
    var rect: Rect
    var velocityX: int
    var velocityY: int

    function State(): BallState
      reads this
    {
      BallState(rect, velocityX, velocityY)
    }

    /** `struct Ball b = init_ball(cfg)`, with `rand()` replaced by `d`. */
    constructor (cfg: GameConfig, d: Draws)
      requires cfg.maxVelocity >= 2
      ensures State() == InitBall(cfg, d)
    {
      var half := cfg.maxVelocity / 2;
      rect := Rect(Div(cfg.screenWidth - cfg.ballDiameter, 2), Div(cfg.screenHeight - cfg.ballDiameter, 2),
                   cfg.ballDiameter, cfg.ballDiameter);
      velocityX := (Rem(d.speedX, half) + 1 + half) * (if Rem(d.signX, 2) == 1 then 1 else -1);
      velocityY := (Rem(d.speedY, half) + 1 + half) * (if Rem(d.signY, 2) == 1 then 1 else -1);
    }

    /** `move_ball`. */
    method Move(first: Player, second: Player, cfg: GameConfig)
      modifies this
      ensures State() == MoveBall(old(State()), first.State(), second.State(), cfg)
    {
      rect := rect.(x := rect.x + velocityX, y := rect.y + velocityY);
      if rect.x <= first.paddle.x + first.paddle.w
         && rect.x >= first.paddle.x
         && rect.y <= first.paddle.y + first.paddle.h
         && rect.y + rect.h >= first.paddle.y
      {
        velocityX := Abs(velocityX);
      } else if rect.x <= second.paddle.x + second.paddle.w
                && rect.x >= second.paddle.x
                && rect.y <= second.paddle.y + second.paddle.h
                && rect.y + rect.h >= second.paddle.y
      {
        velocityX := -Abs(velocityX);
      }
      if rect.y + rect.h + velocityY >= cfg.screenHeight || rect.y + velocityY <= 0 {
        velocityY := -velocityY;
      }
    }
  }
}
