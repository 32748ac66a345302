/** The game logic of `main.c` on plain values: what `init_player`,
    `init_ball`, `handle_player_key_press`, the two acceleration rules,
    `move_player` and `move_ball` compute, and the round-end test of
    `init_game`. The classes in module Objects perform these updates in place;
    the functions here are their specification. */
module Rules {
  import opened CInt
  import opened Config
  import opened Input

  datatype Option<T> = None | Some(value: T)

  /** `SDL_Rect`: top-left corner, width and height; y grows downward. */
  datatype Rect = Rect(x: int, y: int, w: int, h: int)

  /** `struct Player`. */
  datatype PlayerState = PlayerState(
    paddle: Rect,
    velocity: int,
    keyUpPressed: bool,
    keyDownPressed: bool,
    keyUp: KeyCode,
    keyDown: KeyCode,
    index: int,
    human: bool)

  /** `struct Ball`. */
  datatype BallState = BallState(rect: Rect, velocityX: int, velocityY: int)

  /** What `init_game` returns: -1 exit the game, 0 back to the menu,
      1 the first player wins the round, 2 the second player wins it. */
  datatype RoundResult = ExitGame | ReturnToMenu | FirstPlayerWins | SecondPlayerWins

  const FirstPlayerIndex := 1
  const SecondPlayerIndex := 2

  /** The values `rand()` yields while a ball is spawned: for each axis one
      for the speed and one for the sign. C leaves open in which order the
      two calls of one expression run, so each is its own parameter. */
  datatype Draws = Draws(speedX: nat, signX: nat, speedY: nat, signY: nat)

  /** A paddle that lies on the screen and moves no faster than the cap. */
  predicate PaddleInv(p: PlayerState, cfg: GameConfig) {
    && 0 <= p.paddle.y <= cfg.screenHeight - p.paddle.h
    && -cfg.maxVelocity <= p.velocity <= cfg.maxVelocity
  }

  /** `q` differs from `p` at most in the two held-key flags. */
  predicate OnlyKeysDiffer(p: PlayerState, q: PlayerState) {
    q == p.(keyUpPressed := q.keyUpPressed, keyDownPressed := q.keyDownPressed)
  }

  // ---------------------------------------------------------------------
  // Construction

  /** `init_player`: a resting paddle, vertically centred, `xOffset` away
      from its own side of the screen, bound to W/S (first player) or to the
      arrow keys (second player). */
  function InitPlayer(cfg: GameConfig, index: int, human: bool): (p: PlayerState)
    requires index == FirstPlayerIndex || index == SecondPlayerIndex
    ensures p.velocity == 0 && !p.keyUpPressed && !p.keyDownPressed
    ensures p.index == index && p.human == human
    ensures p.paddle.w == cfg.paddleWidth && p.paddle.h == cfg.paddleHeight
    ensures Valid(cfg) ==> PaddleInv(p, cfg)
    ensures Valid(cfg) ==> 0 <= (cfg.screenHeight - p.paddle.h - p.paddle.y) - p.paddle.y <= 1
    ensures index == FirstPlayerIndex ==>
              p.paddle.x == cfg.xOffset && p.keyUp == KeyW && p.keyDown == KeyS
    ensures index == SecondPlayerIndex ==>
              cfg.screenWidth - (p.paddle.x + p.paddle.w) == cfg.xOffset
              && p.keyUp == KeyUp && p.keyDown == KeyDown
  {
    var y := Div(cfg.screenHeight - cfg.paddleHeight, 2);
    if index == FirstPlayerIndex then
      PlayerState(Rect(cfg.xOffset, y, cfg.paddleWidth, cfg.paddleHeight),
                  0, false, false, KeyW, KeyS, index, human)
    else
      PlayerState(Rect(cfg.screenWidth - cfg.xOffset - cfg.paddleWidth, y,
                       cfg.paddleWidth, cfg.paddleHeight),
                  0, false, false, KeyUp, KeyDown, index, human)
  }

  /** One velocity component of a new ball: a speed drawn from
      `maxVelocity / 2 + 1 .. 2 * (maxVelocity / 2)` with a drawn sign. */
  function SpawnSpeed(m: int, speedDraw: nat, signDraw: nat): (v: int)
    requires m >= 2
    ensures m / 2 + 1 <= Abs(v) <= 2 * (m / 2) <= m
    ensures v > 0 <==> signDraw % 2 == 1
  {
    var speed := Rem(speedDraw, m / 2) + 1 + m / 2;
    if Rem(signDraw, 2) == 1 then speed else -speed
  }

  /** `init_ball`: a square ball in the middle of the screen with a random
      speed on each axis. `maxVelocity >= 2` keeps `rand() % (maxVelocity / 2)`
      from dividing by zero. */
  function InitBall(cfg: GameConfig, d: Draws): (b: BallState)
    requires cfg.maxVelocity >= 2
    ensures b.rect.w == cfg.ballDiameter && b.rect.h == cfg.ballDiameter
    ensures Valid(cfg) ==> 0 <= (cfg.screenWidth - b.rect.w - b.rect.x) - b.rect.x <= 1
    ensures Valid(cfg) ==> 0 <= (cfg.screenHeight - b.rect.h - b.rect.y) - b.rect.y <= 1
    ensures cfg.maxVelocity / 2 + 1 <= Abs(b.velocityX) <= cfg.maxVelocity
    ensures cfg.maxVelocity / 2 + 1 <= Abs(b.velocityY) <= cfg.maxVelocity
    ensures b.velocityX > 0 <==> d.signX % 2 == 1
    ensures b.velocityY > 0 <==> d.signY % 2 == 1
  {
    BallState(
      Rect(Div(cfg.screenWidth - cfg.ballDiameter, 2), Div(cfg.screenHeight - cfg.ballDiameter, 2),
           cfg.ballDiameter, cfg.ballDiameter),
      SpawnSpeed(cfg.maxVelocity, d.speedX, d.signX),
      SpawnSpeed(cfg.maxVelocity, d.speedY, d.signY))
  }

  lemma RemOfSmall(a: int, b: int)
    requires 0 <= a < b
    ensures Rem(a, b) == a
  {
    assert a / b == 0;
  }

  /** The draws that make `SpawnSpeed` yield a given speed. */
  lemma SpawnSpeedHits(m: int, v: int)
    requires m >= 2 && m / 2 + 1 <= Abs(v) <= 2 * (m / 2)
    ensures SpawnSpeed(m, Abs(v) - m / 2 - 1, if v > 0 then 1 else 0) == v
  {
    var half := m / 2;
    var draw := Abs(v) - half - 1;
    RemOfSmall(draw, half);
  }

  /** Every speed in the spawn range, with either sign and on both axes
      independently, is produced by some outcome of `rand()`. */
  lemma SpawnCovers(cfg: GameConfig, vx: int, vy: int)
    requires cfg.maxVelocity >= 2
    requires cfg.maxVelocity / 2 + 1 <= Abs(vx) <= 2 * (cfg.maxVelocity / 2)
    requires cfg.maxVelocity / 2 + 1 <= Abs(vy) <= 2 * (cfg.maxVelocity / 2)
    ensures exists d: Draws :: InitBall(cfg, d).velocityX == vx && InitBall(cfg, d).velocityY == vy
  {
    var m := cfg.maxVelocity;
    SpawnSpeedHits(m, vx);
    SpawnSpeedHits(m, vy);
    var d := Draws(Abs(vx) - m / 2 - 1, if vx > 0 then 1 else 0,
                   Abs(vy) - m / 2 - 1, if vy > 0 then 1 else 0);
    assert InitBall(cfg, d).velocityX == vx && InitBall(cfg, d).velocityY == vy;
  }

  // ---------------------------------------------------------------------
  // Input

  /** The event concerns one of the player's two bound keys. */
  predicate IsBound(p: PlayerState, ev: Event) {
    (ev.KeyPressed? || ev.KeyReleased?) && (ev.key == p.keyUp || ev.key == p.keyDown)
  }

  /** `handle_player_key_press`: a key going down sets the flag of the
      binding it matches, going up clears it; the up binding is tried first. */
  function HandleKeyPress(p: PlayerState, ev: Event): (q: PlayerState)
    ensures OnlyKeysDiffer(p, q)
    ensures !IsBound(p, ev) ==> q == p
    ensures ev == KeyPressed(p.keyUp) ==> q.keyUpPressed && q.keyDownPressed == p.keyDownPressed
    ensures ev == KeyReleased(p.keyUp) ==> !q.keyUpPressed && q.keyDownPressed == p.keyDownPressed
    ensures ev == KeyPressed(p.keyDown) && p.keyDown != p.keyUp ==>
              q.keyDownPressed && q.keyUpPressed == p.keyUpPressed
    ensures ev == KeyReleased(p.keyDown) && p.keyDown != p.keyUp ==>
              !q.keyDownPressed && q.keyUpPressed == p.keyUpPressed
  {
    match ev
    case KeyPressed(k) =>
      if k == p.keyUp then p.(keyUpPressed := true)
      else if k == p.keyDown then p.(keyDownPressed := true)
      else p
    case KeyReleased(k) =>
      if k == p.keyUp then p.(keyUpPressed := false)
      else if k == p.keyDown then p.(keyDownPressed := false)
      else p
    case _ => p
  }

  /** Pressing and then releasing a key leaves the same flags as releasing
      it alone: the flags follow the last event of each key (level, not edge). */
  lemma PressThenRelease(p: PlayerState, k: KeyCode)
    ensures HandleKeyPress(HandleKeyPress(p, KeyPressed(k)), KeyReleased(k))
            == HandleKeyPress(p, KeyReleased(k))
  {
  }

  // ---------------------------------------------------------------------
  // Acceleration

  /** `handle_human_player_acceleration`: a held up key speeds the paddle
      upward by one, otherwise a held down key speeds it downward by one,
      never past `maxVelocity` in either direction. */
  function HumanAcceleration(p: PlayerState, cfg: GameConfig): (q: PlayerState)
    ensures q == p.(velocity := q.velocity)
    ensures q.velocity == p.velocity || q.velocity == p.velocity - 1 || q.velocity == p.velocity + 1
    ensures q.velocity == p.velocity - 1 <==> p.keyUpPressed && p.velocity > -cfg.maxVelocity
    ensures q.velocity == p.velocity + 1 <==>
              !p.keyUpPressed && p.keyDownPressed && p.velocity < cfg.maxVelocity
  {
    if p.keyUpPressed then
      if p.velocity > -cfg.maxVelocity then p.(velocity := p.velocity - 1) else p
    else if p.keyDownPressed then
      if p.velocity < cfg.maxVelocity then p.(velocity := p.velocity + 1) else p
    else p
  }

  /** The ball lies wholly above the paddle (its bottom edge at or above the
      paddle's top). */
  predicate BallAbove(p: PlayerState, b: BallState) {
    b.rect.y + b.rect.h <= p.paddle.y
  }

  /** The ball lies wholly below the paddle. */
  predicate BallBelow(p: PlayerState, b: BallState) {
    b.rect.y >= p.paddle.y + p.paddle.h
  }

  /** `handle_computer_player_acceleration`: speed up toward a ball that is
      entirely above, otherwise entirely below, the paddle, within the cap. */
  function ComputerAcceleration(p: PlayerState, b: BallState, cfg: GameConfig): (q: PlayerState)
    ensures q == p.(velocity := q.velocity)
    ensures q.velocity == p.velocity || q.velocity == p.velocity - 1 || q.velocity == p.velocity + 1
    ensures q.velocity == p.velocity - 1 <==> BallAbove(p, b) && p.velocity > -cfg.maxVelocity
    ensures q.velocity == p.velocity + 1 <==>
              !(BallAbove(p, b) && p.velocity > -cfg.maxVelocity)
              && BallBelow(p, b) && p.velocity < cfg.maxVelocity
  {
    if BallAbove(p, b) && p.velocity > -cfg.maxVelocity then p.(velocity := p.velocity - 1)
    else if BallBelow(p, b) && p.velocity < cfg.maxVelocity then p.(velocity := p.velocity + 1)
    else p
  }

  /** Both rules change the velocity by at most one per tick and keep a
      velocity that was within the cap within it. */
  lemma AccelerationBounded(p: PlayerState, b: BallState, cfg: GameConfig)
    requires -cfg.maxVelocity <= p.velocity <= cfg.maxVelocity
    ensures var h := HumanAcceleration(p, cfg).velocity;
            -1 <= h - p.velocity <= 1 && -cfg.maxVelocity <= h <= cfg.maxVelocity
    ensures var c := ComputerAcceleration(p, b, cfg).velocity;
            -1 <= c - p.velocity <= 1 && -cfg.maxVelocity <= c <= cfg.maxVelocity
  {
  }

  /** Up has priority: holding both keys is the same as holding only up. */
  lemma BothKeysActAsUp(p: PlayerState, cfg: GameConfig)
    requires p.keyUpPressed
    ensures HumanAcceleration(p, cfg) == HumanAcceleration(p.(keyDownPressed := false), cfg).(keyDownPressed := p.keyDownPressed)
  {
  }

  /** The computer paddle keeps its speed while the ball's vertical span
      overlaps the paddle's. */
  lemma ComputerIdleOnOverlap(p: PlayerState, b: BallState, cfg: GameConfig)
    requires b.rect.y + b.rect.h > p.paddle.y && b.rect.y < p.paddle.y + p.paddle.h
    ensures ComputerAcceleration(p, b, cfg) == p
  {
  }

  /** The paddle after `n` applications of the human acceleration rule with
      the keys unchanged (the velocity rule only; the paddle does not move). */
  function HumanTicks(p: PlayerState, cfg: GameConfig, n: nat): PlayerState
    decreases n
  {
    if n == 0 then p else HumanTicks(HumanAcceleration(p, cfg), cfg, n - 1)
  }

  /** Holding up for `n` ticks, as long as the cap allows, lowers the
      velocity by exactly `n`, whatever the down key does. */
  lemma {:induction false} HoldUp(p: PlayerState, cfg: GameConfig, n: nat)
    requires p.keyUpPressed && n <= cfg.maxVelocity + p.velocity
    ensures HumanTicks(p, cfg, n).velocity == p.velocity - n
    decreases n
  {
    if n > 0 {
      HoldUp(HumanAcceleration(p, cfg), cfg, n - 1);
    }
  }

  // ---------------------------------------------------------------------
  // Movement

  /** `move_player`: add the velocity to y; a paddle that reaches or passes
      the bottom edge, or else the top edge, is put back on that edge and
      stopped. */
  function MovePlayer(p: PlayerState, cfg: GameConfig): (q: PlayerState)
    ensures q == p.(paddle := p.paddle.(y := q.paddle.y), velocity := q.velocity)
    ensures 0 <= p.paddle.h <= cfg.screenHeight ==> 0 <= q.paddle.y <= cfg.screenHeight - p.paddle.h
    ensures var y := p.paddle.y + p.velocity;
            0 < y && y + p.paddle.h < cfg.screenHeight ==>
              q.paddle.y == y && q.velocity == p.velocity
    ensures var y := p.paddle.y + p.velocity;
            y + p.paddle.h >= cfg.screenHeight ==>
              q.paddle.y == cfg.screenHeight - p.paddle.h && q.velocity == 0
    ensures var y := p.paddle.y + p.velocity;
            y + p.paddle.h < cfg.screenHeight && y <= 0 ==> q.paddle.y == 0 && q.velocity == 0
  {
    var y := p.paddle.y + p.velocity;
    if y + p.paddle.h >= cfg.screenHeight then
      p.(paddle := p.paddle.(y := cfg.screenHeight - p.paddle.h), velocity := 0)
    else if y <= 0 then
      p.(paddle := p.paddle.(y := 0), velocity := 0)
    else
      p.(paddle := p.paddle.(y := y))
  }

  /** Accelerating and then moving keeps a paddle on the screen and within
      the speed cap, for either rule. */
  lemma TickKeepsPaddleInv(p: PlayerState, b: BallState, cfg: GameConfig)
    requires PaddleInv(p, cfg) && 0 <= p.paddle.h <= cfg.screenHeight
    ensures PaddleInv(MovePlayer(HumanAcceleration(p, cfg), cfg), cfg)
    ensures PaddleInv(MovePlayer(ComputerAcceleration(p, b, cfg), cfg), cfg)
  {
    AccelerationBounded(p, b, cfg);
  }

  /** The contact test of `move_ball`: the ball's left edge lies within the
      paddle's horizontal extent and its vertical span meets the paddle's. */
  predicate Touches(ball: Rect, paddle: Rect) {
    && ball.x <= paddle.x + paddle.w
    && ball.x >= paddle.x
    && ball.y <= paddle.y + paddle.h
    && ball.y + ball.h >= paddle.y
  }

  /** `move_ball`: move by the velocity; on contact with the first paddle
      head right, else on contact with the second head left; reverse the
      vertical speed when the next step would reach the top or bottom. */
  function MoveBall(b: BallState, first: PlayerState, second: PlayerState, cfg: GameConfig): (r: BallState)
    ensures r.rect == b.rect.(x := b.rect.x + b.velocityX, y := b.rect.y + b.velocityY)
    ensures Abs(r.velocityX) == Abs(b.velocityX) && Abs(r.velocityY) == Abs(b.velocityY)
    ensures Touches(r.rect, first.paddle) ==> r.velocityX == Abs(b.velocityX)
    ensures !Touches(r.rect, first.paddle) && Touches(r.rect, second.paddle) ==>
              r.velocityX == -Abs(b.velocityX)
    ensures !Touches(r.rect, first.paddle) && !Touches(r.rect, second.paddle) ==>
              r.velocityX == b.velocityX
    ensures r.rect.y + r.rect.h + b.velocityY >= cfg.screenHeight || r.rect.y + b.velocityY <= 0 ==>
              r.velocityY == -b.velocityY
    ensures !(r.rect.y + r.rect.h + b.velocityY >= cfg.screenHeight || r.rect.y + b.velocityY <= 0) ==>
              r.velocityY == b.velocityY
  {
    var moved := b.rect.(x := b.rect.x + b.velocityX, y := b.rect.y + b.velocityY);
    var vx := if Touches(moved, first.paddle) then Abs(b.velocityX)
              else if Touches(moved, second.paddle) then -Abs(b.velocityX)
              else b.velocityX;
    var vy := if moved.y + moved.h + b.velocityY >= cfg.screenHeight || moved.y + b.velocityY <= 0
              then -b.velocityY else b.velocityY;
    BallState(moved, vx, vy)
  }

  /** A ball stepped exactly onto the first paddle's top-left corner leaves
      it moving right, whatever its horizontal direction was. */
  lemma CornerContact(b: BallState, first: PlayerState, second: PlayerState, cfg: GameConfig)
    requires b.velocityX != 0
    requires first.paddle.w >= 0 && first.paddle.h >= 0 && b.rect.h >= 0
    requires b.rect.x + b.velocityX == first.paddle.x && b.rect.y + b.velocityY == first.paddle.y
    ensures MoveBall(b, first, second, cfg).velocityX > 0
  {
  }

  /** The round-end test of `init_game`: the right edge is tested first, and
      a ball leaving on the right is a point for the first player. */
  function Scored(b: BallState, cfg: GameConfig): (r: Option<RoundResult>)
    ensures r == Some(FirstPlayerWins) <==> b.rect.x + b.rect.w >= cfg.screenWidth
    ensures r == Some(SecondPlayerWins) <==>
              b.rect.x + b.rect.w < cfg.screenWidth && b.rect.x <= 0
    ensures r == None <==> 0 < b.rect.x && b.rect.x + b.rect.w < cfg.screenWidth
  {
    if b.rect.x + b.rect.w >= cfg.screenWidth then Some(FirstPlayerWins)
    else if b.rect.x <= 0 then Some(SecondPlayerWins)
    else None
  }
}
