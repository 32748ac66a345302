/** The game's tuning constants (`struct GameConfig`), filled in once by
    `main` and only read afterwards. */
module Config {

  datatype GameConfig = GameConfig(
    paddleWidth: int,
    paddleHeight: int,
    xOffset: int,
    maxVelocity: int,
    ballDiameter: int,
    maxPoints: int,
    screenWidth: int,
    screenHeight: int,
    contentRed: int,
    contentGreen: int,
    contentBlue: int,
    selectedContentRed: int,
    selectedContentGreen: int,
    selectedContentBlue: int,
    menuOptionsGap: int,
    fps: int,
    font: string)

  /** The literal values `main` assigns before the first screen is shown. */
  const Default := GameConfig(
    paddleWidth := 20,
    paddleHeight := 80,
    xOffset := 10,
    maxVelocity := 10,
    ballDiameter := 20,
    maxPoints := 1,
    screenWidth := 960,
    screenHeight := 720,
    contentRed := 255,
    contentGreen := 255,
    contentBlue := 255,
    selectedContentRed := 0,
    selectedContentGreen := 255,
    selectedContentBlue := 0,
    menuOptionsGap := 40,
    fps := 60,
    font := "fonts/Roboto-Regular.ttf")

  /** What the rest of the program silently relies on: positive sizes that
      fit on the screen, a speed cap of at least 2 (the ball spawn divides by
      `maxVelocity / 2`) and a match of at least one point. */
  predicate Valid(cfg: GameConfig) {
    && cfg.paddleWidth > 0
    && 0 < cfg.paddleHeight <= cfg.screenHeight
    && cfg.xOffset >= 0
    && 2 * cfg.xOffset + 2 * cfg.paddleWidth <= cfg.screenWidth
    && cfg.maxVelocity >= 2
    && 0 < cfg.ballDiameter <= cfg.screenHeight
    && cfg.ballDiameter <= cfg.screenWidth
    && cfg.maxPoints >= 1
    && cfg.fps > 0
  }

  lemma DefaultValid()
    ensures Valid(Default)
  {
  }
}
