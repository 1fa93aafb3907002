/** The records of the simulation: the ball, the two paddles, the canvas they
    live on and the whole match state.  Coordinates and speeds are reals. */
module Entities {

  /** Drawing-surface size; fixed for the lifetime of the game. */
  datatype Canvas = Canvas(width: real, height: real)
  {
    predicate Valid() { width > 0.0 && height > 0.0 }
  }

  /** The ball (its display colour is left out). */
  datatype Ball = Ball(x: real, y: real, radius: real, speed: real,
                       velocityX: real, velocityY: real)

  /** A paddle with the score of the player who owns it (colour left out). */
  datatype Paddle = Paddle(x: real, y: real, width: real, height: real, score: nat)

  /** Everything a tick reads and writes: the ball, the two paddles and the
      running flag `gameStatus`. */
  datatype State = State(ball: Ball, user: Paddle, ai: Paddle, running: bool)

  /** The cosine and sine of the deflection angle chosen on a paddle hit. */
  datatype Deflection = Deflection(cos: real, sin: real)

  /** The host's trigonometry, as seen by a paddle hit: it maps the collide
      point `cp` to (cos(pi/4 * cp), sin(pi/4 * cp)). */
  type Bend = real -> Deflection

  /** The message a tick paints when the match is decided. */
  datatype Announcement = Silent | AiWins | UserWins

  const BaseSpeed: real := 7.0
  const SpeedStep: real := 0.2
  const WinningScore: nat := 20
  const BallRadius: real := 10.0
  const PaddleWidth: real := 10.0
  const PaddleHeight: real := 100.0

  /** Geometric sanity of a state: a ball with positive size and speed at least
      the base speed, and paddles of positive size. */
  predicate WellFormed(s: State)
  {
    s.ball.radius > 0.0 && s.ball.speed >= BaseSpeed &&
    s.user.width > 0.0 && s.user.height > 0.0 &&
    s.ai.width > 0.0 && s.ai.height > 0.0
  }

  /** The ball as declared: centred, radius 10, speed 7, velocity (5, 5). */
  function InitialBall(c: Canvas): Ball
  {
    Ball(c.width / 2.0, c.height / 2.0, BallRadius, BaseSpeed, 5.0, 5.0)
  }

  /** The user paddle as declared: 10 from the left edge, vertically centred. */
  function InitialUser(c: Canvas): Paddle
  {
    Paddle(10.0, c.height / 2.0 - 50.0, PaddleWidth, PaddleHeight, 0)
  }

  /** The ai paddle as declared: 20 from the right edge, vertically centred. */
  function InitialAi(c: Canvas): Paddle
  {
    Paddle(c.width - 20.0, c.height / 2.0 - 50.0, PaddleWidth, PaddleHeight, 0)
  }

  /** The declared state, not yet running. */
  function InitialState(c: Canvas): (s: State)
    ensures WellFormed(s) && !s.running
    ensures s.ball.x == c.width / 2.0 && s.ball.y == c.height / 2.0
    ensures s.ball.speed == BaseSpeed && s.ball.velocityX == 5.0 && s.ball.velocityY == 5.0
    ensures s.user.score == 0 && s.ai.score == 0
    ensures s.ball.radius * 2.0 < s.user.height && s.ball.radius * 2.0 < s.ai.height
  {
    State(InitialBall(c), InitialUser(c), InitialAi(c), false)
  }
}
