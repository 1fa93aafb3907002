/** The simulation as functions on values: what one tick of `update`, one
    `resetBall` and one start signal do to the match state.  The class in
    module Pong carries out the same steps in place and is proved against
    these functions. */
module Physics {
  import opened Entities
  import opened Collision

  /** `resetBall`: re-centre the ball, restore the base speed and serve back
      the way it came by negating both velocity components. */
  function Reset(c: Canvas, b: Ball): Ball
  {
    b.(x := c.width / 2.0, y := c.height / 2.0, speed := BaseSpeed,
       velocityX := -b.velocityX, velocityY := -b.velocityY)
  }

  /** Step 1: move the ball by its velocity. */
  function Integrate(b: Ball): Ball
  {
    b.(x := b.x + b.velocityX, y := b.y + b.velocityY)
  }

  /** The ball reaches past the bottom or the top edge of the canvas. */
  predicate HitsWall(c: Canvas, b: Ball)
  {
    b.y + b.radius > c.height || b.y - b.radius < 0.0
  }

  /** Step 2: on a wall hit the vertical velocity changes sign. */
  function Bounce(c: Canvas, b: Ball): Ball
  {
    if HitsWall(c, b) then b.(velocityY := -b.velocityY) else b
  }

  /** Steps 1 and 2 together. */
  function Moved(c: Canvas, b: Ball): Ball
  {
    Bounce(c, Integrate(b))
  }

  /** The ball's centre is left of midfield. */
  predicate OnLeft(c: Canvas, b: Ball)
  {
    b.x < c.width / 2.0
  }

  /** Step 3: the paddle the ball is tested against. */
  function ActivePaddle(c: Canvas, b: Ball, user: Paddle, ai: Paddle): Paddle
  {
    if OnLeft(c, b) then user else ai
  }

  /** Where the ball met the paddle, relative to the paddle's centre and in
      units of half its height (not clamped). */
  function CollidePoint(b: Ball, p: Paddle): real
    requires p.height > 0.0
  {
    (b.y - (p.y + p.height / 2.0)) / (p.height / 2.0)
  }

  /** +1 when the ball is sent rightwards (it is on the user's half), -1 otherwise. */
  function Direction(c: Canvas, b: Ball): real
  {
    if OnLeft(c, b) then 1.0 else -1.0
  }

  /** Step 4: on a hit the ball leaves at the angle the collide point selects,
      with its current speed, and the speed grows by one step. */
  function Deflect(c: Canvas, bend: Bend, b: Ball, p: Paddle): Ball
    requires p.height > 0.0
  {
    if Collides(b, p) then
      var d := bend(CollidePoint(b, p));
      b.(velocityX := Direction(c, b) * b.speed * d.cos,
         velocityY := b.speed * d.sin,
         speed := b.speed + SpeedStep)
    else b
  }

  /** Whether the running tick from `s` finds the ball on the active paddle. */
  predicate Hit(c: Canvas, s: State)
  {
    var b := Moved(c, s.ball);
    s.running && Collides(b, ActivePaddle(c, b, s.user, s.ai))
  }

  /** The ball after steps 1 to 4 of a tick. */
  function AfterPaddle(c: Canvas, bend: Bend, s: State): Ball
    requires WellFormed(s)
  {
    var b := Moved(c, s.ball);
    Deflect(c, bend, b, ActivePaddle(c, b, s.user, s.ai))
  }

  /** The ball's left edge is past the left side of the canvas. */
  predicate ExitsLeft(b: Ball)
  {
    b.x - b.radius < 0.0
  }

  /** The ball's right edge is past the right side of the canvas. */
  predicate ExitsRight(c: Canvas, b: Ball)
  {
    b.x + b.radius > c.width
  }

  /** Step 5: a ball out on the left is a point for the ai, else one out on
      the right a point for the user; either way the ball is served again. */
  function Score(c: Canvas, s: State): State
  {
    if ExitsLeft(s.ball) then
      s.(ai := s.ai.(score := s.ai.score + 1), ball := Reset(c, s.ball))
    else if ExitsRight(c, s.ball) then
      s.(user := s.user.(score := s.user.score + 1), ball := Reset(c, s.ball))
    else s
  }

  /** Step 6: the first side found at the winning score ends the match. */
  function Judge(s: State): (State, Announcement)
  {
    if s.ai.score >= WinningScore then (s.(running := false), AiWins)
    else if s.user.score >= WinningScore then (s.(running := false), UserWins)
    else (s, Silent)
  }

  /** Whether the running tick from `s` scores a point. */
  predicate Scored(c: Canvas, bend: Bend, s: State)
    requires WellFormed(s)
  {
    var b := AfterPaddle(c, bend, s);
    s.running && (ExitsLeft(b) || ExitsRight(c, b))
  }

  /** `update`: nothing while the match is idle, otherwise steps 1 to 6. */
  function Tick(c: Canvas, bend: Bend, s: State): (r: (State, Announcement))
    requires WellFormed(s)
    ensures WellFormed(r.0)
    ensures r.0.user == s.user.(score := r.0.user.score) && r.0.ai == s.ai.(score := r.0.ai.score)
    ensures r.0.ball.radius == s.ball.radius
  {
    if !s.running then (s, Silent)
    else Judge(Score(c, s.(ball := AfterPaddle(c, bend, s))))
  }

  /** The start listeners: an idle match starts running and its ticks are
      scheduled; a running one is left alone.  The flag says whether a tick
      schedule was started. */
  function StartSignal(s: State): (State, bool)
  {
    if !s.running then (s.(running := true), true) else (s, false)
  }
}
