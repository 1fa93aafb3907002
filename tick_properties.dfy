/** What one tick, one reset and one start signal promise. */
module TickProperties {
  import opened Entities
  import opened Collision
  import opened Physics

  /** The trigonometry sends the ball forwards: cos(pi/4 * cp) is positive
      whenever |cp| < 2, that is whenever the angle lies strictly between
      -pi/2 and pi/2. */
  ghost predicate ForwardBend(bend: Bend)
  {
    forall cp: real :: -2.0 < cp < 2.0 ==> bend(cp).cos > 0.0
  }

  // ---- resetBall ----------------------------------------------------------

  /** A reset puts the ball in the middle of the canvas at the base speed,
      with both velocity components negated and its radius kept. */
  lemma ResetServesBack(c: Canvas, b: Ball)
    ensures var r := Reset(c, b);
      r.x == c.width / 2.0 && r.y == c.height / 2.0 && r.speed == BaseSpeed &&
      r.velocityX == -b.velocityX && r.velocityY == -b.velocityY && r.radius == b.radius
  {
  }

  /** Two resets restore the original velocity; the second changes nothing
      else either. */
  lemma ResetTwice(c: Canvas, b: Ball)
    ensures Reset(c, Reset(c, b)).velocityX == b.velocityX
    ensures Reset(c, Reset(c, b)).velocityY == b.velocityY
    ensures Reset(c, Reset(c, b)) == Reset(c, b).(velocityX := b.velocityX, velocityY := b.velocityY)
  {
  }

  // ---- update -------------------------------------------------------------

  /** An idle tick changes nothing and paints nothing. */
  lemma IdleTickChangesNothing(c: Canvas, bend: Bend, s: State)
    requires WellFormed(s) && !s.running
    ensures Tick(c, bend, s) == (s, Silent)
  {
  }

  /** Wall bounce: after the move, the vertical velocity is negated exactly when
      the ball reaches past the top or bottom edge and kept otherwise, while
      the position, horizontal velocity, speed and radius are those of the move. */
  lemma WallBounce(c: Canvas, b: Ball)
    ensures var m, i := Moved(c, b), Integrate(b);
      m.velocityY == (if i.y + i.radius > c.height || i.y - i.radius < 0.0
                      then -b.velocityY else b.velocityY) &&
      m.velocityX == b.velocityX && m.x == b.x + b.velocityX && m.y == b.y + b.velocityY &&
      m.speed == b.speed && m.radius == b.radius
  {
  }

  /** On a paddle, the collide point lies strictly within 1 + 2r/h of the
      centre (r the radius, h the paddle height): it may exceed 1 in size. */
  lemma CollidePointBound(b: Ball, p: Paddle)
    requires b.radius > 0.0 && p.height > 0.0 && Collides(b, p)
    ensures -1.0 - 2.0 * b.radius / p.height < CollidePoint(b, p) < 1.0 + 2.0 * b.radius / p.height
  {
    var half := p.height / 2.0;
    var off := b.y - (p.y + half);
    assert 2.0 * b.radius / p.height == b.radius / half;
    QuotientBounds(off, half, b.radius);
  }

  /** Dividing the bounds -h - r < o < h + r by a positive h. */
  lemma QuotientBounds(o: real, h: real, r: real)
    requires h > 0.0 && -h - r < o < h + r
    ensures -1.0 - r / h < o / h < 1.0 + r / h
  {
    var cp, q := o / h, r / h;
    assert cp * h == o && q * h == r;
    assert (cp - 1.0 - q) * h == o - h - r;
    assert (cp + 1.0 + q) * h == o + h + r;
    NegativeFactor(cp - 1.0 - q, h);
    NegativeFactor(-(cp + 1.0 + q), h);
  }

  /** A product with a positive factor is negative only if the other factor is. */
  lemma NegativeFactor(x: real, k: real)
    requires k > 0.0 && x * k < 0.0
    ensures x < 0.0
  {
  }

  /** A ball touching the paddle's corner gives a collide point beyond 1, so
      the deflection angle may exceed pi/4. */
  lemma CornerHitExceedsUnit()
    ensures var b, p := Ball(5.0, 145.0, 10.0, 7.0, 0.0, 0.0), Paddle(0.0, 40.0, 10.0, 100.0, 0);
      Collides(b, p) && CollidePoint(b, p) > 1.0
  {
  }

  /** Paddle choice and direction: on a hit the ball was tested against the
      user paddle left of midfield and the ai paddle otherwise; it leaves with
      horizontal velocity direction * speed * cos, where direction is +1 on the
      left and -1 on the right, and with vertical velocity speed * sin.  When
      the paddles are taller than the ball and cos is positive on the angles a
      hit can produce, the ball always moves away from the paddle it hit. */
  lemma DeflectionDirection(c: Canvas, bend: Bend, s: State)
    requires WellFormed(s) && Hit(c, s)
    ensures var m := Moved(c, s.ball);
      var p := ActivePaddle(c, m, s.user, s.ai);
      var r := AfterPaddle(c, bend, s);
      p == (if m.x < c.width / 2.0 then s.user else s.ai) &&
      r.velocityX == (if m.x < c.width / 2.0 then 1.0 else -1.0) * m.speed * bend(CollidePoint(m, p)).cos &&
      r.velocityY == m.speed * bend(CollidePoint(m, p)).sin
    ensures ForwardBend(bend) && 2.0 * s.ball.radius < s.user.height && 2.0 * s.ball.radius < s.ai.height ==>
      (OnLeft(c, Moved(c, s.ball)) ==> AfterPaddle(c, bend, s).velocityX > 0.0) &&
      (!OnLeft(c, Moved(c, s.ball)) ==> AfterPaddle(c, bend, s).velocityX < 0.0)
  {
    var m := Moved(c, s.ball);
    var p := ActivePaddle(c, m, s.user, s.ai);
    if ForwardBend(bend) && 2.0 * s.ball.radius < s.user.height && 2.0 * s.ball.radius < s.ai.height {
      CollidePointBound(m, p);
      var cp := CollidePoint(m, p);
      assert 2.0 * m.radius / p.height < 1.0 by {
        assert 2.0 * m.radius < p.height;
        DivBelowOne(2.0 * m.radius, p.height);
      }
      assert bend(cp).cos > 0.0;
      var k := m.speed * bend(cp).cos;
      assert k > 0.0 by { PosMul(m.speed, bend(cp).cos); }
    }
  }

  /** A quotient of a non-negative number by a larger one is below one. */
  lemma DivBelowOne(x: real, y: real)
    requires 0.0 <= x < y
    ensures x / y < 1.0
  {
    assert (x / y) * y == x;
  }

  /** The product of two positive numbers is positive. */
  lemma PosMul(x: real, y: real)
    requires x > 0.0 && y > 0.0
    ensures x * y > 0.0
  {
  }

  /** Speed ramp: a tick that hits a paddle raises the speed by exactly one
      step from its value at the start of the tick, a scoring tick restores
      the base speed, and any other tick leaves it unchanged. */
  lemma SpeedRamp(c: Canvas, bend: Bend, s: State)
    requires WellFormed(s)
    ensures Tick(c, bend, s).0.ball.speed ==
      if Scored(c, bend, s) then BaseSpeed
      else if Hit(c, s) then s.ball.speed + SpeedStep
      else s.ball.speed
  {
  }

  /** Scoring: at most one score moves in a tick, and by exactly one; the ai
      scores when the ball leaves on the left, otherwise the user scores when it
      leaves on the right; a scoring tick serves the ball again. */
  lemma Scoring(c: Canvas, bend: Bend, s: State)
    requires WellFormed(s)
    ensures var t, b := Tick(c, bend, s).0, AfterPaddle(c, bend, s);
      (s.running && ExitsLeft(b) ==>
         t.ai.score == s.ai.score + 1 && t.user.score == s.user.score && t.ball == Reset(c, b)) &&
      (s.running && !ExitsLeft(b) && ExitsRight(c, b) ==>
         t.user.score == s.user.score + 1 && t.ai.score == s.ai.score && t.ball == Reset(c, b)) &&
      (!Scored(c, bend, s) ==> t.user.score == s.user.score && t.ai.score == s.ai.score)
    ensures var t := Tick(c, bend, s).0;
      s.user.score <= t.user.score <= s.user.score + 1 &&
      s.ai.score <= t.ai.score <= s.ai.score + 1 &&
      t.user.score + t.ai.score <= s.user.score + s.ai.score + 1
  {
  }

  /** Win halt and tie-break: after a running tick the match is over exactly
      when a side has reached the winning score; the ai is announced when it has,
      the user otherwise. */
  lemma WinHalt(c: Canvas, bend: Bend, s: State)
    requires WellFormed(s) && s.running
    ensures var (t, shown) := Tick(c, bend, s);
      (t.running <==> t.ai.score < WinningScore && t.user.score < WinningScore) &&
      shown == (if t.ai.score >= WinningScore then AiWins
                else if t.user.score >= WinningScore then UserWins
                else Silent)
  {
  }

  /** While running by ticks alone, both scores stay below the winning score. */
  predicate InPlay(s: State)
  {
    s.running ==> s.ai.score < WinningScore && s.user.score < WinningScore
  }

  /** A tick keeps InPlay. */
  lemma TickKeepsInPlay(c: Canvas, bend: Bend, s: State)
    requires WellFormed(s)
    ensures InPlay(Tick(c, bend, s).0)
  {
  }

  // ---- start listeners -----------------------------------------------------

  /** The start latch: a start signal only ever sets the running flag, and
      starts a tick schedule exactly when the match was idle; a second signal
      straight after changes nothing and schedules nothing. */
  lemma StartLatch(s: State)
    ensures StartSignal(s).0 == s.(running := true)
    ensures StartSignal(s).1 <==> !s.running
    ensures StartSignal(StartSignal(s).0) == (StartSignal(s).0, false)
  {
  }

  /** A start signal after the match has been decided re-arms it, but the very
      next tick ends it again. */
  lemma RestartAfterWin(c: Canvas, bend: Bend, s: State)
    requires WellFormed(s) && (s.ai.score >= WinningScore || s.user.score >= WinningScore)
    ensures !Tick(c, bend, StartSignal(s).0).0.running
  {
  }
}
