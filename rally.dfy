/** What a sequence of ticks promises: the timer calls `update` again and
    again, and these lemmas follow the state across any number of calls. */
module Rally {
  import opened Entities
  import opened Physics
  import opened TickProperties

  /** The state after `n` ticks from `s`. */
  function Run(c: Canvas, bend: Bend, s: State, n: nat): (r: State)
    requires WellFormed(s)
    ensures WellFormed(r)
    ensures r.ball.radius == s.ball.radius
    ensures r.user == s.user.(score := r.user.score) && r.ai == s.ai.(score := r.ai.score)
    decreases n
  {
    if n == 0 then s else Run(c, bend, Tick(c, bend, s).0, n - 1)
  }

  /** From any well-formed state whose paddles are taller than the ball (a
      first match, or one restarted after a win), every paddle hit sends the
      ball away from the paddle it hit, however many ticks have run, provided
      cos is positive on the angles a hit can produce. */
  lemma DeflectionAwayInPlay(c: Canvas, bend: Bend, s0: State, n: nat)
    requires ForwardBend(bend) && WellFormed(s0)
    requires 2.0 * s0.ball.radius < s0.user.height && 2.0 * s0.ball.radius < s0.ai.height
    ensures var s := Run(c, bend, s0, n);
      Hit(c, s) ==>
        (OnLeft(c, Moved(c, s.ball)) ==> AfterPaddle(c, bend, s).velocityX > 0.0) &&
        (!OnLeft(c, Moved(c, s.ball)) ==> AfterPaddle(c, bend, s).velocityX < 0.0)
  {
    var s := Run(c, bend, s0, n);
    if Hit(c, s) {
      DeflectionDirection(c, bend, s);
    }
  }

  /** The state in which the first match starts: the declared state after the
      serve made by `init`, then a start signal. */
  function FirstMatch(c: Canvas): (s: State)
    ensures WellFormed(s) && s.running
    ensures s.ball.velocityX == -5.0 && s.ball.velocityY == -5.0
    ensures 2.0 * s.ball.radius < s.user.height && 2.0 * s.ball.radius < s.ai.height
  {
    var s := InitialState(c);
    StartSignal(s.(ball := Reset(c, s.ball))).0
  }

  /** In the first match, after any number of ticks, a paddle hit sends the
      ball away from the paddle it hit. */
  lemma FirstMatchDeflectsAway(c: Canvas, bend: Bend, n: nat)
    requires ForwardBend(bend)
    ensures var s := Run(c, bend, FirstMatch(c), n);
      Hit(c, s) ==>
        (OnLeft(c, Moved(c, s.ball)) ==> AfterPaddle(c, bend, s).velocityX > 0.0) &&
        (!OnLeft(c, Moved(c, s.ball)) ==> AfterPaddle(c, bend, s).velocityX < 0.0)
  {
    DeflectionAwayInPlay(c, bend, FirstMatch(c), n);
  }

  /** How many of the first `n` ticks from `s` hit a paddle. */
  function HitsIn(c: Canvas, bend: Bend, s: State, n: nat): nat
    requires WellFormed(s)
    decreases n
  {
    if n == 0 then 0
    else (if Hit(c, s) then 1 else 0) + HitsIn(c, bend, Tick(c, bend, s).0, n - 1)
  }

  /** None of the first `n` ticks from `s` scores a point. */
  predicate NoPointIn(c: Canvas, bend: Bend, s: State, n: nat)
    requires WellFormed(s)
    decreases n
  {
    n == 0 || (!Scored(c, bend, s) && NoPointIn(c, bend, Tick(c, bend, s).0, n - 1))
  }

  /** Speed ramp over a rally: after `n` ticks without a point, of which `k` hit
      a paddle, the speed has grown by exactly k steps; from a fresh serve it is
      7 + 0.2 * k. */
  lemma {:induction false} SpeedOverRally(c: Canvas, bend: Bend, s: State, n: nat)
    requires WellFormed(s) && NoPointIn(c, bend, s, n)
    ensures Run(c, bend, s, n).ball.speed == s.ball.speed + SpeedStep * HitsIn(c, bend, s, n) as real
    decreases n
  {
    if n > 0 {
      var t := Tick(c, bend, s).0;
      SpeedRamp(c, bend, s);
      SpeedOverRally(c, bend, t, n - 1);
    }
  }

  /** Scores never decrease, and each tick adds at most one point in all. */
  lemma {:induction false} ScoresNeverDecrease(c: Canvas, bend: Bend, s: State, n: nat)
    requires WellFormed(s)
    ensures var r := Run(c, bend, s, n);
      s.user.score <= r.user.score && s.ai.score <= r.ai.score &&
      r.user.score + r.ai.score <= s.user.score + s.ai.score + n
    decreases n
  {
    if n > 0 {
      Scoring(c, bend, s);
      ScoresNeverDecrease(c, bend, Tick(c, bend, s).0, n - 1);
    }
  }

  /** An idle match stays exactly as it is, however many ticks run. */
  lemma {:induction false} IdleStaysIdle(c: Canvas, bend: Bend, s: State, n: nat)
    requires WellFormed(s) && !s.running
    ensures Run(c, bend, s, n) == s
    decreases n
  {
    if n > 0 {
      IdleTickChangesNothing(c, bend, s);
      IdleStaysIdle(c, bend, s, n - 1);
    }
  }

  /** Without a restart, ticks alone never carry a score past the winning
      score: a match that is in play ends at 20 points at most. */
  lemma {:induction false} ScoresCappedAtWin(c: Canvas, bend: Bend, s: State, n: nat)
    requires WellFormed(s) && InPlay(s) && s.user.score <= WinningScore && s.ai.score <= WinningScore
    ensures var r := Run(c, bend, s, n);
      InPlay(r) && r.user.score <= WinningScore && r.ai.score <= WinningScore
    decreases n
  {
    if n > 0 {
      var t := Tick(c, bend, s).0;
      TickKeepsInPlay(c, bend, s);
      Scoring(c, bend, s);
      if !s.running { IdleTickChangesNothing(c, bend, s); }
      ScoresCappedAtWin(c, bend, t, n - 1);
    }
  }
}
