/** The game as the program keeps it: the ball, the two paddles and the
    running flag live in one object whose methods change them in place. */
module Pong {
  import opened Entities
  import opened Collision
  import opened Physics
  import TickProperties

  class Game {
    const canvas: Canvas
    /** The host's trigonometry for paddle deflections. */
    const bend: Bend

    var ball: Ball
    var user: Paddle
    var ai: Paddle
    var gameStatus: bool
    /** Paddle hits since the ball was last served. */
    ghost var hits: nat

    /** The match state the methods act on. */
    function Snapshot(): State
      reads this
    {
      State(ball, user, ai, gameStatus)
    }

    /** The object invariant: a real canvas, a well-formed state, paddles
        taller than the ball and a speed that is the base speed plus one step
        per hit since the serve. */
    ghost predicate Valid()
      reads this
    {
      canvas.Valid() && WellFormed(Snapshot()) &&
      2.0 * ball.radius < user.height && 2.0 * ball.radius < ai.height &&
      ball.speed == BaseSpeed + SpeedStep * hits as real
    }

    /** The declared ball and paddles on a canvas of the given size, idle. */
    constructor (width: real, height: real, bend: Bend)
      requires width > 0.0 && height > 0.0
      ensures Valid()
      ensures canvas == Canvas(width, height) && this.bend == bend
      ensures Snapshot() == InitialState(canvas) && hits == 0
    {
      canvas := Canvas(width, height);
      this.bend := bend;
      ball := InitialBall(Canvas(width, height));
      user := InitialUser(Canvas(width, height));
      ai := InitialAi(Canvas(width, height));
      gameStatus := false;
      hits := 0;
    }

    /** `resetBall`: serve the ball again from the centre. */
    method ResetBall()
      requires Valid()
      modifies this`ball, this`hits
      ensures Valid()
      ensures ball == Reset(canvas, old(ball)) && hits == 0
    {
      ball := ball.(x := canvas.width / 2.0);
      ball := ball.(y := canvas.height / 2.0);
      ball := ball.(speed := BaseSpeed);
      ball := ball.(velocityX := -ball.velocityX);
      ball := ball.(velocityY := -ball.velocityY);
      hits := 0;
    }

    /** The body of `init` without its drawing and listener set-up: serve the
        ball once and wait for a start signal. */
    method Init()
      requires Valid()
      modifies this`ball, this`hits, this`gameStatus
      ensures Valid()
      ensures Snapshot() == old(Snapshot()).(ball := Reset(canvas, old(ball)), running := false)
    {
      ResetBall();
      gameStatus := false;
    }

    /** Either start listener (pointer press, or the space key): an idle match
        starts running and its tick schedule is started (`scheduled`); a start
        while running does nothing. */
    method Start() returns (scheduled: bool)
      requires Valid()
      modifies this`gameStatus
      ensures Valid()
      ensures (Snapshot(), scheduled) == StartSignal(old(Snapshot()))
      ensures gameStatus && (scheduled <==> !old(gameStatus))
    {
      scheduled := false;
      if !gameStatus {
        gameStatus := true;
        scheduled := true;
      }
    }

    /** `update`: one tick of the simulation, the six steps in order.  `shown`
        is the win message the tick paints, if any. */
    method Update() returns (shown: Announcement)
      requires Valid()
      modifies this`ball, this`user, this`ai, this`gameStatus, this`hits
      ensures Valid()
      ensures (Snapshot(), shown) == Tick(canvas, bend, old(Snapshot()))
      ensures !old(gameStatus) ==> Snapshot() == old(Snapshot()) && shown == Silent
      ensures old(user.score) <= user.score && old(ai.score) <= ai.score
      ensures ai.score >= WinningScore || user.score >= WinningScore ==> !gameStatus
      ensures hits == if Scored(canvas, bend, old(Snapshot())) then 0
                      else if Hit(canvas, old(Snapshot())) then old(hits) + 1
                      else old(hits)
    {
      shown := Silent;
      TickProperties.Scoring(canvas, bend, Snapshot());
      if gameStatus {
        ghost var s := Snapshot();
        MoveBall();
        var player := if ball.x < canvas.width / 2.0 then user else ai;
        DeflectOff(player);
        assert ball == AfterPaddle(canvas, bend, s);
        AwardPoint();
        shown := CheckWin();
      }
    }

    /** Steps 1 and 2 of `update`: move the ball and bounce it off the top
        and bottom walls. */
    method MoveBall()
      requires Valid()
      modifies this`ball
      ensures Valid()
      ensures ball == Moved(canvas, old(ball))
    {
      ball := ball.(x := ball.x + ball.velocityX);
      ball := ball.(y := ball.y + ball.velocityY);

      if ball.y + ball.radius > canvas.height || ball.y - ball.radius < 0.0 {
        ball := ball.(velocityY := -ball.velocityY);
      }
    }

    /** Step 4 of `update`: on a hit of `player` redirect the ball by the
        collide point and raise its speed. */
    method DeflectOff(player: Paddle)
      requires Valid() && player.height > 0.0
      modifies this`ball, this`hits
      ensures Valid()
      ensures ball == Deflect(canvas, bend, old(ball), player)
      ensures hits == if Collides(old(ball), player) then old(hits) + 1 else old(hits)
    {
      if Collides(ball, player) {
        var collidePoint := ball.y - (player.y + player.height / 2.0);
        collidePoint := collidePoint / (player.height / 2.0);

        var d := bend(collidePoint);
        var direction := if ball.x < canvas.width / 2.0 then 1.0 else -1.0;

        ball := ball.(velocityX := direction * ball.speed * d.cos);
        ball := ball.(velocityY := ball.speed * d.sin);

        ball := ball.(speed := ball.speed + SpeedStep);
        hits := hits + 1;
      }
    }

    /** Step 5 of `update`: a point for the side the ball did not leave by,
        and a new serve. */
    method AwardPoint()
      requires Valid()
      modifies this`ball, this`user, this`ai, this`hits
      ensures Valid()
      ensures Snapshot() == Score(canvas, old(Snapshot()))
    {
      if ball.x - ball.radius < 0.0 {
        ai := ai.(score := ai.score + 1);
        ResetBall();
      } else if ball.x + ball.radius > canvas.width {
        user := user.(score := user.score + 1);
        ResetBall();
      }
    }

    /** Step 6 of `update`: stop the match once a side has won, the ai first. */
    method CheckWin() returns (shown: Announcement)
      requires Valid()
      modifies this`gameStatus
      ensures Valid()
      ensures (Snapshot(), shown) == Judge(old(Snapshot()))
    {
      shown := Silent;
      if ai.score >= WinningScore {
        shown := AiWins;
        gameStatus := false;
      } else if user.score >= WinningScore {
        shown := UserWins;
        gameStatus := false;
      }
    }
  }
}
