# Ping-pong game simulation, modelled in Dafny

The program is a browser ping-pong game. A ball moves on a canvas between two
paddles: the user's on the left and the ai's on the right. Once a match is
started, a timer calls `game` every 20 ms, and `game` calls `update` and then
redraws. Nothing ever clears the timer: it keeps firing after a win, and a
restart after a win adds a second one. While the match is idle, `update` does
nothing. Otherwise each tick does six things in order:

1. it moves the ball by its velocity;
2. it bounces the ball off the top and bottom walls;
3. it picks the paddle on the ball's half;
4. on an overlap with that paddle it redirects the ball by where it struck and
   raises the speed by 0.2;
5. it gives a point when the ball leaves on the left or on the right, and
   serves the ball again from the centre;
6. it stops the match once a side has 20 points.

A mouse press or the space key starts an idle match.

The model has these modules:

- `Entities` (`entities.dfy`): the ball, paddle, canvas and state records, the
  constants (base speed 7, speed step 0.2, winning score 20, radius 10,
  paddles 10 x 100) and the declared initial state.
- `Collision` (`collision.dfy`): the strict box-overlap test.
- `Physics` (`physics.dfy`): one function per step of a tick, `Tick` for the
  whole of `update`, `Reset` for `resetBall` and `StartSignal` for the start
  listeners.
- `TickProperties` (`tick_properties.dfy`): the lemmas about one tick, one
  reset and one start signal.
- `Rally` (`rally.dfy`): `Run`, which is any number of ticks, and lemmas by
  induction over it.
- `Pong` (`game.dfy`): class `Game`. It holds the ball, the paddles and
  `gameStatus` as fields, and its methods change them in place as the source
  does. Each method is proved against the function in `Physics` that
  specifies it. A ghost counter `hits` counts paddle hits since the last
  serve. The object invariant ties it to the speed: `speed == 7 + 0.2 * hits`.
  The invariant also keeps both paddles taller than the ball's diameter.
  `Update` calls one method per step of `update` (`MoveBall`, `DeflectOff`,
  `AwardPoint`, `CheckWin`). They run in the source's order, on the same
  fields.

The canvas size is a constructor parameter; both sides must be positive. The
host's `Math.cos`/`Math.sin` is also a constructor parameter, `bend`. It maps
the collide point `cp` to the pair (cos(pi/4·cp), sin(pi/4·cp)). The only thing
assumed about it, and only where a lemma says so (`ForwardBend`), is that the
cosine is positive for |cp| < 2.

Behaviour of the code worth noting:

- Walls: the bounce uses strict comparisons (`y + r > height`,
  `y - r < 0`). A ball that exactly touches a wall does not bounce.
- Restart after a win: the start listeners only test `gameStatus`. So a
  start signal after a win sets the flag again, and one more tick runs: the
  ball moves and a point may be scored. Then the win check stops the match
  again. `RestartAfterWin` proves that this extra tick always ends in a halt.
  `ScoresCappedAtWin` proves that without such a restart no score goes past
  20.
- The first serve: `init` calls `resetBall` once before the match starts.
  So the ball's initial velocity of (5, 5) is negated to (-5, -5)
  (`Game.Init`).
- `collidePoint` is not clamped. On a hit it lies strictly within
  1 + 2r/h of the paddle centre (`CollidePointBound`). It can be larger than 1
  (`CornerHitExceedsUnit`).

## Model

| member | source | states |
|---|---|---|
| `Entities.InitialState` | script.js:4-30 | The declared state is idle and well formed. The ball is at the centre with speed 7 and velocity (5, 5), both scores are 0, and the paddles are taller than the ball's diameter. |
| `Collision.CollidesIffCommonInterior` | script.js:80-97 | For boxes of positive size, there is a collision exactly when some point lies strictly inside both boxes. So the boundaries are open. |
| `Collision.TouchingDoesNotCollide` | script.js:91-96 | Boxes that meet only along an edge do not collide. |
| `Collision.CollisionExamples` | script.js:80-97 | Ball (5,50) with radius 10 collides with the paddle at (0,40) of size 10x100, and not with the same paddle moved to (0,-200). |
| `TickProperties.ResetServesBack` | script.js:67-73 | After a reset the ball is at (width/2, height/2) with speed 7. Both velocity components are negated and the radius is unchanged. |
| `TickProperties.ResetTwice` | script.js:67-73 | Two resets restore the original velocity. The second reset changes nothing else. |
| `TickProperties.IdleTickChangesNothing` | script.js:99-100 | A tick while `gameStatus` is false leaves the whole state as it was and shows no message. |
| `TickProperties.WallBounce` | script.js:101-106 | After the move, `velocityY` is negated exactly when `y+r > height` or `y-r < 0`, and otherwise kept. Position, `velocityX`, speed and radius are those of the move. |
| `TickProperties.CollidePointBound` | script.js:111-112 | On a collision the collide point lies strictly between -(1+2r/h) and 1+2r/h. |
| `TickProperties.CornerHitExceedsUnit` | script.js:110-114 | A concrete corner hit whose collide point is greater than 1. |
| `TickProperties.DeflectionDirection` | script.js:108-118 | On a hit, the paddle tested is the user's when `x < width/2` and the ai's otherwise. The new velocity is (direction·speed·cos, speed·sin), where direction is +1 on the left and -1 on the right. If cos is positive for these angles and the paddles are taller than the ball, the ball moves away from the paddle it hit. |
| `TickProperties.SpeedRamp` | script.js:110-129 | A tick that hits a paddle raises the speed by exactly 0.2 from its start value. A scoring tick restores 7. Any other tick keeps the speed. |
| `TickProperties.Scoring` | script.js:123-129 | The ai scores exactly when the left edge is below 0. Otherwise the user scores exactly when the right edge is beyond the width. Each point is +1 and a scoring tick re-serves the ball. Without a point the scores are unchanged. Scores never decrease, and at most one point is added per tick. |
| `TickProperties.WinHalt` | script.js:131-137 | After a running tick the match keeps running exactly when both scores are below 20. The message is the ai's if the ai has 20, otherwise the user's if the user has 20, otherwise none. |
| `TickProperties.TickKeepsInPlay` | script.js:131-137 | After any tick, a running match has both scores below 20. |
| `TickProperties.StartLatch` | script.js:160-174 | A start signal only sets the running flag. It starts a tick schedule exactly when the match was idle. A second start right after changes nothing and schedules nothing. |
| `TickProperties.RestartAfterWin` | script.js:160-165 | A start after a side has reached 20 is followed by a tick that stops the match again. |
| `Physics.Tick` | script.js:99-139 | Any tick keeps the state well formed. It keeps the radius and the speed at 7 or above, and leaves both paddles unchanged except for their scores. |
| `Rally.Run` | script.js:141-171 | Any number of ticks, as the repeating `setInterval(game, …)` of script.js:163 and 171 runs them, keeps the state well formed, keeps the radius, and leaves the paddles unchanged except for their scores. |
| `Rally.DeflectionAwayInPlay` | script.js:108-118 | From any well-formed state whose paddles are taller than the ball, which covers a first match and one restarted after a win, a paddle hit after any number of ticks sends the ball away from the paddle it hit, given that cos is positive on the possible angles. |
| `Rally.FirstMatch` | script.js:155-165 | The state the first match starts in: the declared state served once by `init` and then started. It is running and well formed, the ball's velocity is (-5, -5), and the paddles are taller than the ball. |
| `Rally.FirstMatchDeflectsAway` | script.js:108-118 | In the first match, after any number of ticks, a paddle hit sends the ball away from the paddle it hit. |
| `Rally.SpeedOverRally` | script.js:110-121 | Over `n` ticks without a point, the speed grows by exactly 0.2 per paddle hit. |
| `Rally.ScoresNeverDecrease` | script.js:123-129 | Over `n` ticks no score decreases, and at most `n` points are added in all. |
| `Rally.IdleStaysIdle` | script.js:99-100 | Any number of ticks leaves an idle match exactly as it is. |
| `Rally.ScoresCappedAtWin` | script.js:123-137 | Ticks alone, with no restart, never take a score past 20. |
| `Pong.Game.constructor` | script.js:4-30 | The new game holds the declared ball and paddles. It is idle and satisfies the invariant. |
| `Pong.Game.ResetBall` | script.js:67-73 | The ball becomes `Reset` of the old ball and the hit counter goes back to 0. Nothing else changes. |
| `Pong.Game.Init` | script.js:155-157 | The ball is served once and the match is idle. |
| `Pong.Game.Start` | script.js:160-174 | The new state and the schedule flag are those of `StartSignal`. Afterwards the match runs, and a schedule was started exactly when it had been idle. |
| `Pong.Game.Update` | script.js:99-139 | The new state and message are those of `Tick`. An idle tick changes nothing. Scores never decrease. The match is stopped once a score is 20 or more. The invariant (`speed == 7 + 0.2 * hits`, paddles taller than the ball) is kept. |
| `Pong.Game.MoveBall` | script.js:101-106 | The ball becomes `Moved` of the old ball: integrated and bounced off the walls. |
| `Pong.Game.DeflectOff` | script.js:110-121 | The ball becomes `Deflect` of the old ball against the given paddle, and a hit adds one to the hit counter. |
| `Pong.Game.AwardPoint` | script.js:123-129 | The state becomes `Score` of the old state. |
| `Pong.Game.CheckWin` | script.js:131-137 | The state and message are those of `Judge`: the ai is tested first, then the user. |

## Left out

- Rendering (`drawNet`, `drawRect`, `drawCircle`, `drawText`, `drawScore`, `render`, colours, the start prompt): this is canvas output. The win messages are kept only as the `Announcement` that `Update` returns.
- The `net` object: it is only drawn and plays no part in the physics.
- DOM access, `addEventListener` and the key-code test: these are host input plumbing. Both listeners are modelled by one `Start`, because their guard bodies are the same.
- `setInterval` and its 20 ms cadence: this is the host timer. A started schedule appears only as the `scheduled` flag that `Start` returns. The model does not track that the source never cancels a schedule.
- `Math.PI`, `Math.cos` and `Math.sin`: these are library trigonometry, replaced by the `bend` parameter.
- TickProperties.DeflectionDirection: does not state that the new velocity has magnitude `speed`. That needs cos² + sin² = 1, which belongs to the trigonometry left out.
- Floating point: coordinates and speeds are exact reals. Rounding of `speed += 0.2` and of the division that gives `collidePoint` is not modelled.
- The `top`/`bottom`/`left`/`right` fields that `collision` writes onto the ball and the paddle: nothing reads them outside the test. The model computes the boxes as values instead.
