# Retro rugby: the frame-counted game state machine

`App.js` is a touch-controlled arcade screen. There are three circles: a player, a ball and an opponent. A virtual joystick in the lower left steers the player. A toss zone in the lower right throws the ball up or down. The opponent patrols up and down on its own. The framework calls `UpdateSystem` once per frame, and touch handlers change the state between frames. This project models that state machine in Dafny. It follows the three kinds of code in the source:

- `rules.dfy` (module `Rules`) holds the game constants and the pure expressions: the clamp, the toss zone and its up/down split, the joystick circle test, the ease-out cubic `1 - (1 - t)^3`, the normalised toss time and the toss trajectory.
- `step.dfy` (module `Step`) puts the whole state in one record. It holds the three positions, the opponent's direction, the joystick vector and knob, possession, and the toss record `{active, direction, frame, startY, targetY}`. Each handler and the per-frame update is a pure function on that record. The lemmas here relate several steps, for example the 40-tick lifetime of a toss.
- `game.dfy` (module `App`) has the class `Game`. Its fields are the component's state cells and the toss reference. Its methods mutate those fields step by step, as the source does. Each method is proved to leave the fields equal to the matching `Step` function of the old state, and to keep the invariant. The client `TossScenario` drives a fresh game through one grant and 41 frames using only those contracts.

Environment inputs are the fields of `Rules.Config`:

- the window width and height, which `Dimensions.get` supplies in the source; both must be at least twice the player's radius;
- the toss's arc term `sin(t * PI) * 40`, about which only `arc(0) = 0` is assumed;
- the joystick's speed vector and knob offset, which the source computes with `sqrt`, `atan2`, `cos` and `sin`.

Positions are Dafny `real`s. A state setter (`setEntities`, `setOpponentDir`, `setJoystick`, …) is modelled as the value that the next tick sees.

Behaviour the code does not have, and behaviour worth knowing:

- The code has no pickup logic. The possession test is commented out (App.js:150), so whenever no toss is running the ball rides 5 units below the player. No operation ever sets `playerHasBall` back to true (`Step.PossessionNeverRestored`).
- Starting a toss does not clear possession. Only the ball-control touch does that (App.js:173, App.js:177).
- A toss never uses `t = 1`. The last trajectory point is at frame 39, that is `t = 39/40`. On the next tick the ball snaps back to the player (`Step.TossLifetime`). The ball therefore does not rest at the toss's target.
- The toss zone is `x > 0.7 * width && y > 0.6 * height` (App.js:77, App.js:168).
- A ball-control touch shifts the ball at once. The next tick overwrites that shift: it either follows the toss or carries the ball (`Step.BallControlOverwritten`).

## Model

| member | source | states |
|---|---|---|
| `Rules.Clamp` | App.js:129-130 | `Math.max(lo, Math.min(hi, v))` is never below `lo`. When `lo <= hi` it lies in `[lo, hi]`, leaves a value already in range alone, and gives the nearer end for a value outside the range |
| `Rules.Ease` | App.js:135 | the ease-out cubic maps `[0, 1]` into `[0, 1]` |
| `Rules.EaseEndpoints` | App.js:135 | `ease(0) = 0` and `ease(1) = 1` |
| `Rules.EaseMonotone` | App.js:135 | the ease curve is non-decreasing on `[0, 1]` |
| `Rules.TossT` | App.js:134 | `t = frame / 40` is non-negative; it is zero exactly on frame 0, at most `39/40` before frame 40, and at most 1 up to frame 40 |
| `Rules.InTossZone` | App.js:77 | the toss zone `x > 0.7 W && y > 0.6 H`, as both the pan grant (App.js:77) and the ball-control touch (App.js:168) test it. On a screen at least 320 wide no point of it lies in the joystick circle |
| `Rules.ZoneDirection` | App.js:78-79 | a touch counts as Up exactly when its y is above `0.6 H + 40`, which is the relative test `y - 0.6 H < 40` of App.js:78-79 and App.js:169-170 |
| `Rules.TossZoneSplit` | App.js:77-79 | inside the toss zone, Up is exactly the 40-unit strip `0.6 H < y < 0.6 H + 40`, and Down is exactly the part with `y >= 0.6 H + 40` |
| `Rules.Shift` | App.js:88-90 | the toss and ball-control shift is exactly 150 units, negative (upwards) exactly for Up, as at App.js:88-90, App.js:172 and App.js:176 |
| `Rules.InJoystick` | App.js:103-107 | the joystick test is stated squared, `dx*dx + dy*dy <= 100*100`, in place of `Math.sqrt(dx*dx + dy*dy) <= 100`. A touch that passes it is within 100 of the centre on each axis |
| `Rules.JoystickReach` | App.js:105-107 | the squared test agrees with the source's square-root test: for the non-negative `dist` with `dist^2 = dx^2 + dy^2`, the touch passes exactly when `dist <= 100` |
| `Rules.Lerp` | App.js:136-138 | `startY + (targetY - startY) * e` is `startY` at `e = 0` and lies between the two ends for `e` in `[0, 1]` |
| `Rules.TossY` | App.js:134-139 | on frame 0 the ball is exactly at `startY`; on every frame up to 40, taking off the arc term leaves the ball between `startY` and `targetY` |
| `Step.Invariant` | App.js:81-92 | the reachable-state predicate over the toss record that App.js:81-92 writes and App.js:133-147 advances, and the opponent direction of App.js:53 and App.js:161. The opponent's direction is ±1. The frame counter is at most 40. A running toss is short of frame 40, so it uses `t <= 39/40`, and its target is its start ±150 in its direction. `Initial` establishes it, and `Tick`, `Ticks`, `StartToss`, `Grant` and `BallControl` preserve it, as does every `Game` method through `Valid()` |
| `Step.Initial` | App.js:47-68 | the start state keeps the invariant: no toss running, the player has the ball, and the ball is 30 units above the player |
| `Step.MovePlayer` | App.js:128-130 | after the move the player is within `[20, W-20] x [20, H-20]`. A move that stays inside is applied unchanged, and on an axis that overshoots the player stops at that edge |
| `Step.Patrol` | App.js:159-161 | the opponent's y moves by exactly `dir * 3` and its x is unchanged. The direction is negated exactly when the new y is `< 80` or `> H - 160`, with no clamp, and stays in `{1, -1}` |
| `Step.Tick` | App.js:125-165 | after each frame the player is where `MovePlayer` puts it, so it is in bounds, an in-bounds move is applied unchanged, each overshooting axis stops at its edge, and an in-bounds player with a zero joystick does not move. The ball's x is the player's. With no toss, the ball is at `player.y + 5` whatever `playerHasBall` says. With a toss, the ball follows `TossY` of the current frame, the frame goes up by 1, and the toss stops exactly when the frame reaches 40. The opponent patrols. The joystick, knob and possession are unchanged, and the invariant is kept |
| `Step.Ticks` | App.js:188 | after `n > 0` frames the player is in bounds and holds the ball's x; the invariant and possession carry through any number of frames |
| `Step.StartToss` | App.js:76-93 | a touch outside the toss zone, or any touch while a toss is running, leaves the state unchanged. Otherwise a toss starts at frame 0 from the current ball y, aiming 150 units up when `y - 0.6 H < 40` and 150 down otherwise, and nothing else changes |
| `Step.JoystickMove` | App.js:102-121 | a touch with `dx^2 + dy^2 > 100^2` from the joystick centre changes nothing. A touch inside the circle sets the vector and the knob from `(dx, dy)` and changes nothing else |
| `Step.Grant` | App.js:72-94 | the pan grant applies the joystick update to the touch, and then the toss-start rule, to the same state |
| `Step.Release` | App.js:96-99 | release sets the vector to `(0, 0)` and the knob to the joystick centre `(120, H - 120)`, and changes nothing else |
| `Step.BallControl` | App.js:167-180 | a touch outside the toss zone changes nothing. Inside it, `ball.y` moves by exactly -150 (up strip) or +150, `ball.x` is kept, `playerHasBall` becomes false, and the player, opponent and toss are untouched |
| `Step.TossRun` | App.js:133-147 | over `k` ticks of a running toss, the frame goes up by exactly `k`. The toss stays active until the frame reaches 40, it keeps its direction and ends, and after each tick the ball is at the trajectory point of the previous frame |
| `Step.TossLifetime` | App.js:133-153 | a toss started at frame 0 is still active after each of its first 39 ticks and over after the 40th. Its last point is at `t = 39/40`, and on the 41st tick the ball is back at `player.y + 5` |
| `Step.FirstTossFrame` | App.js:134-142 | the first tick of a toss puts the ball exactly at `startY`, beside the player |
| `Step.TossStaysBetweenEnds` | App.js:134-141 | on every tick of an up toss, taking off the arc term leaves the ball within `[startY - 150, startY]`. For a down toss the range is `[startY, startY + 150]` |
| `Step.GrantWhileActive` | App.js:81-92 | a grant during a toss leaves the toss record unchanged |
| `Step.StartTossIdempotent` | App.js:77-92 | from any state, repeating the same toss touch has no further effect |
| `Step.TickIgnoresPossession` | App.js:148-153 | the update step never reads `playerHasBall` |
| `Step.BallControlOverwritten` | App.js:141-152 | the next tick makes the ball the same as if the ball-control touch had not happened |
| `Step.PossessionNeverRestored` | App.js:56 | once `playerHasBall` is false, no frame and no handler sets it back to true |
| `App.Game.constructor` | App.js:47-68 | a new game holds the initial state and its invariant |
| `App.Game.Tick` | App.js:125-165 | the in-place update leaves the fields equal to `Step.Tick` of the old state, keeps the invariant, and returns the new entities |
| `App.Game.Joystick` | App.js:102-121 | the fields become `Step.JoystickMove` of the old state |
| `App.Game.Grant` | App.js:72-94 | the fields become `Step.Grant` of the old state: the joystick update, then the replacement of the toss record |
| `App.Game.Move` | App.js:95 | the pan move handler is the joystick update alone |
| `App.Game.Release` | App.js:96-99 | the fields become `Step.Release` of the old state |
| `App.Game.BallControl` | App.js:167-180 | the fields become `Step.BallControl` of the old state |
| `App.TossScenario` | App.js:72-153 | on a new game, after a grant in the toss zone and 41 frames, the toss is over at frame 40 and the ball rides at `player.y + 5` |

## Left out

- Rendering: `PlayerRenderer`, the Svg/Circle markup, the ball shadow and `styles`. The circles' radius, colour and renderer fields are left out too, because only drawing reads them. For the same reason `BALL_RADIUS` and `OPPONENT_RADIUS` are left out. The ball-up and ball-down circle constants are only drawn, so they are left out too.
- The framework's scheduling: `useState`'s asynchronous updates, the game engine's frame timing, and stale closures. The ball y read when a toss starts is taken to be the current one.
- Which grant handler fires when the pan handlers and `onResponderGrant` are both set on the view. `Grant` and `BallControl` are independent operations, and the model does not decide between them.
- The joystick's float-only math: the `sqrt` normalisation, the speed scaling by `PLAYER_MAX_SPEED`, the `atan2`/`cos`/`sin` knob angle, and the knob's reach limit `JOYSTICK_RADIUS - JOYSTICK_KNOB_RADIUS`. These are the uninterpreted `Config.steer` and `Config.knobOffset`, so `PLAYER_MAX_SPEED` and `JOYSTICK_KNOB_RADIUS` are not declared.
- A touch exactly at the joystick centre: the source divides `0 / 0` (App.js:109-110) and stores a NaN speed. On the next frame `Math.min`/`Math.max` (App.js:129-130) propagate it into the player's position, and it stays there for good. The model's `Config.steer` always returns a real vector, and `Step.Tick`'s in-bounds guarantee relies on that; it does not hold for this touch in the source.
- Step.JoystickMove: makes no claim about the vector's magnitude or direction, because the float computation is not modelled.
- The arc term `Math.sin(t * Math.PI) * 40`: this is the uninterpreted `Config.arc`, and only `arc(0) = 0` is assumed. No claim is made about `sin(PI)` in floating point.
- Floating-point rounding in general: positions and the ease polynomial are exact reals.
- Unused or dead state: `trail`, `ballTrail`, `move`, `TRAIL_LENGTH`, `PLAYER_SPEED`, and the commented-out trail and possession code.
- `onStartShouldSetPanResponder`, which always answers true.
