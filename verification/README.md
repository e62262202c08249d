# Arcade game entities in Dafny

A model of the entity logic of a small browser arcade game in the style of
Frogger. The player walks a 5-by-6 tile grid (columns 0 to 4, rows 0 to 5)
from the bottom row towards the water on row 0 while bugs run along three
lanes. Arrow keys queue moves; each frame's update applies the queued moves,
keeps the player on the grid and turns reaching the water into a win worth two
points. Being hit by a bug, decided by an axis-aligned bounding-box (AABB)
overlap test, sends the player back to the start and costs one point. The
score never drops below zero.

The model has four modules:

- `Setup` (`setup.dfy`): the game's constants.
- `Geometry` (`geometry.dfy`): hit boxes in pixels, the overlap test and the
  lemmas about it. These are pure functions, as in the source.
- `PlayerLogic` (`player_logic.dfy`): the player's state machine as functions
  from the state before an operation to the state after it. The properties
  of the game are proved here: clamping, winning, the score floor, key
  accumulation, and validity after any history of calls.
- `Entities` (`entities.dfy`): the classes `Enemy` and `Player`. Their
  methods update the fields in place, step by step as the source does. Each
  `Player` method is proved to leave `State()` equal to the matching
  `PlayerLogic` function of the old state.

Enemy positions and speeds are `real`, standing for JavaScript numbers. They
are exact here, with no floating-point rounding. Player grid coordinates and
the score are unbounded integers; the source's deltas of ±1 and ±2 cannot
approach any overflow. The random draw in `Enemy.reset` is a parameter `r`
with `0 <= r < 1`, the range `Math.random()` returns. An input that is not an
arrow key reaches `handleInput` as `undefined`; here that is any string other
than `"up"`, `"down"`, `"left"` and `"right"`.

Three behaviours of the code that are easy to miss:

- Queued moves are not limited to -1, 0 and 1. Each key press adds one more
  step (js/app.js:234-244). `PressesAccumulate` states this, and `Update`
  keeps the player on the grid for any queued amount.
- After an update the player is on rows 1 to 5, not 0 to 5. Row 0 always
  triggers a win, which moves the player back to row 5.
- `resetScore` leaves the score at zero whatever its sign was before, since
  it adds `-score`.

## Model

| member | source | states |
|---|---|---|
| `Geometry.EnemyBounds` | js/app.js:88-95 | the enemy's hit box is non-empty, 101 by 76 pixels, and lies inside the 101-by-171 sprite image drawn at the enemy's position |
| `Geometry.PlayerBounds` | js/app.js:171-178 | the player's hit box is non-empty, 46 by 46 pixels, and lies inside the sprite image drawn at the cell's pixel position (x*101, y*83-30) |
| `Geometry.OverlapsIffCommonPoint` | js/app.js:105-108 | two non-empty boxes pass the four-comparison overlap test exactly when some point lies in both |
| `Geometry.OverlapsSymmetric` | js/app.js:105-108 | the overlap test gives the same answer with its boxes swapped |
| `Geometry.OverlapsReflexive` | js/app.js:105-108 | a non-empty box overlaps itself |
| `Geometry.SeparatedDoNotOverlap` | js/app.js:105-108 | boxes strictly apart horizontally or vertically do not overlap |
| `Geometry.CollisionOnlyInOwnLane` | js/app.js:102-109 | an enemy at y = lane*83-20 hits the player exactly when the player is in row `lane` and the enemy's x lies in [x*101-71, x*101+76] for the player's column x |
| `PlayerLogic.Clamp` | js/app.js:188-195 | the clamped coordinate lies in the range and is the value of the range nearest to the unclamped one |
| `PlayerLogic.Reset` | js/app.js:132-137 | the player is back at (2, 5) with no queued move, and the score is kept |
| `PlayerLogic.UpdateScore` | js/app.js:215-220 | the score becomes score + delta, or 0 when that sum is negative; nothing else changes |
| `PlayerLogic.ResetScore` | js/app.js:142-144 | the score becomes 0 and nothing else changes |
| `PlayerLogic.HandleCollision` | js/app.js:149-153 | the player is back at the start and the score drops by one, floored at zero |
| `PlayerLogic.Win` | js/app.js:205-209 | the player is back at the start and the score rises by two, floored at zero |
| `PlayerLogic.Update` | js/app.js:184-200 | for any queued moves and any start: afterwards 0 <= x <= 4, 1 <= y <= 5 and nothing is queued; reaching row 0 or beyond is a win; otherwise the score is unchanged and the position is the clamped sum |
| `PlayerLogic.HandleInput` | js/app.js:234-244 | the key's unit step is added to the queued move ("up" -1 and "down" +1 on y, "left" -1 and "right" +1 on x); the position and the score are untouched, and any other input changes nothing |
| `PlayerLogic.PressesAccumulate` | js/app.js:234-242 | n presses of one key queue n unit steps, with no bound |
| `PlayerLogic.OneKeyMovesAtMostOneCell` | js/app.js:184-200 | from a valid state with nothing queued, one key then one update either wins ("up" from row 1) or moves the player to an adjacent cell or keeps it in place, score unchanged |
| `PlayerLogic.StepKeepsValid` | js/app.js:132-244 | every player operation keeps the player on columns 0-4, rows 1-5, with a non-negative score |
| `PlayerLogic.RunKeepsValid` | js/app.js:132-244 | the same holds after any sequence of player operations |
| `PlayerLogic.CrossingScenario` | js/app.js:184-209 | from the start, "up" and an update reach (2, 4); five such rounds reach the water, score 2, position (2, 5) |
| `PlayerLogic.CaughtAtZeroScore` | js/app.js:149-153 | a collision at score 0 keeps the score at 0 and puts the player at (2, 5) |
| `Entities.SpeedFor` | js/app.js:69 | a draw r in [0, 1) gives a speed in [150, 450) |
| `Entities.Enemy.constructor` | js/app.js:38-44 | a new enemy is at x = -300 on y = lane*83-20, with a speed in [150, 450) |
| `Entities.Enemy.Reset` | js/app.js:67-70 | x is back at -300 and the speed is 150 + 300r; the lane's y is not touched |
| `Entities.Enemy.CollidedWith` | js/app.js:102-109 | the AABB test on the two hit boxes; for an enemy on its lane, true exactly when the player is in that row and within reach horizontally |
| `Entities.Player.constructor` | js/app.js:115-122 | a new player is at (2, 5) with nothing queued and score 0 |
| `Entities.Player.Reset` | js/app.js:132-137 | the fields become `PlayerLogic.Reset` of the old fields |
| `Entities.Player.ResetScore` | js/app.js:142-144 | the fields become `PlayerLogic.ResetScore` of the old fields; the score is 0 |
| `Entities.Player.HandleCollision` | js/app.js:149-153 | the fields become `PlayerLogic.HandleCollision` of the old fields |
| `Entities.Player.Update` | js/app.js:184-200 | the in-place clamps and the call to win leave the fields equal to `PlayerLogic.Update` of the old fields: on the grid, rows 1-5, nothing queued |
| `Entities.Player.Win` | js/app.js:205-209 | the fields become `PlayerLogic.Win` of the old fields |
| `Entities.Player.UpdateScore` | js/app.js:215-220 | the fields become `PlayerLogic.UpdateScore` of the old fields; the score is non-negative |
| `Entities.Player.HandleInput` | js/app.js:234-244 | the fields become `PlayerLogic.HandleInput` of the old fields |

## Left out

- `Enemy.update` (js/app.js:55-62): motion by `dt * speed` in floating point, compared against the width of a canvas owned by the game engine, which is not part of this model. The model has no operation that moves an enemy. So it does not show that x grows until the enemy is recycled.
- `Enemy.render` and `Player.render` (js/app.js:75-82, 158-165): canvas drawing and the sprite loader, which are browser APIs. Only the sprite rectangle they draw appears, to state where the hit boxes lie. The `sprite` fields and `DISPLAY_COLLISION_BOUNDS` go with them.
- `Player.displayScore` (js/app.js:226-228): a DOM write; the model treats it as a no-op.
- The sounds played by `handleCollision`, `win` and `handleInput` (js/app.js:150, 206, 243): a foreign library. Only the state changes around them are modelled.
- `Math.random()` in `Enemy.reset` (js/app.js:69): replaced by the parameter `r`.
- `Entities.SpeedFor`, `Geometry.EnemyBounds` and the `Enemy` fields `x`, `y` and `speed`: JavaScript numbers are IEEE doubles, but here they are exact `real` values, so floating-point rounding is not modelled.
- `MovingObject` (js/app.js:27-30): its two fields `x` and `y` are declared directly in `Enemy` and `Player`.
- The `allEnemies` and `player` globals and the `keyup` listener with its ESC screen toggle (js/app.js:249-280): wiring and instantiation. The sequences of calls in `PlayerLogic.Run` stand for whatever the game engine does with them.
