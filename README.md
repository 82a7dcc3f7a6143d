# Endless runner simulation in Dafny

This project models the game simulation of an arcade endless runner
(`renderer.js`). The player runs along a scrolling ground line. Held arrow
keys move the player left and right inside a lane, and a jump key gives a
one-shot upward impulse. Enemies (squares) and coins (circles) are spawned
off the right edge on fixed tick intervals and scroll left. Touching an
enemy ends the run and updates the best score. Touching a coin collects it
and scores one point.

The model has three modules:

- `Geometry` (`geometry.dfy`) holds the two pure overlap tests, `isColliding`
  (box against circle) and `hitEnemy` (box against box). Lemmas give each one
  an independent geometric meaning.
- `Simulation` (`simulation.dfy`) holds the whole game state as a value
  (`World`). It defines `resetGame` (`Reset`), one call of `update` (`Step`)
  and the keydown/keyup handler bodies (`AfterKeyDown`, `AfterKeyUp`) as
  functions. `Step` is composed of the stages the source runs in order:
  `Moved`, `Fallen`, `Progressed`, `Spawned`, `Scrolled`, then either
  `Collided` or `Cleaned(Collected(...))`. The lemmas here state the game's
  properties, and `Inv` is the invariant every reachable state keeps.
- `Engine` (`engine.dfy`) holds the source's module-level state as objects
  updated in place. `Player` is the `player` record. `Game` holds `state`,
  the `keys` set and the `enemies`/`coins` arrays, with `seq` fields that the
  methods reassign. Each method follows the source statement by statement,
  including its loops: the `forEach` scrolls, the early-exit collision loop,
  the pickup loop and the tail-to-head `splice` loops. Each one is proved to
  leave exactly the state the matching `Simulation` function describes.
  `ResetGame`, `Update`, `KeyDown` and `KeyUp` (and the constructor) also
  keep the class invariant `Valid()`. The stage methods that `Update` calls
  (`Advance`, `MovePlayer`, `ApplyGravity`, `Accelerate`, `TickSpawners`, the
  scrolls, `HitsAnyEnemy`, `CollectCoins` and the two removal loops) are
  proved only against their stage function. `Update` then gets `Valid()`
  from `StepPreservesInv`.

Inputs the simulation cannot see are parameters:

- `Math.random()` is a `Roll` holding one value in [0, 1) for each spawn
  draw. So an enemy's size is `40 + roll * 20` and a coin's height offset
  is `roll * 120`.
- The canvas size is a `Canvas` value fixed when the `Game` is built. The
  ground line is `height - 80`. The canvas must be at least 200 wide, so that
  the start position x = 120 lies in the lane [60, width - 80].

Positions and speeds are exact reals.

Points where the code behaves in a way its drawing does not suggest:

- The hit test and the pickup test use `player.y` as the TOP of the
  player's 40 × 50 box, while the sprite is drawn from `y - 50` to `y`.
  Lemma `SpriteClearOfEnemyStillHits` shows the consequence.
- An enemy is removed when its left edge passes x = -80, not when its right
  edge leaves the field. A coin is removed when its centre passes x = -50.
- The enemy collision check runs after both scrolls. On the tick that ends
  the run, the pickup pass and the removal pass do not run.
- A jump key can be pressed while stopped. Space then restarts the game
  without jumping, because the jump is only checked while running and that
  check comes before the restart.

## Model

| member | source | states |
|---|---|---|
| `Geometry.IsColliding` | renderer.js:71-77 | clamps the circle's centre into the box and tests that point strictly inside the circle; a circle of radius 0 never collides |
| `Geometry.HitEnemy` | renderer.js:79-86 | strict overlap of the two boxes on both axes; two boxes whose widths (or heights) add up to 0 or less never hit |
| `Geometry.HitEnemySymmetric` | renderer.js:79-86 | the box/box hit test gives the same answer with its two boxes swapped |
| `Geometry.HitEnemyIffCommonPoint` | renderer.js:79-86 | for boxes of positive size, a hit holds exactly when the two open boxes share a point (strict overlap on both axes) |
| `Geometry.ClampIsNearest` | renderer.js:72-73 | the clamped coordinate `max(lo, min(v, hi))` is at least as close to v as any point of [lo, hi] |
| `Geometry.IsCollidingIffNearPoint` | renderer.js:71-77 | for a box of non-negative size, the box/circle test holds exactly when some point of the closed box lies strictly inside the circle |
| `Geometry.CentreInsideCollides` | renderer.js:71-77 | a circle of positive radius whose centre lies in the box always collides with it |
| `Simulation.PlayerHitsEnemyIffOverlap` | renderer.js:132-139 | a spawned enemy hits the player exactly when the player's box and the enemy's box share an interior point |
| `Simulation.SpriteClearOfEnemyStillHits` | renderer.js:132-139 | a player 10 units above an enemy in drawing terms still hits it, because the hit test takes `player.y` as the top of the box |
| `Simulation.CoinAtCentreIsPicked` | renderer.js:142-147 | an uncollected coin (radius 12) whose centre lies in the player box is always picked up |
| `Simulation.Initial` | renderer.js:10-33 | the start-up state: stopped, score and best 0, no keys, enemies or coins, the player landed at x = 120 |
| `Simulation.Reset` | renderer.js:35-48 | `resetGame`: running, score 0, no enemies or coins, the player landed at x = 120; best and the held keys carry over |
| `Simulation.NewEnemy` | renderer.js:50-59 | `spawnEnemy`'s enemy appears at x = width + 40 and, for a draw in [0, 1), is a square of size in [40, 60) sunk 10 below the ground line |
| `Simulation.NewCoin` | renderer.js:61-69 | `spawnCoin`'s coin appears uncollected at x = width + 40 and, for a draw in [0, 1), has radius 12 and its centre at least 60 and less than 180 above the ground line |
| `Simulation.Moved` | renderer.js:93-98 | the arrow keys change only the player's x, and a player in the lane [60, width - 80] stays in it |
| `Simulation.Fallen` | renderer.js:100-107 | gravity changes only the player's y, vy and jumping; the player ends at or above the ground line, landed when on it, and never starts a jump |
| `Simulation.Progressed` | renderer.js:109-110 | only distance and speed change; from non-negative values the distance does not decrease and the speed lies in [4, 8] |
| `Simulation.Spawned` | renderer.js:112-122 | both timers end at most 80 and 50; each list keeps its old entities as a prefix and gains at most one |
| `Simulation.Scrolled` | renderer.js:124-130 | only enemies and coins change, and their numbers stay the same |
| `Simulation.Collided` | renderer.js:132-139 | a hit stops the run and changes nothing else but best, which becomes the larger of best and score |
| `Simulation.Collected` | renderer.js:142-147 | only score and coins change; the score does not decrease, the number of coins stays the same and no coin is left to pick |
| `Simulation.Cleaned` | renderer.js:149-159 | only coins and enemies change; every coin left was there before and is uncollected at x ≥ -50, every enemy left was there before and is at x ≥ -80 |
| `Simulation.Step` | renderer.js:88-163 | one `update`: the held keys are unchanged and a stopped game never starts running |
| `Simulation.AfterKeyDown` | renderer.js:228-241 | keydown adds the key, leaves best unchanged, and the game is running afterwards exactly when it was running or the key is Enter or Space |
| `Simulation.AfterKeyUp` | renderer.js:243-245 | keyup removes the key and changes nothing else |
| `Simulation.FilterMembers` | renderer.js:149-159 | the removal passes keep exactly the elements that satisfy their keep-condition |
| `Simulation.FilterAppend` | renderer.js:149-159 | removal commutes with concatenation, so survivors keep their relative order |
| `Simulation.PickCountIsCardinality` | renderer.js:142-147 | the score a pickup pass adds equals the number of coins that are uncollected and touch the player |
| `Simulation.PickupOnce` | renderer.js:142-147 | after a pickup pass no coin is left to collect, so no coin scores twice |
| `Simulation.InitialIsStopped` | renderer.js:10-33 | the start-up state is stopped and satisfies the invariant |
| `Simulation.ResetStartsRun` | renderer.js:35-48 | reset sets running, score 0, distance 0, speed 4, both timers 0, no coins and no enemies, and the player at x=120 on the ground with vy=0, not jumping; best and the held keys are unchanged; the invariant holds |
| `Simulation.StoppedStepIsNoOp` | renderer.js:89-91 | an update on a stopped game changes nothing |
| `Simulation.StepLands` | renderer.js:100-107 | after any update (of a running game, or of a stopped one in a reachable state) the player is at or above the ground line, and on it only with vy = 0 and not jumping |
| `Simulation.StepAdvances` | renderer.js:109-110 | a running tick adds at least 0.4 to the distance; the speed stays in [4, 8] and never decreases |
| `Simulation.StepKeepsPlayerInLane` | renderer.js:93-98 | a player in [60, width-80] stays there, moves at most one step of 5, does not move when neither arrow is held, and moves only rightward (resp. leftward) with only ArrowRight (resp. ArrowLeft) held |
| `Simulation.SpawnedSpec` | renderer.js:112-122 | both timers end in [0, 80] and [0, 50]; exactly one enemy (resp. coin) is appended exactly when the incremented timer passes 80 (resp. 50), and the timer then restarts at 0; the new enemy is a square of size in [40, 60) at x = width+40, y = groundY-size+10; the new coin has radius 12, is uncollected and sits at x = width+40 |
| `Simulation.StepHitEndsRun` | renderer.js:132-139 | on a hit the run stops with best = max(best, score); score, coins and enemies are left as scrolled (no pickup and no removal) |
| `Simulation.StepScore` | renderer.js:142-147 | without a hit the run goes on, best is unchanged and the score grows by exactly the number of uncollected coins touching the player |
| `Simulation.StepCleanup` | renderer.js:149-159 | without a hit the coins left are exactly the picked-over coins that are uncollected and at x ≥ -50, and the enemies left are exactly those at x ≥ -80, each in its original order |
| `Simulation.StepMonotone` | renderer.js:132-147 | no tick decreases best or score |
| `Simulation.PreparedInv` | renderer.js:93-130 | before the collision checks the moved, fallen, advanced, spawned and scrolled state keeps the invariant, with the player landed whenever it is on the ground |
| `Simulation.ResolvedInv` | renderer.js:132-159 | both outcomes of the collision checks (game over, or pickup and removal) keep the invariant |
| `Simulation.StepPreservesInv` | renderer.js:88-163 | every update keeps the invariant: speed follows distance in [4, 8], timers in range, player in the lane and above the ground, well-formed enemies, coins uncollected and well-formed |
| `Simulation.KeysAreASet` | renderer.js:228-245 | keydown adds the key, idempotently; keyup removes it |
| `Simulation.KeyDownJump` | renderer.js:233-236 | ArrowUp or Space gives vy = -12 and jumping exactly when running and not already jumping; any other key on a running game only records the key |
| `Simulation.LandedPlayerCanJump` | renderer.js:233-236 | under the invariant, a running player at rest on the ground (y = groundY, vy = 0) always gets vy = -12 and jumping from ArrowUp or Space |
| `Simulation.KeyDownRestart` | renderer.js:237-240 | Enter or Space on a stopped game performs the reset, and a restarting Space leaves the player with vy = 0 and not jumping |
| `Simulation.KeyHandlersPreserveInv` | renderer.js:228-245 | both handlers keep the invariant, and keydown never changes best |
| `Simulation.RunPreservesInv` | renderer.js:88-163 | any number of updates keeps the invariant and never decreases best, score or distance |
| `Simulation.QuietStart` | renderer.js:112-116 | for the first 80 updates after a reset there is no enemy, the run goes on and the spawn timer counts the ticks |
| `Simulation.FirstEnemyOnTick81` | renderer.js:112-116 | the 81st update after a reset spawns exactly one enemy, restarts the spawn timer at 0 and the run goes on |
| `Simulation.FirstSpawnMisses` | renderer.js:112-139 | the tick on which the spawn timer passes 80 with no enemy on the field adds exactly one enemy, which does not hit the player, so the run goes on |
| `Engine.Player.constructor` | renderer.js:21-29 | the player record starts at x=120 on the ground, 40 × 50, step speed 5, vy=0 and not jumping |
| `Engine.Game.constructor` | renderer.js:10-33 | the game starts in the initial stopped state on the given canvas, with groundY = height - 80 |
| `Engine.Game.ResetGame` | renderer.js:35-48 | leaves exactly the state `Reset` describes and keeps the invariant |
| `Engine.Game.SpawnEnemy` | renderer.js:50-59 | appends exactly the enemy `NewEnemy` describes for the given random draw |
| `Engine.Game.SpawnCoin` | renderer.js:61-69 | appends exactly the coin `NewCoin` describes for the given random draw |
| `Engine.Game.MovePlayer` | renderer.js:93-98 | leaves exactly the state of stage `Moved` |
| `Engine.Game.ApplyGravity` | renderer.js:100-107 | leaves exactly the state of stage `Fallen` |
| `Engine.Game.Accelerate` | renderer.js:109-110 | leaves exactly the state of stage `Progressed` |
| `Engine.Game.TickSpawners` | renderer.js:112-122 | leaves exactly the state of stage `Spawned` |
| `Engine.Game.ScrollEnemies` | renderer.js:124-126 | every enemy, in place, moves left by speed + 1 |
| `Engine.Game.ScrollCoins` | renderer.js:128-130 | every coin, in place, moves left by speed |
| `Engine.Game.HitsAnyEnemy` | renderer.js:132-140 | the early-exit loop answers true exactly when some enemy hits the player |
| `Engine.Game.CollectCoins` | renderer.js:142-147 | marks exactly the uncollected coins touching the player and adds their number to the score |
| `Engine.Game.RemoveSpentCoins` | renderer.js:149-153 | the tail-to-head splice loop leaves exactly the coins that are uncollected and at x ≥ -50, in order |
| `Engine.Game.RemovePassedEnemies` | renderer.js:155-159 | the tail-to-head splice loop leaves exactly the enemies at x ≥ -80, in order |
| `Engine.Game.Advance` | renderer.js:93-130 | the first five steps of an update leave exactly the state `Prepared` describes |
| `Engine.Game.Update` | renderer.js:88-163 | one update leaves exactly the state `Step` describes and keeps the invariant |
| `Engine.Game.KeyDown` | renderer.js:228-241 | leaves exactly the state `AfterKeyDown` describes and keeps the invariant |
| `Engine.Game.KeyUp` | renderer.js:243-245 | leaves exactly the state `AfterKeyUp` describes and keeps the invariant |

## Left out

- main.js (Electron window creation and app lifecycle): host bootstrap with no game logic.
- Canvas drawing (`drawBackground`, `drawPlayer`, `drawEnemies`, `drawCoins`): foreign canvas calls. The enemy `color` field is only read by drawing, so `Enemy` omits it.
- DOM side effects: element lookups, the `textContent` writes of score, distance and best, and the overlay's `show` class. The start button's click handler hides the overlay and calls `resetGame`, which is `Engine.Game.ResetGame`.
- `requestAnimationFrame` and the `loop` driver: frame scheduling. Callers invoke `Update` directly, and `Simulation.Run` iterates `Step`.
- `Math.random`: replaced by the `Roll` parameter with values in [0, 1).
- IEEE-754 double rounding: all arithmetic is exact real arithmetic. For example, the model's distance grows by exactly `speed * 0.1`.
- `event.preventDefault` and listener registration: only the handler bodies are modelled.
- Aliasing of enemy and coin objects: the source's arrays hold objects that are changed in place. The model holds them as values in sequences. Nothing else in the source refers to those objects, so no behaviour is lost.
- Early `return` statements: `update` leaves early on a stopped game and on the first enemy hit. The model uses the equivalent nested `if`, which runs the same statements and reaches the same state.
