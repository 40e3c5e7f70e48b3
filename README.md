# Pixel Jumper in Dafny

This project models the core of Pixel Jumper, a browser platformer, and proves properties of that model. The core has four parts:

- **The simulation** in `client/src/lib/game`. It covers:
  - axis-aligned collision tests and platform push-back;
  - gravity and friction;
  - the player's movement, timers and power-ups;
  - patrolling enemies;
  - the level table;
  - frame-based sprite animation;
  - the saved game record;
  - the keyboard state;
  - the engine's frame update, which moves the player, collects coins, meets enemies, prunes defeated ones, applies power-ups, detects the goal and eases the camera.
- **The server's in-memory store** (`server/storage.ts`). It holds users, high scores and player profiles under auto-incremented ids.
- **The game page's host logic** (`client/src/pages/Game.tsx`): the HUD clock text, the counters the engine's callbacks update, and the game-over check.
- **The level editor's data logic** (`client/src/pages/LevelEditor.tsx`): grid snapping, object construction and the export split.

## How the model is organised

Each source class whose methods update fields in place becomes a Dafny `class` with the same fields. Those classes are `Player`, `Enemy`, `Sprite`, `GameState`, `Input`, `GameEngine` and `MemStorage`.

- Every method is tied to a pure step function on a snapshot datatype. For example, `Player.Update` ensures `Data() == Advanced(old(Data()), deltaTime)`.
- The properties the source promises are proved about those step functions, as their `ensures` and as lemmas.

The engine frame is written as a chain of stage functions in the same order as `update`:

`PlayerStage`, `CoinStage`, `EnemyStage`, `PruneStage`, `PowerUpStage`, `GoalStage`, `CameraStage`

Each stage threads the list of callback events raised so far. `Tick(w, dt)` is one whole frame starting from no events. `GameEngine.Update` is proved equal to `Frame` on the engine's state, and its loops are proved against the sweep functions.

The stateless collision and physics classes become module-level functions, plus methods that act on a `Player` object.

Positions, velocities, timers and the score are `real`. The code only compares, adds and multiplies by constants, so IEEE rounding is not modelled. The counters of the saved game and the HUD (lives, coins, level, seconds) and the server's columns are `int`. Three JavaScript behaviours are written out where they matter:

- `Math.round` rounds halves up;
- `Math.floor` floors;
- `%` truncates toward zero.

| file | module | models |
|---|---|---|
| geometry.dfy | Geometry | `Rect` (Platform.ts folded in), `Math.abs/min/max` |
| collision.dfy | CollisionDetection | CollisionDetection.ts |
| physics.dfy | Physics | Physics.ts |
| player.dfy | PlayerModel | Player.ts |
| enemy.dfy | EnemyModel | Enemy.ts |
| level.dfy | LevelModel | Level.ts |
| sprite.dfy | SpriteModel | Sprite.ts |
| game_state.dfy | GameStateModel | GameState.ts (the browser store as a map) |
| input.dfy | InputModel | Input.ts |
| engine_model.dfy | EngineModel | Engine.ts as pure stage functions and lemmas |
| engine.dfy | Engine | Engine.ts as a class whose methods are proved against `EngineModel` |
| storage.dfy | Storage | server/storage.ts, with records shaped by shared/schema.ts |
| game_page.dfy | GamePage | `formatTime`, event callbacks and the game-over check of Game.tsx |
| level_editor.dfy | LevelEditor | `addObject` and `exportLevel` of LevelEditor.tsx |
| seqs.dfy, wrappers.dfy | Seqs, Wrappers | `Array.prototype.filter` on sequences; `Option` |

## Model

| member | source | states |
|---|---|---|
| CollisionDetection.CheckCollision | client/src/lib/game/CollisionDetection.ts:2-10 | Boxes that only touch along an edge (`a.x + a.width == b.x`, and the same on every side) never collide, because all four comparisons are strict. |
| CollisionDetection.CollisionSymmetric | client/src/lib/game/CollisionDetection.ts:2-10 | `checkCollision(a, b) == checkCollision(b, a)` for all boxes. |
| CollisionDetection.CollisionIsSharedInterior | client/src/lib/game/CollisionDetection.ts:4-9 | For boxes of positive size, the test holds exactly when some point lies strictly inside both. |
| CollisionDetection.CheckGrounded | client/src/lib/game/CollisionDetection.ts:13-31 | Grounded exactly when some platform overlaps the 2-pixel foot sensor `{x+2, y+height, width-4, 2}`. |
| CollisionDetection.GroundedIgnoresFlag | client/src/lib/game/CollisionDetection.ts:26-30 | The result does not depend on the incoming `player.grounded`; the flag only drives a log line. |
| CollisionDetection.StandingIsGrounded | client/src/lib/game/CollisionDetection.ts:15-23 | A player whose feet rest exactly on a platform's top, overlapping it by more than the sensor inset, is grounded. |
| CollisionDetection.Resolved | client/src/lib/game/CollisionDetection.ts:33-85 | Falling onto a platform from above, judged by the undamped `y - vy`, lands the player: `y := top - height`, `vy := 0`, grounded. Otherwise the smaller overlap decides. A horizontal push changes only `x` and `vx := 0`. A vertical push lands on top or drops below with `vy := 0`. Only `x`, `y`, `vx`, `vy` and `grounded` change, and after a push the boxes no longer overlap. |
| CollisionDetection.ResolveCollision | client/src/lib/game/CollisionDetection.ts:33-85 | Updates the player object in place to exactly `Resolved` of its old state. |
| CollisionDetection.GroundSnapIdempotent | client/src/lib/game/CollisionDetection.ts:56-61 | A player already standing on a platform (touching, at rest) stays where it is and is grounded. |
| CollisionDetection.FastFallLands | client/src/lib/game/CollisionDetection.ts:35-61 | A fall of 500 px/s that ends 8 px inside a platform is resolved as a landing on top. |
| Physics.FrictionStep | client/src/lib/game/Physics.ts:18-28 | Friction never increases `|vx|`. The result is 0 exactly when `|0.8 vx| < 5`; otherwise it is `0.8 vx`, with magnitude at least 5. |
| Physics.Fallen | client/src/lib/game/Physics.ts:10-15 | After gravity, `vy` is never above the terminal velocity of 600. |
| Physics.Applied | client/src/lib/game/Physics.ts:8-32 | `grounded` always ends false. On the ground, `vy` is 0 and `vx` takes one friction step. In the air, `vx` is kept and `vy` is `min(vy + 1000 dt, 600)`. Nothing else changes, and the player invariant is kept. |
| Physics.ApplyPhysics | client/src/lib/game/Physics.ts:8-32 | Updates the player object in place to exactly `Applied` of its old state. |
| Physics.StoppedStaysStopped | client/src/lib/game/Physics.ts:25-27 | A stopped player stays stopped under any number of grounded friction steps. |
| Physics.FrictionIterShift | client/src/lib/game/Physics.ts:18-28 | `n + 1` friction steps are one step followed by `n` steps. |
| Physics.FrictionStops | client/src/lib/game/Physics.ts:18-28 | A speed below `5 * 1.25^(n+1)` is brought to 0 by `n + 1` grounded calls. |
| Physics.FrictionFrom200 | client/src/lib/game/Physics.ts:18-28 | Running at 200 px/s, the player is still moving after 16 grounded calls and stopped after 17. |
| PlayerModel.Spawned | client/src/lib/game/Player.ts:29-60 | A new player has the given box, is at rest, not grounded, idle, facing right, at base speed 200 and jump 400, with no boost or invulnerability. It satisfies the player invariant when its size is positive. |
| PlayerModel.DerivedState | client/src/lib/game/Player.ts:96-104 | Jumping iff `vy < 0`, falling iff `vy > 0`, running iff `vy == 0` and `vx != 0`, idle iff both are 0. Never damaged. |
| PlayerModel.Moved | client/src/lib/game/Player.ts:64-65 | The position advances by velocity times `deltaTime`; nothing else changes. |
| PlayerModel.GuardTicked | client/src/lib/game/Player.ts:75-81 | The invulnerability timer runs only while invulnerable, and at one second both the flag and the timer clear. The timer stays within `[0, 1)`. |
| PlayerModel.BoostTicked | client/src/lib/game/Player.ts:84-93 | While a boost is active the timer runs. At 5 seconds both boosts clear, the timer resets, and speed and jump return to 200 and 400. The invariant is kept. |
| PlayerModel.Oriented | client/src/lib/game/Player.ts:96-111 | The state is derived from the velocity. The facing follows the sign of `vx` and is kept when `vx == 0`. |
| PlayerModel.Advanced | client/src/lib/game/Player.ts:62-112 | `update` keeps velocity, grounded flag and size, sets the state from the velocity, and keeps the player invariant for `dt >= 0`. |
| PlayerModel.CurrentSpeed | client/src/lib/game/Player.ts:172 | Without the speed boost the run speed is `speed`. With it the speed is already 300 and is multiplied by 1.5, giving 450. |
| PlayerModel.WithInput | client/src/lib/game/Player.ts:167-187 | `vx` is 0, `-speed` or `+speed`; right wins when both are held. A jump applies only when grounded: `vy := -jumpForce` and not grounded. Nothing else changes. |
| PlayerModel.Hurt | client/src/lib/game/Player.ts:189-199 | An invulnerable player is unchanged. Otherwise the player becomes invulnerable and damaged and is knocked up and backwards against its facing. |
| PlayerModel.Bounced | client/src/lib/game/Player.ts:201-204 | Only `vy` changes, to `-0.7 * jumpForce`, which is upward. |
| PlayerModel.PoweredUp | client/src/lib/game/Player.ts:206-219 | "speed" sets the speed boost and speed 300. "jump" sets the jump boost and jump force 550. Any other type only restarts the shared timer, and the other boost is untouched. |
| PlayerModel.ResetTo | client/src/lib/game/Player.ts:221-230 | Moves the player to `(x, y)` at rest, idle and not invulnerable, and clears both boost flags. Speed, jump force, both timers, `grounded` and `direction` are kept, so a boosted player keeps speed 300 or jump 550. The player invariant is kept. |
| PlayerModel.SpeedBoostRunsAt450 | client/src/lib/game/Player.ts:172 | After a speed power-up, holding right gives `vx == 450` and holding left gives `vx == -450`. |
| PlayerModel.BoostExpiresToBaseline | client/src/lib/game/Player.ts:84-93 | An update of at least 5 seconds after a power-up restores speed 200 and jump 400 and clears both boosts. |
| PlayerModel.ResetKeepsBoostedSpeed | client/src/lib/game/Player.ts:221-230 | Resetting a boosted player leaves speed 300 with the boost flag off, so the player then runs at 300 instead of 200. |
| PlayerModel.UpdateOverwritesDamaged | client/src/lib/game/Player.ts:96-104 | `takeDamage` sets the damaged state, and the next `update` always replaces it. |
| PlayerModel.Player.constructor | client/src/lib/game/Player.ts:54-60 | The new object's state is `Spawned`. |
| PlayerModel.Player.Update | client/src/lib/game/Player.ts:62-112 | The object's new state is `Advanced` of its old state. |
| PlayerModel.Player.Move | client/src/lib/game/Player.ts:64-65 | The object's new state is `Moved` of its old state. |
| PlayerModel.Player.TickInvulnerability | client/src/lib/game/Player.ts:75-81 | The object's new state is `GuardTicked` of its old state. |
| PlayerModel.Player.TickPowerUp | client/src/lib/game/Player.ts:84-93 | The object's new state is `BoostTicked` of its old state. |
| PlayerModel.Player.Orient | client/src/lib/game/Player.ts:96-111 | The object's new state is `Oriented` of its old state. |
| PlayerModel.Player.HandleInput | client/src/lib/game/Player.ts:167-187 | The object's new state is `WithInput` of its old state. |
| PlayerModel.Player.TakeDamage | client/src/lib/game/Player.ts:189-199 | The object's new state is `Hurt` of its old state. |
| PlayerModel.Player.Bounce | client/src/lib/game/Player.ts:201-204 | The object's new state is `Bounced` of its old state. |
| PlayerModel.Player.ApplyPowerUp | client/src/lib/game/Player.ts:206-219 | The object's new state is `PoweredUp` of its old state. |
| PlayerModel.Player.Reset | client/src/lib/game/Player.ts:221-230 | The object's new state is `ResetTo` of its old state. |
| EnemyModel.Spawned | client/src/lib/game/Enemy.ts:26-34 | A new enemy has the given box, speed and range, patrols from its spawn `x`, faces right and is not defeated. |
| EnemyModel.EdgeChecked | client/src/lib/game/Enemy.ts:60-83 | The enemy turns around exactly when no platform lies under the point half its width plus 5 px ahead, within 10 px below its feet. Only the direction changes. |
| EnemyModel.Walked | client/src/lib/game/Enemy.ts:47-54 | The enemy moves by `direction * speed * dt`. Past the right end of its range it turns left; before its start it turns right. |
| EnemyModel.Patrolled | client/src/lib/game/Enemy.ts:36-58 | A defeated enemy is frozen. Otherwise it walks, then checks edges. `y`, speed, range and size never change, and the invariant is kept. |
| EnemyModel.Defeated | client/src/lib/game/Enemy.ts:196-198 | Only the defeated flag changes, to true. |
| EnemyModel.DefeatIsFinal | client/src/lib/game/Enemy.ts:37 | Defeat is idempotent, and a defeated enemy's update changes nothing. |
| EnemyModel.LedgeCanUndoRangeTurn | client/src/lib/game/Enemy.ts:50-82 | With no platforms, an enemy that walks past its range turns left and is then turned right again by the edge check. |
| EnemyModel.Enemy.constructor | client/src/lib/game/Enemy.ts:26-34 | The new object's state is `Spawned`. |
| EnemyModel.Enemy.Update | client/src/lib/game/Enemy.ts:36-58 | The object's new state is `Patrolled` of its old state. |
| EnemyModel.Enemy.CheckPlatformEdges | client/src/lib/game/Enemy.ts:60-83 | The loop with `break` computes `EdgeChecked`. |
| EnemyModel.Enemy.Defeat | client/src/lib/game/Enemy.ts:196-198 | The object's new state is `Defeated` of its old state. |
| EnemyModel.Enemy.IsDefeated | client/src/lib/game/Enemy.ts:200-202 | Reports the defeated flag. |
| LevelModel.GetLevel | client/src/lib/game/Level.ts:86-89 | A level in the table is returned as is; any other number falls back to level 1. |
| LevelModel.GetLevelCount | client/src/lib/game/Level.ts:91-93 | The table holds one level. |
| LevelModel.EveryNumberGivesLevel1 | client/src/lib/game/Level.ts:46-89 | Every level number yields level 1. |
| LevelModel.Level1Shape | client/src/lib/game/Level.ts:47-82 | Level 1 has 7 platforms, 10 coins, 3 enemies and 2 power-ups ("speed" and "jump"), of kinds "speed" then "jump". The start is (50, 400) and the goal is the 40×150 box at (1900, 510). Every platform has positive size and lies within the level's width. |
| SpriteModel.Created | client/src/lib/game/Sprite.ts:14-25 | A new sprite is stopped on frame 0, with its timer at 0, not complete. |
| SpriteModel.Played | client/src/lib/game/Sprite.ts:27-32 | `play` restarts at frame 0 with the timer at 0, playing and not complete. |
| SpriteModel.Stopped | client/src/lib/game/Sprite.ts:34-36 | `stop` changes only the playing flag. |
| SpriteModel.Rewound | client/src/lib/game/Sprite.ts:38-42 | `reset` returns to frame 0, timer 0, not complete, and leaves the playing flag as it was. |
| SpriteModel.Advanced | client/src/lib/game/Sprite.ts:44-63 | Stopped or frameless sprites are unchanged. Before a frame's duration only the timer grows. At the duration the timer restarts and the next frame shows. The frame index always stays in range. |
| SpriteModel.CurrentFrame | client/src/lib/game/Sprite.ts:65-67 | Some frame of the list exactly when the list is non-empty; JavaScript gives `undefined` otherwise. |
| SpriteModel.LoopWraps | client/src/lib/game/Sprite.ts:53-55 | A looping sprite goes from the last frame back to frame 0 and keeps playing. |
| SpriteModel.OneShotHoldsLastFrame | client/src/lib/game/Sprite.ts:56-60 | A one-shot sprite stops on its last frame and completes, and later updates change nothing. |
| SpriteModel.StopFreezes | client/src/lib/game/Sprite.ts:34-45 | Updates leave a stopped sprite unchanged. |
| SpriteModel.RestartShowsFirstFrame | client/src/lib/game/Sprite.ts:27-42 | After `play` or `reset`, the current frame is the first. |
| SpriteModel.StepsThrough | client/src/lib/game/Sprite.ts:44-63 | When every frame lasts at most one update, the `n`-th update after `play` shows frame `n`, for every frame but the last. |
| SpriteModel.OneShotFinishes | client/src/lib/game/Sprite.ts:44-63 | Such a one-shot sprite completes on its last frame after one update per frame. |
| SpriteModel.LoopReturns | client/src/lib/game/Sprite.ts:44-63 | Such a looping sprite is back exactly where `play` left it after one update per frame. |
| SpriteModel.Sprite.constructor | client/src/lib/game/Sprite.ts:22-25 | The new object's state is `Created`. |
| SpriteModel.Sprite.Play | client/src/lib/game/Sprite.ts:27-32 | The object's new state is `Played` of its old state. |
| SpriteModel.Sprite.Stop | client/src/lib/game/Sprite.ts:34-36 | The object's new state is `Stopped` of its old state. |
| SpriteModel.Sprite.Reset | client/src/lib/game/Sprite.ts:38-42 | The object's new state is `Rewound` of its old state. |
| SpriteModel.Sprite.Update | client/src/lib/game/Sprite.ts:44-63 | The object's new state is `Advanced` of its old state. |
| SpriteModel.Sprite.GetCurrentFrame | client/src/lib/game/Sprite.ts:65-67 | Agrees with `CurrentFrame` on the object's state. |
| SpriteModel.Sprite.IsFinished | client/src/lib/game/Sprite.ts:69-71 | Reports the complete flag. |
| GameStateModel.Saved | client/src/lib/game/GameState.ts:61-70 | Saving writes the record under the one save key and leaves every other key as it was. |
| GameStateModel.Loaded | client/src/lib/game/GameState.ts:72-84 | Loading reports whether the save key exists. When it does, the record becomes the saved one; when it does not, the record is unchanged. |
| GameStateModel.SaveLoadRoundTrip | client/src/lib/game/GameState.ts:61-84 | Loading right after saving finds exactly the saved record. |
| GameStateModel.Restarted | client/src/lib/game/GameState.ts:53-59 | `resetGameState` returns score, lives, coins and time to 0, 3, 0 and 0, and keeps the level. |
| GameStateModel.GameState.constructor | client/src/lib/game/GameState.ts:2-11 | Starts from the defaults, then loads the save when one exists. |
| GameStateModel.GameState.UpdateScore | client/src/lib/game/GameState.ts:13-19 | Only the score changes, by the given points. |
| GameStateModel.GameState.UpdateLives | client/src/lib/game/GameState.ts:21-27 | Only the lives change, by the given amount. |
| GameStateModel.GameState.UpdateCoins | client/src/lib/game/GameState.ts:29-35 | Only the coins change, by the given count. |
| GameStateModel.GameState.UpdateGameTime | client/src/lib/game/GameState.ts:45-51 | Only the game time changes, by `deltaTime`. |
| GameStateModel.GameState.SaveGameState | client/src/lib/game/GameState.ts:61-70 | The store becomes `Saved` of the current record. |
| GameStateModel.GameState.ResetGameState | client/src/lib/game/GameState.ts:53-59 | The record becomes `Restarted` and is written to the store. |
| GameStateModel.GameState.LoadGameState | client/src/lib/game/GameState.ts:72-84 | The record and the returned flag are those of `Loaded`. |
| GameStateModel.GameState.SetLevel | client/src/lib/game/GameState.ts:37-43 | Only the level changes, and `getLevel` returns it. |
| InputModel.KeyDown | client/src/lib/game/Input.ts:16-36 | Arrow or A/D keys set left or right; ArrowUp, W or space sets jump. Other flags are unchanged, and other keys change nothing. |
| InputModel.KeyUp | client/src/lib/game/Input.ts:38-57 | The same keys clear the same flags, and nothing else changes. |
| InputModel.ReleaseUndoesPress | client/src/lib/game/Input.ts:16-57 | Releasing a key after pressing it is the same as only releasing it, and for a mapped key the reverse holds too. |
| InputModel.KeyGroupsDisjoint | client/src/lib/game/Input.ts:17-34 | No key belongs to two of the three groups. |
| InputModel.Input.constructor | client/src/lib/game/Input.ts:8-14 | A new input has no key held. |
| InputModel.Input.HandleKeyDown | client/src/lib/game/Input.ts:16-36 | The key record's new value is `KeyDown` of the old one. |
| InputModel.Input.HandleKeyUp | client/src/lib/game/Input.ts:38-57 | The key record's new value is `KeyUp` of the old one. |
| InputModel.Input.GetInput | client/src/lib/game/Input.ts:59-61 | Returns the three flags. |
| EngineModel.PlatformSweep | client/src/lib/game/Engine.ts:195-199 | Only the player's position, velocity and grounded flag change. Grounded is never cleared. After the pass the player no longer overlaps the last platform. Without any overlap nothing changes. |
| EngineModel.CoinEvents | client/src/lib/game/Engine.ts:205 | One `onCoinCollect(value)` per collected coin, in order. |
| EngineModel.CoinSweep | client/src/lib/game/Engine.ts:202-209 | Every coin is either kept or reported once: kept coins plus events number the coins. |
| EngineModel.CoinSweepFilters | client/src/lib/game/Engine.ts:202-209 | The coin filter keeps exactly the coins the player misses, in order. It raises one event per touched coin, in order, so kept coins plus events number the original coins. |
| EngineModel.Encountered | client/src/lib/game/Engine.ts:215-227 | With no contact, player and enemy are unchanged and no event is raised. A stomp (falling, feet above the enemy's middle) defeats the enemy and bounces the player without an event. Any other contact raises `onEnemyHit` and applies `takeDamage` (`Hurt`) to the player, which leaves an invulnerable player unchanged; the enemy is untouched. |
| EngineModel.EnemySweepKeeps | client/src/lib/game/Engine.ts:212-228 | The enemy pass raises at most one event per enemy and never moves the player's box, and the player invariant is kept. |
| EngineModel.EnemySweep | client/src/lib/game/Engine.ts:212-228 | The pass returns one enemy for each enemy it was given. |
| EngineModel.EnemySweepShape | client/src/lib/game/Engine.ts:212-228 | Each enemy is its patrolled self, possibly newly defeated. Defeated enemies stay defeated, and every event is `EnemyHit`. |
| EngineModel.PowerUpsApplied | client/src/lib/game/Engine.ts:238 | Applying collected power-ups never moves the player. With any power-up collected, the boost timer is 0. |
| EngineModel.PowerUpSweepFilters | client/src/lib/game/Engine.ts:234-242 | The power-up filter keeps exactly the untouched power-ups, in order. It raises one `onPowerupCollect` per touched power-up. |
| EngineModel.PowerUpSweep | client/src/lib/game/Engine.ts:234-242 | Every power-up is either kept or reported once: kept power-ups plus events number the power-ups. |
| EngineModel.Eased | client/src/lib/game/Engine.ts:253-265 | The camera moves 10% toward its target and is clamped to `[0, max(0, level extent - view)]`. |
| EngineModel.CameraClosesGap | client/src/lib/game/Engine.ts:259-260 | Away from the clamps, each frame shrinks the camera's distance to its target to 90%. |
| EngineModel.PlayerPass | client/src/lib/game/Engine.ts:183-199 | Grounded check, update, physics and platform resolution keep the player's size and invariant. |
| EngineModel.GoalEvents | client/src/lib/game/Engine.ts:245-247 | `onLevelComplete` fires exactly when the player overlaps the goal, on every such frame. |
| EngineModel.Tick | client/src/lib/game/Engine.ts:174-251 | A frame never changes platforms, goal or view size. |
| EngineModel.Frame | client/src/lib/game/Engine.ts:174-251 | A frame after earlier events keeps platforms, goal and view size, and keeps the earlier events as a prefix of the log. |
| EngineModel.FrameFrom | client/src/lib/game/Engine.ts:174-251 | Running a frame after earlier events appends exactly that frame's own events. |
| EngineModel.TickBoxIsSettled | client/src/lib/game/Engine.ts:191-228 | The player's box used for coins, enemies, power-ups and the goal is the one after platform resolution. |
| EngineModel.TickLeavesNothingToCollect | client/src/lib/game/Engine.ts:202-242 | After a frame, every remaining coin and power-up was there before and does not touch the player, and no defeated enemy remains. |
| EngineModel.CoinCount | client/src/lib/game/Engine.ts:205 | Counts the coin events; never more than the events. |
| EngineModel.CoinCountAppend | client/src/lib/game/Engine.ts:205 | The coin count of joined event lists is the sum of their counts. |
| EngineModel.TickCollectsEachCoinOnce | client/src/lib/game/Engine.ts:202-209 | In a frame, coin events plus remaining coins equal the coins before: each coin is collected at most once. |
| EngineModel.TickCompletesAtGoal | client/src/lib/game/Engine.ts:245-247 | A frame raises `LevelComplete` exactly when the settled player overlaps the goal. |
| EngineModel.TickKeepsCameraInLevel | client/src/lib/game/Engine.ts:263-264 | After a frame, the camera lies within the level's bounds on both axes. |
| EngineModel.TickKeepsPlayerInv | client/src/lib/game/Engine.ts:174-251 | A frame keeps the player invariant (positive size, timers in range, boost constants consistent). |
| EngineModel.PlacedCoins | client/src/lib/game/Engine.ts:140-148 | One 16×16 coin of value 10 per spawn, in order. |
| EngineModel.PlacedEnemies | client/src/lib/game/Engine.ts:151-160 | One 32×32 enemy per spawn, with its speed and range, in order. |
| EngineModel.PlacedPowerUps | client/src/lib/game/Engine.ts:163-171 | One 24×24 power-up per spawn, with its type, in order. |
| EngineModel.Populated | client/src/lib/game/Engine.ts:112-172 | The ground (0, 552, 2000, 48) comes first, then the level's platforms. The level's coins, enemies and power-ups replace the old ones, and nothing else changes. |
| EngineModel.Reloaded | client/src/lib/game/Engine.ts:344-368 | Reloading resets the player to the level's start and repopulates the level. Goal and camera are kept. |
| EngineModel.StartedShape | client/src/lib/game/Engine.ts:44-100 | A new engine holds level 1: 8 platforms with the ground first, 10 coins, 3 live enemies, 2 power-ups and level 1's goal, with the player at (50, 400) and valid. |
| EngineModel.Started | client/src/lib/game/Engine.ts:44-100 | A new engine has the given view size, the camera at the origin, level 1's goal, and a 32×48 player at (50, 400). |
| EngineModel.ReloadFallsBack | client/src/lib/game/Engine.ts:356-368 | Loading an unknown level number loads level 1. |
| EngineModel.ReloadRestoresEverything | client/src/lib/game/Engine.ts:344-354 | After any frame, a reset brings back every coin and enemy of the level and keeps the old goal. |
| Engine.KeepAlive | client/src/lib/game/Engine.ts:231 | The filter keeps exactly the objects of enemies not defeated, and their values stay in order. The result is a subset of the input and keeps distinct objects distinct. |
| Engine.LayPlatforms | client/src/lib/game/Engine.ts:119-137 | The ground, then the level's platforms. |
| Engine.LayCoins | client/src/lib/game/Engine.ts:140-148 | The loop builds `PlacedCoins`. |
| Engine.LayEnemies | client/src/lib/game/Engine.ts:151-160 | The loop builds fresh, distinct enemy objects whose states are `PlacedEnemies`. |
| Engine.LayPowerUps | client/src/lib/game/Engine.ts:163-171 | The loop builds `PlacedPowerUps`. |
| Engine.GameEngine.constructor | client/src/lib/game/Engine.ts:44-100 | The new engine's state is `Started` with no events; its game state is loaded from the store. |
| Engine.GameEngine.InitializeLevel | client/src/lib/game/Engine.ts:112-172 | Replaces the four lists with those of the level. |
| Engine.GameEngine.Update | client/src/lib/game/Engine.ts:174-251 | The engine's state and event log after `update` are `Frame` of the old ones. No enemy object is created. |
| Engine.GameEngine.StepPlayer | client/src/lib/game/Engine.ts:183-199 | The player object's new state is `PlayerPass` of its old state. |
| Engine.GameEngine.ResolvePlatforms | client/src/lib/game/Engine.ts:195-199 | The loop over the platforms computes `PlatformSweep`. |
| Engine.GameEngine.CoinLoop | client/src/lib/game/Engine.ts:202-209 | The coin loop computes `CoinSweep`. |
| Engine.GameEngine.EnemyLoop | client/src/lib/game/Engine.ts:212-228 | The enemy loop updates each enemy object in place and computes `EnemySweep`. |
| Engine.GameEngine.PruneLoop | client/src/lib/game/Engine.ts:231 | The enemy list is filtered to the live ones. |
| Engine.GameEngine.PowerUpLoop | client/src/lib/game/Engine.ts:234-242 | The power-up loop computes `PowerUpSweep` and applies each collected power-up to the player. |
| Engine.GameEngine.CheckGoal | client/src/lib/game/Engine.ts:245-247 | Appends `GoalEvents`. |
| Engine.GameEngine.UpdateCamera | client/src/lib/game/Engine.ts:253-265 | Sets both camera coordinates to `Eased` toward the centred player. |
| Engine.GameEngine.ResetLevel | client/src/lib/game/Engine.ts:344-354 | The engine becomes `Reloaded` with the game state's current level. |
| Engine.GameEngine.LoadLevel | client/src/lib/game/Engine.ts:356-368 | Sets the game state's level, then becomes `Reloaded` with that level. |
| Engine.GameEngine.HandleTouchInput | client/src/lib/game/Engine.ts:371-375 | Applies `WithInput` to the player. |
| Engine.GameEngine.IsPlayerGrounded | client/src/lib/game/Engine.ts:378-380 | Reports the player's grounded flag. |
| Storage.CreationKeepsIdsUnique | server/storage.ts:128-166 | Each of `createUser`, `addHighScore` and `createPlayerProfile` gives its new record an id larger than every id in its table, and keeps all ids increasing and below their counters. |
| Storage.UserCreated | server/storage.ts:128-133 | `createUser` appends exactly one user after the existing ones, under the current counter, with the given name. The counter advances by one, nothing else changes, and unique ids are kept. |
| Storage.HighScoreAdded | server/storage.ts:148-153 | `addHighScore` appends exactly one score after the existing ones, under its counter, with the given score. The counter advances by one, nothing else changes, and unique ids are kept. |
| Storage.ProfileCreated | server/storage.ts:161-166 | `createPlayerProfile` appends exactly one profile after the existing ones, under its counter, for the given user. The counter advances by one, nothing else changes, and unique ids are kept. |
| Storage.FirstIndex | server/storage.ts:122-126 | `find` returns the first element that passes, and when there is none, no element passes. |
| Storage.GetUser | server/storage.ts:118-120 | Found exactly when some stored user has that id. The user found has that id, and under unique ids it is the only one. |
| Storage.GetUserByUsername | server/storage.ts:122-126 | Found exactly when some user has the name; the one found is the first with it in insertion order. |
| Storage.GetPlayerProfile | server/storage.ts:155-159 | Found exactly when some profile belongs to the user; the one found is the first such profile. |
| Storage.InsertByScoreStable | server/storage.ts:138 | Inserting after every entry scoring at least as much keeps equal-score entries in order. |
| Storage.SortByScoreSorted | server/storage.ts:137-138 | The sort returns a permutation of the scores, ordered by non-increasing score. |
| Storage.SortByScoreStable | server/storage.ts:137-138 | Entries with equal scores keep their insertion order (the sort is stable). |
| Storage.HighScoresRanked | server/storage.ts:135-139 | `getHighScores` returns every stored score once, best first, with ties in insertion order. |
| Storage.GetHighScores | server/storage.ts:135-139 | The leaderboard is in non-increasing score order and a permutation of the stored scores. |
| Storage.GetHighScoresByUser | server/storage.ts:141-146 | The user's list is in non-increasing score order and a permutation of the scores whose `userId` is the user's. |
| Storage.UserHighScoresRanked | server/storage.ts:141-146 | `getHighScoresByUser` returns exactly that user's scores, each once, best first. Equal scores keep their insertion order, because the sort is stable. |
| Storage.Override | server/storage.ts:177-181 | A spread field overrides only when the update carries it. |
| Storage.ProfileUpdated | server/storage.ts:168-185 | Without a profile for the user, the result is `undefined` and nothing changes. Otherwise the first profile of the user is replaced in place by the merge: same id, the given user, updated fields overridden. Every other profile is untouched and ids stay unique. |
| Storage.UpdateReadsBack | server/storage.ts:168-185 | After an update, `getPlayerProfile` returns the merge the update returned. |
| Storage.CreatedUserReadsBack | server/storage.ts:118-133 | A created user is found under its new id, and every other id finds what it found before. |
| Storage.DuplicateNameShadowed | server/storage.ts:122-133 | Usernames are not checked on creation. A second user with a taken name is stored but is never found by name. |
| Storage.DemoShape | server/storage.ts:52-116 | The demo data gives users player1..3, the scores 1250, 980 and 1500 and the three profiles, with ids 1 to 3 and all counters at 4. |
| Storage.DemoValid | server/storage.ts:40-116 | The demo store has unique, increasing ids. |
| Storage.DemoRanking | server/storage.ts:59-84 | The demo leaderboard ranks player 3 (1500), then player 1 (1250), then player 2 (980). |
| Storage.MemStorage.constructor | server/storage.ts:40-50 | The new store is the demo data. |
| Storage.MemStorage.InitializeDemoData | server/storage.ts:52-116 | Fills an empty store with exactly the demo data. |
| Storage.MemStorage.CreateUser | server/storage.ts:128-133 | Appends the user under the current counter and advances the counter. |
| Storage.MemStorage.AddHighScore | server/storage.ts:148-153 | Appends the score under its counter and advances it. |
| Storage.MemStorage.CreatePlayerProfile | server/storage.ts:161-166 | Appends the profile under its counter and advances it. |
| Storage.MemStorage.UpdatePlayerProfile | server/storage.ts:168-185 | The store and the answer are those of `ProfileUpdated`. |
| GamePage.Pad2 | client/src/pages/Game.tsx:192 | `padStart(2, '0')` gives at least two characters, ends with the text and pads only with zeros. |
| GamePage.FormatTime | client/src/pages/Game.tsx:189-193 | `formatTime` joins two padded fields with ':', so the text always has at least five characters; `FormatTimeReadsBack` reads it back. |
| GamePage.JsRem | client/src/pages/Game.tsx:191 | JavaScript's `%` takes the sign of the dividend: `[0, b)` for a non-negative dividend, `(-b, 0]` for a negative one, and `a == trunc(a / b) * b + r` with the quotient truncated toward zero. |
| GamePage.DigitsRoundTrip | client/src/pages/Game.tsx:192 | Reading back the decimal text of a number gives the number. |
| GamePage.DigitsLength | client/src/pages/Game.tsx:192 | The text has one digit below 10, at most two below 100 and three or more from 100. |
| GamePage.PaddedRoundTrip | client/src/pages/Game.tsx:192 | A padded field reads back as its number and is exactly two characters below 100. |
| GamePage.FormatTimeReadsBack | client/src/pages/Game.tsx:189-193 | For `s >= 0`, the text is minutes, ':' and a two-character seconds field in 0..59, and `minutes*60 + seconds == s`. |
| GamePage.LongGamesWiden | client/src/pages/Game.tsx:190-192 | From 100 minutes on, the minutes field is not cut to two digits. |
| GamePage.NegativeTimeText | client/src/pages/Game.tsx:189-193 | A negative time `-s` (s in 1..9) is shown as "-1:-s": floor division and the truncating `%` both keep a sign. |
| GamePage.Reacted | client/src/pages/Game.tsx:54-72 | A coin adds one coin and its value to the score. A hit takes one life. A power-up adds 50 to the score. Completion sets the flag and the elapsed seconds. No callback ends the game. |
| GamePage.ReactedCounts | client/src/pages/Game.tsx:54-66 | Over any event sequence, the HUD's coins rise by the number of coin events and its lives fall by the number of hits. |
| GamePage.HudCoinsMatchLevel | client/src/pages/Game.tsx:54-58 | After an engine frame, the HUD's coin gain equals the number of coins that left the level. |
| GamePage.GameOverChecked | client/src/pages/Game.tsx:118-121 | Game over is flagged exactly when it already was, or when a running frame sees no lives left. Nothing else changes. |
| GamePage.HitsEndTheGame | client/src/pages/Game.tsx:118-121 | Once the hits reach the lives, the next running frame flags game over, and game over is never cleared. |
| LevelEditor.Snap | client/src/pages/LevelEditor.tsx:14-15 | `Math.round(v / 50) * 50`: the snapped value is a multiple of 50 within 25 of the click; a click half-way goes to the larger line. |
| LevelEditor.SnapIdempotent | client/src/pages/LevelEditor.tsx:14-15 | A value already on the grid does not move. |
| LevelEditor.NewObject | client/src/pages/LevelEditor.tsx:17-25 | Object shapes by tool: platform 100×30; coin 20×20; enemy 32×32 with speed 50 and patrol 100 (the only tool with those fields); power-up 24×24. The power-up's type is overwritten to "speed" by the later spread, so it is never "powerup". |
| LevelEditor.AddObject | client/src/pages/LevelEditor.tsx:9-28 | Without a canvas nothing changes. Otherwise exactly one object of the tool is appended, within 25 px of the click on each axis, and existing objects and their order are unchanged. The new object is `NewObject` of the tool at the snapped click, so it sits on the 50-px grid and carries the tool's size, speed and patrol fields. |
| LevelEditor.ExportLevel | client/src/pages/LevelEditor.tsx:62-71 | The export's start (50, 400) and goal (2200, 410, 40, 150) are constants. |
| LevelEditor.AddObjectKeepsPlaced | client/src/pages/LevelEditor.tsx:5-28 | From the empty start, every click keeps the list made only of tool-built objects. |
| LevelEditor.ExportSelectsByType | client/src/pages/LevelEditor.tsx:63-70 | Each exported list holds exactly the objects whose type matches it (membership; order and multiplicity come from `filter` in `ExportLevel`). |
| LevelEditor.ExportLosesPowerUps | client/src/pages/LevelEditor.tsx:63-70 | For editor-built objects the power-up list is always empty. Power-up-tool objects appear in no list, and every other object in exactly one. |

## Left out

- Rendering: every `render`, `drawCloud` and `drawGoalFlag`, the sprite sheets, and canvas drawing in the editor. Audio (`audioManager` calls are no-ops). The DOM and the window:
  - canvas lookup;
  - `resize`, whose view width and height are plain fields;
  - `requestAnimationFrame`;
  - key listeners, whose events arrive as `HandleKeyDown`/`HandleKeyUp` calls.
- Cosmetic animation counters: `frameCount`/`frameTimer` in `Player` and `Enemy`, coin rotation and power-up float. The engine only needs their boxes, the coin value 10 and the power-up type.
- `Engine.update` reads `this.input.left`, which `Input` does not have, and passes input to a `Player.update` that ignores it. Keyboard input therefore never reaches the player during `update`, and the model applies none. Touch input goes through `HandleTouchInput`.
- `Engine.update` does not check `gameState`; the page's loop calls `saveGameState` every frame. That loop, `setTimeout`, routing, pause and touch handlers are left out. `Date.now()` enters only as the `elapsed` argument.
- `GameState` uses `localStorage` and JSON. The store is a map from key to record, and malformed JSON is not modelled.
- `EngineModel.Reloaded`: `resetLevel`/`loadLevel` do not reset the goal or the camera, and the model keeps them too.
- The server's promises are modelled as plain calls.
- `new Date().toISOString()` in the demo data is an opaque string argument.
- The Map of each table is a sequence of values in insertion order; keys always equal ids, and `set` on an existing key replaces the value in place.
- Storage records: a null `userId` and an absent one are both `None`. A profile update field given explicitly as `undefined` is treated as absent.
- `LevelEditor.AddObject`: the canvas's bounding rectangle is an `Option<Rect>` argument standing for a missing or present canvas.
- `LevelEditor.ExportLevel`: the blob download is left out.
- A sprite's `frames` list is a value, not an array shared with the caller.
- JavaScript numbers that only count (lives, coins, level, seconds, ids and the server's integer columns) are `int`. No caller passes a fraction, so `GameState.updateLives(0.5)` and the like are not modelled.
- Physics, collision and camera arithmetic use exact reals, so results that IEEE doubles would round differently are not captured.
- `InputModel.Input.GetInput` returns a copy of the three flags. `Input.ts` hands out its live `keys` object, and later key events would show through that alias; nothing in the modelled code holds on to it.
- `Engine.KeepAlive`: defeated enemies are dropped from the list. Their objects are not destroyed, as JavaScript garbage collection is not modelled.
