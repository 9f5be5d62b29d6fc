# JavaGame core in Dafny

JavaGame is a small top-down shooter that went through three generations:

- CSGraphics: integer sprites, an eight-way `Player`, a chasing `Enemy` and a `FollowerEntityTest`.
- com.albertzhang.javagame: `double` sprites, difficulty-scaled enemies and straight-flying `Projectile`s.
- com.albertzhang.spaceevasion: score, fading `DyingEnemy` corpses, compound difficulty growth and edge-aware keyboard steering.

Each generation has a `LogicEngine` whose thread runs one tick about 60 times a second. A tick does these steps:

1. Check for a loss.
2. Maybe spawn an enemy.
3. Move every enemy toward the player and apply contact damage; in spaceevasion, dead enemies become corpses.
4. Fly every projectile; the first enemy it hits takes damage and the projectile is removed.
5. Sleep out the rest of the 16 ms.

The audio library TinySound loads sounds. Before playing them it converts 8-bit PCM to 16-bit little-endian PCM.

The model follows the source module by module:

| file | models |
|---|---|
| `javaint.dfy` | Java `int` wrap-around and `Math.abs` |
| `javalist.dfy` | `ArrayList.remove(int)` |
| `geometry.dfy` | `Rectangle2D.intersects` as overlap with positive area, and the coordinate-distance pre-filter the engines put in front of it |
| `compass.dfy` | the eight `Player` directions, their `intValue`s and the angle `dirToRad` gives them |
| `csgraphics_entities.dfy` | CSGraphics `Sprite`, `Player`, `Enemy` and `FollowerEntityTest`, as classes |
| `csgraphics_engine.dfy` | the CSGraphics tick |
| `javagame_entities.dfy` | javagame `Sprite`, `Enemy` and `Projectile` |
| `javagame_engine.dfy` | the javagame tick |
| `spaceevasion_sprites.dfy` | spaceevasion `Sprite` and `DyingEnemy` |
| `spaceevasion_engine.dfy` | the spaceevasion tick |
| `spaceevasion_keys.dfy` | `KeyHandling`: key flags, `checkBounds` and `checkKeys` |
| `lifecycle.dfy` | the start/stop/pause/resume protocol shared by the engines and `KeyHandling`, and the run loop's pacing |
| `tinysound.dfy` | TinySound's init/shutdown/volume/`soundCount` state, channel (de)interleaving and the 8-bit to 16-bit conversions |

Each engine is a class. Its `enemies`, `projectiles` (and `corpses`) are `seq` fields, and its `doLogic` is a method. Each index loop of `doLogic` is a `while` loop. Every loop is proved against a recursive specification function (`EnemyPass`, `ProjectilePass`) that walks the list the same way, including Java's index behaviour after `remove(i)`:

- the element after a removed one is skipped;
- removing a projectile twice at the last index throws `IndexOutOfBoundsException`. This is modelled as a `TickCrashed` / `ShotCrash` outcome.

Randomness, dialog answers and spawn candidates are parameters.

Behaviours of the code that the proofs below pin down:

- **Spawn distance.** Spawning is unbounded: a candidate within 128 of the player on both axes is redrawn, with no limit on the draws. javagame even appends every rejected enemy (`SpawnAppendIsReversedDraws`, `SpawnCanPassCap`).
- **Pre-filters.** javagame's 46-unit filter can reject an overlapping 32x32 shot and 64x64 enemy (`ShotPrefilterMissesOverlap`). spaceevasion's 64-unit filter never rejects an overlapping pair whose boxes are at most 64x64 (`ShotPrefilterSound`). Enemy boxes have that size only while their image is unrotated (see "Left out").
- **Alarm cue.** The contact alarm is set by any enemy the pass tests, including one that is then removed as dead (`EnemyPassAlarm`).
- **Sprite health in CSGraphics.** CSGraphics `Sprite` declares no `health`, although `Enemy` and `LogicEngine` use one. The model gives `Player` and `Enemy` an `int` health.
- **Player position type.** javagame's `int pX = p.getX()` reads a `double` getter. The model keeps the `double` value.

## Model

| member | source | states |
|---|---|---|
| JavaInt.Wrap | src/kuusisto/tinysound/TinySound.java:443 | the result is an `int`, congruent to the input modulo 2^32, and equal to it when the input already fits |
| JavaInt.WrapOfSmall | src/kuusisto/tinysound/TinySound.java:443-448 | for 0 <= x < 2^33, which of the four wrap ranges x falls in and whether the wrapped value is negative |
| JavaInt.IntAbs | src/CSGraphics/LogicEngine.java:180 | `Math.abs` returns a natural equal to x or -x |
| JavaInt.Half | src/com/albertzhang/javagame/LogicEngine.java:151-152 | Java's `/ 2` truncates toward zero: the floor for naturals, and for negatives a half no lower than n/2 and at most one half above it |
| JavaList.RemoveAt | src/CSGraphics/LogicEngine.java:173 | `remove(i)` keeps the prefix, shifts the suffix left by one and drops exactly the element at i (as a multiset) |
| Geometry.Intersects | src/CSGraphics/Sprite.java:120-122 | an empty rectangle intersects nothing, a non-empty one intersects itself, and the test gives the same answer with the rectangles swapped |
| Geometry.IntersectsSymmetric | src/CSGraphics/Sprite.java:120-122 | intersection does not depend on argument order |
| Geometry.IntersectsIffCommonPoint | src/CSGraphics/Sprite.java:120-122 | two rectangles intersect exactly when some point lies strictly inside both |
| Geometry.PrefilterSound | src/com/albertzhang/spaceevasion/LogicEngine.java:252-254 | intersecting rectangles no wider or taller than d have centres (corners) less than d apart on both axes |
| Compass.Value | src/CSGraphics/Player.java:14-25 | every direction's `intValue` is below 8 |
| Compass.ValueIsBijection | src/CSGraphics/Player.java:14-25 | `intValue` and lookup by value are inverse bijections on 0..7 |
| Compass.QuarterTurns | src/CSGraphics/Player.java:118-139 | `dirToRad` gives each direction a multiple k < 8 of pi/4 |
| Compass.QuarterTurnsDistinctAndOpposed | src/CSGraphics/Player.java:118-139 | distinct directions have distinct angles; the opposite direction is half a turn away; opposite is an involution |
| Compass.StepFollowsAngle | src/CSGraphics/Player.java:66-139 | the player's move in each direction has the signs of (cos, -sin) of its angle, and opposite directions move oppositely |
| CSGraphicsEntities.SpriteOffsetTransposesStep | src/CSGraphics/Sprite.java:84-118 | `Sprite.move` swaps the axes of `Player.move`: north/south move x, east/west move y, and opposite directions cancel |
| CSGraphicsEntities.StepToward | src/CSGraphics/Enemy.java:28-38 | each axis moves by exactly 1 and gets one closer to a different target; at the target it overshoots by one |
| CSGraphicsEntities.ChaseReachesTarget | src/CSGraphics/FollowerEntityTest.java:22-36 | starting \|c - t\| away, a follower reaches the target after exactly that many steps, then oscillates around it |
| CSGraphicsEntities.Chase | src/CSGraphics/Enemy.java:24-40 | an enemy touching the player stays put; otherwise both coordinates move by 1 and get strictly closer to the player's |
| CSGraphicsEntities.Sprite.constructor | src/CSGraphics/Sprite.java:34-42 | the sprite starts at the given position with the given image |
| CSGraphicsEntities.Sprite.SetX | src/CSGraphics/Sprite.java:52-54 | sets x only |
| CSGraphicsEntities.Sprite.SetY | src/CSGraphics/Sprite.java:60-62 | sets y only |
| CSGraphicsEntities.Sprite.Move | src/CSGraphics/Sprite.java:84-118 | the position moves by `amount` along the sprite's offset for the direction |
| CSGraphicsEntities.MoveThereAndBack | src/CSGraphics/Sprite.java:84-118 | moving by an amount in a direction and then in the opposite one returns the sprite to its start |
| CSGraphicsEntities.Player.constructor | src/CSGraphics/Player.java:27-42 | the player faces north with its eight images |
| CSGraphicsEntities.Player.SetImage | src/CSGraphics/Player.java:49-52 | a single image is unsupported |
| CSGraphicsEntities.Player.SetImages | src/CSGraphics/Player.java:54-56 | replaces the image set with any array; the player stays valid (eight images, one per direction) exactly when the new set has eight |
| CSGraphicsEntities.Player.SetX | src/CSGraphics/Sprite.java:52-54 | sets x only |
| CSGraphicsEntities.Player.SetY | src/CSGraphics/Sprite.java:60-62 | sets y only |
| CSGraphicsEntities.Player.SetHealth | src/CSGraphics/Enemy.java:45 | sets health only |
| CSGraphicsEntities.Player.Move | src/CSGraphics/Player.java:66-116 | the player turns to face d and moves `amount` along d's step |
| CSGraphicsEntities.PlayerThereAndBack | src/CSGraphics/Player.java:66-116 | a move followed by the opposite move returns the player to its start, facing the opposite way |
| CSGraphicsEntities.Enemy.constructor | src/CSGraphics/Enemy.java:16-22 | the enemy starts at the given position, image and health |
| CSGraphicsEntities.Enemy.DoSpecialAction | src/CSGraphics/Enemy.java:24-40 | the enemy's new state is `Chase` of its old one toward the player |
| CSGraphicsEntities.Enemy.OnCollideWithEntity | src/CSGraphics/Enemy.java:42-46 | the player loses the fixed contact damage |
| CSGraphicsEntities.Follower.constructor | src/CSGraphics/FollowerEntityTest.java:14-20 | the follower starts at its position with no target |
| CSGraphicsEntities.Follower.DoSpecialAction | src/CSGraphics/FollowerEntityTest.java:22-36 | the follower targets the player and takes one unit step toward it on each axis |
| CSGraphicsEngine.Visit | src/CSGraphics/LogicEngine.java:171-184 | one enemy visit removes at most that enemy, leaves earlier ones alone and costs the player 0 or one contact damage |
| CSGraphicsEngine.EnemyPass | src/CSGraphics/LogicEngine.java:170-185 | the pass never grows the list, keeps the visited prefix, and lowers health by at most one damage per enemy visited |
| CSGraphicsEngine.DeadEnemyStillStrikes | src/CSGraphics/LogicEngine.java:172-183 | at any index, a dead enemy is removed but still moves, and if it then reaches the player it costs one damage in the same visit |
| CSGraphicsEngine.DeadEnemySuccessorSkipped | src/CSGraphics/LogicEngine.java:170-174 | the enemy after a removed one is never visited: it is left unchanged at the removed one's index |
| CSGraphicsEngine.FirstHit | src/CSGraphics/LogicEngine.java:193-202 | the index found is the first enemy the shot hits; none means no enemy is hit |
| CSGraphicsEngine.Strike | src/CSGraphics/LogicEngine.java:196-197 | the hit enemy loses `hitDamage` health and keeps its position and image; every other enemy is unchanged |
| CSGraphicsEngine.ShotStep | src/CSGraphics/LogicEngine.java:189-205 | the visit throws exactly when the last projectile hits while off the window; otherwise the hit enemy is struck, and the projectile is removed once per reason (hit, off the window), a double removal taking its successor; a projectile kept is unchanged |
| CSGraphicsEngine.ProjectilePass | src/CSGraphics/LogicEngine.java:188-206 | a completed pass keeps the enemy count and never adds projectiles |
| CSGraphicsEngine.HitOffWindowLastThrows | src/CSGraphics/LogicEngine.java:196-205 | at any index, a last projectile that hits an enemy while off the window is removed twice, and the pass throws |
| CSGraphicsEngine.HitOffWindowDropsSuccessor | src/CSGraphics/LogicEngine.java:196-205 | with a successor, the second removal deletes the successor, and the pass goes on after it without testing it |
| CSGraphicsEngine.Tick | src/CSGraphics/LogicEngine.java:153-207 | a tick adds at most one enemy, and none unless the draw is below 0.03 with fewer than 35 present, so it keeps the cap of 35; never adds projectiles, never raises health, requests a pause exactly when health was negative, and can throw only when there is a projectile |
| CSGraphicsEngine.Engine.constructor | src/CSGraphics/LogicEngine.java:131-151 | one enemy and no projectiles; the player is centred with its images and health; the thread is not yet created |
| CSGraphicsEngine.Engine.EnemyIteration | src/CSGraphics/LogicEngine.java:171-184 | the list and health after one iteration are `Visit` of the old ones |
| CSGraphicsEngine.Engine.EnemyLoop | src/CSGraphics/LogicEngine.java:167-185 | the list and health after the loop are `EnemyPass` of the old ones |
| CSGraphicsEngine.Engine.FindHit | src/CSGraphics/LogicEngine.java:193-202 | the inner loop finds `FirstHit` |
| CSGraphicsEngine.Engine.ProjectileIteration | src/CSGraphics/LogicEngine.java:189-205 | one iteration throws, or leaves the lists that `ShotStep` gives |
| CSGraphicsEngine.Engine.ProjectileLoop | src/CSGraphics/LogicEngine.java:187-206 | the loop throws exactly when `ProjectilePass` does, and otherwise leaves its lists |
| CSGraphicsEngine.Engine.AdvanceLists | src/CSGraphics/LogicEngine.java:162-206 | spawn, enemy and projectile passes give the lists and health of `Tick` |
| CSGraphicsEngine.Engine.DoLogic | src/CSGraphics/LogicEngine.java:153-207 | the whole tick matches `Tick`, and the engine is paused exactly when health was negative or it already was |
| JavaGameEntities.EnemyStep | src/com/albertzhang/javagame/Enemy.java:30-38 | the per-axis step is 1 at difficulty 1, 1.2 at 3, and at least 1 for positive difficulty |
| JavaGameEntities.StepToward | src/com/albertzhang/javagame/Enemy.java:30-38 | each axis moves by exactly the step, up when below the target and down otherwise |
| JavaGameEntities.Chase | src/com/albertzhang/javagame/Enemy.java:25-41 | a touching enemy stays put; otherwise both axes move by the difficulty's step toward the player; nothing but position changes |
| JavaGameEntities.ContactDamage | src/com/albertzhang/javagame/Enemy.java:46 | a contact costs the enemy's difficulty, at least 1 |
| JavaGameEntities.Fly | src/com/albertzhang/javagame/Projectile.java:28-32 | the position moves by the frozen vector; heading, health and vector stay |
| JavaGameEntities.FlyTimesIsLinear | src/com/albertzhang/javagame/Projectile.java:28-32 | after n flights the projectile is n vectors from its start with its heading and health unchanged |
| JavaGameEntities.Strike | src/com/albertzhang/javagame/Projectile.java:34-37 | the target loses 1001 health, which makes a full-health sprite negative; nothing else changes |
| JavaGameEntities.Sprite.constructor | src/com/albertzhang/javagame/Sprite.java:19-43 | a sprite starts at full health 1000 |
| JavaGameEntities.Sprite.SetHealth | src/com/albertzhang/javagame/Sprite.java:54-60 | sets health only |
| JavaGameEntities.Sprite.SetX | src/com/albertzhang/javagame/Sprite.java:66-68 | sets x only |
| JavaGameEntities.Sprite.SetY | src/com/albertzhang/javagame/Sprite.java:74-76 | sets y only |
| JavaGameEntities.Enemy.constructor | src/com/albertzhang/javagame/Enemy.java:16-23 | an enemy starts at full health with its frozen difficulty |
| JavaGameEntities.Enemy.DoSpecialAction | src/com/albertzhang/javagame/Enemy.java:25-41 | the enemy's new state is `Chase` of its old one |
| JavaGameEntities.Enemy.OnCollideWithEntity | src/com/albertzhang/javagame/Enemy.java:43-47 | the player loses `ContactDamage` |
| JavaGameEntities.Projectile.constructor | src/com/albertzhang/javagame/Projectile.java:19-22 | a projectile starts at full health with a frozen heading and a move of length 8 |
| JavaGameEntities.Projectile.Default | src/com/albertzhang/javagame/Projectile.java:15-17 | the default projectile sits at the origin with heading 0 and moves (8, 0) |
| JavaGameEntities.Projectile.DoSpecialAction | src/com/albertzhang/javagame/Projectile.java:28-32 | the new state is `Fly` of the old one |
| JavaGameEntities.Projectile.OnCollideWithEntity | src/com/albertzhang/javagame/Projectile.java:34-37 | the target's new state is `Strike` of its old one |
| JavaGameEngine.EffectiveDifficulty | src/com/albertzhang/javagame/LogicEngine.java:53-58 | difficulty 3 ("insane") plays as 10; any other difficulty is kept, so no level plays as 3 |
| JavaGameEngine.SpawnAppend | src/com/albertzhang/javagame/LogicEngine.java:245-251 | the recursive spawn appends only drawn candidates, the first draw last, and every entry but the first is a rejected (too close) draw |
| JavaGameEngine.SpawnAppendIsReversedDraws | src/com/albertzhang/javagame/LogicEngine.java:245-251 | the appended enemies are exactly the draws up to the first acceptable one, in reverse order, with the acceptable one first |
| JavaGameEngine.SpawnCanPassCap | src/com/albertzhang/javagame/LogicEngine.java:245-251 | one rejected draw just below the cap pushes the list past the cap |
| JavaGameEngine.Visit | src/com/albertzhang/javagame/LogicEngine.java:197-210 | one visit removes at most the visited enemy and keeps the earlier ones |
| JavaGameEngine.EnemyPass | src/com/albertzhang/javagame/LogicEngine.java:196-211 | the pass keeps the visited prefix and, when no remaining enemy has negative contact damage, never raises health |
| JavaGameEngine.DeadEnemyStillStrikes | src/com/albertzhang/javagame/LogicEngine.java:198-209 | at any index, a dead enemy is removed but still moves, and if it then reaches the player it costs its contact damage in the same visit |
| JavaGameEngine.DeadEnemySuccessorSkipped | src/com/albertzhang/javagame/LogicEngine.java:196-200 | the enemy after a removed one is not visited |
| JavaGameEngine.FirstHit | src/com/albertzhang/javagame/LogicEngine.java:219-228 | the first enemy passing the 46-unit filter and intersecting, or none |
| JavaGameEngine.ShotPrefilterMissesOverlap | src/com/albertzhang/javagame/LogicEngine.java:220-222 | a 32x32 shot 50 units right of a 64x64 enemy overlaps it, yet the filter rejects it |
| JavaGameEngine.StrikeAt | src/com/albertzhang/javagame/LogicEngine.java:222-223 | only the hit enemy changes, and it is `Strike`d |
| JavaGameEngine.ShotStep | src/com/albertzhang/javagame/LogicEngine.java:215-231 | the visit throws exactly when the last shot hits while off the window; otherwise the hit enemy is `Strike`d, and the shot is removed once per reason (hit, off the window), a double removal taking its successor; a shot kept is written back moved |
| JavaGameEngine.ProjectilePass | src/com/albertzhang/javagame/LogicEngine.java:214-232 | a completed pass keeps the enemy count and never adds projectiles |
| JavaGameEngine.MissInWindowFliesOn | src/com/albertzhang/javagame/LogicEngine.java:214-232 | at any index, a shot that misses and stays in the window is kept, one move further on, and the pass continues with the next shot |
| JavaGameEngine.HitOffWindowLastThrows | src/com/albertzhang/javagame/LogicEngine.java:222-231 | at any index, a last shot that hits while off the window is removed twice, and the pass throws |
| JavaGameEngine.HitOffWindowDropsSuccessor | src/com/albertzhang/javagame/LogicEngine.java:222-231 | with a successor, the successor is deleted, and the pass goes on after it without moving or testing it |
| JavaGameEngine.Centred | src/com/albertzhang/javagame/LogicEngine.java:150-152 | the player starts at full health, centred in the window |
| JavaGameEngine.LossCheck | src/com/albertzhang/javagame/LogicEngine.java:171-183 | a living player changes nothing; a dead one ends the game unless the player plays again, which resets to one enemy, no shots and a centred player |
| JavaGameEngine.Advance | src/com/albertzhang/javagame/LogicEngine.java:185-232 | after the loss check a tick never exits, never moves the player, never adds shots, and adds at most the candidates drawn; without a draw below 0.01 times the difficulty and fewer than 40 enemies it adds none |
| JavaGameEngine.Tick | src/com/albertzhang/javagame/LogicEngine.java:170-233 | a tick ends the process exactly when the player has lost and declines to play again, and adds no enemy unless the spawn draw succeeds against the list left by the loss check (the current one, or the single restart enemy) |
| JavaGameEngine.TickFacts | src/com/albertzhang/javagame/LogicEngine.java:170-233 | a tick exits exactly on a declined loss; otherwise the player keeps its position (or is centred after a reset) and projectiles never multiply |
| JavaGameEngine.EnemyPassKeepsSpawned | src/com/albertzhang/javagame/LogicEngine.java:196-211 | the enemy pass keeps every enemy at the engine's difficulty and at most full health |
| JavaGameEngine.ProjectilePassKeepsSpawned | src/com/albertzhang/javagame/LogicEngine.java:214-232 | a completed projectile pass keeps every enemy at the engine's difficulty and at most full health |
| JavaGameEngine.TickKeepsSpawned | src/com/albertzhang/javagame/LogicEngine.java:161-251 | when every new enemy is a fresh `Enemy(difficulty)`, a tick keeps all enemies at the engine's difficulty and at most full health, and at a non-negative difficulty the player's health never rises within a tick |
| JavaGameEngine.Engine.constructor | src/com/albertzhang/javagame/LogicEngine.java:35-39 | one fresh enemy (full health, the engine's difficulty), no projectiles, a centred player and no thread yet |
| JavaGameEngine.Engine.InitSprites | src/com/albertzhang/javagame/LogicEngine.java:148-168 | the world is reset to one fresh enemy at full health and the engine's difficulty, no shots and a new centred player |
| JavaGameEngine.Engine.SpawnEnemy | src/com/albertzhang/javagame/LogicEngine.java:245-251 | the list grows by exactly `SpawnAppend` |
| JavaGameEngine.Engine.EnemyIteration | src/com/albertzhang/javagame/LogicEngine.java:197-210 | one iteration gives `Visit` |
| JavaGameEngine.Engine.EnemyLoop | src/com/albertzhang/javagame/LogicEngine.java:193-211 | the loop gives `EnemyPass` |
| JavaGameEngine.Engine.FindHit | src/com/albertzhang/javagame/LogicEngine.java:219-228 | the inner loop finds `FirstHit` |
| JavaGameEngine.Engine.ProjectileIteration | src/com/albertzhang/javagame/LogicEngine.java:215-231 | one iteration throws or gives `ShotStep` |
| JavaGameEngine.Engine.ProjectileLoop | src/com/albertzhang/javagame/LogicEngine.java:213-232 | the loop throws exactly when `ProjectilePass` does, and otherwise gives its lists |
| JavaGameEngine.Engine.CheckLoss | src/com/albertzhang/javagame/LogicEngine.java:171-183 | the state afterwards is `LossCheck`'s; a dead player's health is first clamped to 0 and the engine is paused exactly when it exits |
| JavaGameEngine.Engine.AdvanceLists | src/com/albertzhang/javagame/LogicEngine.java:185-232 | spawn and both passes give the world `Advance` computes |
| JavaGameEngine.Engine.DoLogic | src/com/albertzhang/javagame/LogicEngine.java:170-233 | the whole tick matches `Tick`, including exit, crash and pause; it keeps every enemy at the engine's difficulty and at most full health, and at a non-negative difficulty never raises the player's health |
| Lifecycle.LoopControl.constructor | src/CSGraphics/LogicEngine.java:19-20 | no thread, not running, not paused |
| Lifecycle.LoopControl.Start | src/CSGraphics/LogicEngine.java:46-54 | starting leaves the loop running and not paused; a live thread makes it an illegal-state error |
| Lifecycle.LoopControl.Stop | src/CSGraphics/LogicEngine.java:59-73 | with no thread it is illegal; otherwise the loop stops, the thread ends and the process exits with 0 |
| Lifecycle.LoopControl.Pause | src/CSGraphics/LogicEngine.java:78-84 | pausing before a thread exists is illegal; otherwise the paused flag is set |
| Lifecycle.LoopControl.Resume | src/CSGraphics/LogicEngine.java:89-96 | resuming before a thread exists is illegal; otherwise the paused flag is cleared |
| Lifecycle.SleepMillis | src/CSGraphics/LogicEngine.java:110-111 | the sleep is never negative and tops the tick up to 16 ms when it is not already over |
| Lifecycle.LoopControl.Run | src/CSGraphics/LogicEngine.java:98-129 | the loop produces the `Trace` of the passes up to the first one during which `stop()` clears `isRunning`; the loop is still running exactly when no pass stopped it, and once it exits it is not paused and the thread has ended |
| Lifecycle.RunsTo | src/CSGraphics/LogicEngine.java:103-126 | a running loop makes every pass up to and including the first that stops it, and no more |
| Lifecycle.TraceWellOrdered | src/CSGraphics/LogicEngine.java:103-126 | in the run loop's events each wait directly follows a sleep, which directly follows the logic; each logic call is followed by its sleep; no sleep is negative |
| Lifecycle.TraceWaits | src/CSGraphics/LogicEngine.java:117-125 | the loop waits exactly when some pass found the engine paused after its sleep |
| Lifecycle.TraceLogicCount | src/CSGraphics/LogicEngine.java:103-107 | there is one `doLogic()` call per pass |
| Lifecycle.TraceSleepBound | src/CSGraphics/LogicEngine.java:109-111 | while no tick takes negative time, no sleep exceeds the 16 ms period |
| SpaceEvasionSprites.NewCorpse | src/com/albertzhang/spaceevasion/DyingEnemy.java:13-16 | a corpse starts at stage 1.0 where the enemy died, with its heading |
| SpaceEvasionSprites.Fade | src/com/albertzhang/spaceevasion/DyingEnemy.java:18-20 | each call lowers the stage by 0.05 and changes nothing else |
| SpaceEvasionSprites.FadeTimesCountsDown | src/com/albertzhang/spaceevasion/DyingEnemy.java:10-20 | after n calls the stage is n twentieths lower, reaching 0 after twenty calls on a fresh corpse |
| SpaceEvasionSprites.Sprite.constructor | src/com/albertzhang/spaceevasion/Sprite.java:16-40 | a sprite starts at full health 1000 |
| SpaceEvasionSprites.Sprite.SetHealth | src/com/albertzhang/spaceevasion/Sprite.java:46-48 | sets health only |
| SpaceEvasionSprites.Sprite.SetX | src/com/albertzhang/spaceevasion/Sprite.java:54-56 | sets x only |
| SpaceEvasionSprites.Sprite.SetY | src/com/albertzhang/spaceevasion/Sprite.java:62-64 | sets y only |
| SpaceEvasionSprites.DyingEnemy.constructor | src/com/albertzhang/spaceevasion/DyingEnemy.java:10-16 | the corpse's state is `NewCorpse` |
| SpaceEvasionSprites.DyingEnemy.GetDeathStage | src/com/albertzhang/spaceevasion/DyingEnemy.java:18-20 | the stage fades once and the new stage is returned |
| SpaceEvasionKeys.Classify | src/com/albertzhang/spaceevasion/KeyHandling.java:262-293 | exactly one region, decided by precedence: interior exactly when no strip is touched; a north component exactly when the top strip is touched; south exactly when the bottom strip is touched and the top is not; west exactly when the left strip is touched; east exactly when the right strip is touched and the left is not |
| SpaceEvasionKeys.Decide | src/com/albertzhang/spaceevasion/KeyHandling.java:212-260 | no key held means no move; every component of a move comes from a held key (south only without W); a move is 3 per axis diagonally and 5 along an axis |
| SpaceEvasionKeys.InteriorFollowsKeys | src/com/albertzhang/spaceevasion/KeyHandling.java:212-260 | away from the edges the command is the keys' intended move |
| SpaceEvasionKeys.KeyPrecedence | src/com/albertzhang/spaceevasion/KeyHandling.java:212-260 | W overrides S, and A overrides D when a vertical key is held |
| SpaceEvasionKeys.EdgesHold | src/com/albertzhang/spaceevasion/KeyHandling.java:212-293 | on a side the player never moves toward it; in a corner never straight toward either edge nor diagonally into the corner |
| SpaceEvasionKeys.CornerDiagonalsLeak | src/com/albertzhang/spaceevasion/KeyHandling.java:212-232 | in the north-west corner, W+D still moves north-east and A+S south-west, so a diagonal can push into an edge |
| SpaceEvasionKeys.KeyHandler.constructor | src/com/albertzhang/spaceevasion/KeyHandling.java:28-43 | no key held; the handler's thread is not yet created |
| SpaceEvasionKeys.KeyHandler.KeyPressed | src/com/albertzhang/spaceevasion/KeyHandling.java:149-167 | the held keys become `Pressed` of the old ones |
| SpaceEvasionKeys.KeyHandler.KeyReleased | src/com/albertzhang/spaceevasion/KeyHandling.java:169-210 | releasing a key clears its flag; space fires one projectile; escape clears all flags and pauses, and on quit mutes and exits |
| SpaceEvasionKeys.KeyHandler.CheckKeys | src/com/albertzhang/spaceevasion/KeyHandling.java:212-260 | the command is `Decide` for the held keys in the player's region |
| SpaceEvasionKeys.KeyEventsTouchOnlyTheirFlag | src/com/albertzhang/spaceevasion/KeyHandling.java:149-210 | a press sets only its key's flag; a release clears only its key's flag, and escape clears all four |
| SpaceEvasionKeys.Fired | src/com/albertzhang/spaceevasion/KeyHandling.java:184-191 | the projectile is centred on the player and heads where the player faces |
| SpaceEvasionEngine.EffectiveDifficulty | src/com/albertzhang/spaceevasion/LogicEngine.java:65-70 | within 0.1 of 3 the difficulty is 10; otherwise it is 1.1 times the value and never lower |
| SpaceEvasionEngine.InsaneBoostEnds | src/com/albertzhang/spaceevasion/LogicEngine.java:65-70 | insane difficulty starts boosted to 10, and after 67 ticks of growth it has left the boost band |
| SpaceEvasionEngine.Grow | src/com/albertzhang/spaceevasion/LogicEngine.java:266-267 | the difficulty grows by a fixed fraction of itself each tick |
| SpaceEvasionEngine.GrowTimesAtLeastLinear | src/com/albertzhang/spaceevasion/LogicEngine.java:266-267 | after n ticks the difficulty is at least d(1 + nk), as compound growth should be |
| SpaceEvasionEngine.ClampScore | src/com/albertzhang/spaceevasion/LogicEngine.java:76-78 | `setScore` stores the value, or 0 when it is negative |
| SpaceEvasionEngine.AddKill | src/com/albertzhang/spaceevasion/LogicEngine.java:229 | a kill adds 55 and the score stays non-negative |
| SpaceEvasionEngine.ScoreOverflowResets | src/com/albertzhang/spaceevasion/LogicEngine.java:229 | a kill at `Integer.MAX_VALUE` wraps negative and is clamped to 0 |
| SpaceEvasionEngine.SpawnPick | src/com/albertzhang/spaceevasion/LogicEngine.java:280-287 | the spawned enemy is the first candidate not too close to the player; none exactly when every candidate is too close |
| SpaceEvasionEngine.Visit | src/com/albertzhang/spaceevasion/LogicEngine.java:225-242 | a dead enemy is removed and becomes a corpse; a live one moves in place; the moved enemy is tested and the alarm set if it strikes |
| SpaceEvasionEngine.EnemyPass | src/com/albertzhang/spaceevasion/LogicEngine.java:224-243 | the pass never grows the list and keeps the visited prefix |
| SpaceEvasionEngine.EnemyPassCorpses | src/com/albertzhang/spaceevasion/LogicEngine.java:224-243 | one corpse is appended per enemy removed, after the old corpses |
| SpaceEvasionEngine.EnemyPassScore | src/com/albertzhang/spaceevasion/LogicEngine.java:224-243 | the score stays non-negative and, short of overflow, rises by 55 per enemy removed |
| SpaceEvasionEngine.EnemyPassAlarm | src/com/albertzhang/spaceevasion/LogicEngine.java:223-244 | the alarm is on exactly when some enemy tested in the pass struck the player |
| SpaceEvasionEngine.DeadEnemyStillStrikes | src/com/albertzhang/spaceevasion/LogicEngine.java:226-242 | at any index, a dead enemy is removed, scored and turned into a corpse, and if its move reaches the player it still hurts it and sets the alarm |
| SpaceEvasionEngine.DeadEnemySuccessorSkipped | src/com/albertzhang/spaceevasion/LogicEngine.java:224-229 | the enemy after a removed one is not visited |
| SpaceEvasionEngine.ShotPrefilterSound | src/com/albertzhang/spaceevasion/LogicEngine.java:252-254 | for sprites up to 64x64, filter plus intersection is exactly intersection |
| SpaceEvasionEngine.FirstHit | src/com/albertzhang/spaceevasion/LogicEngine.java:251-260 | the first enemy the shot hits, or none |
| SpaceEvasionEngine.ShotStep | src/com/albertzhang/spaceevasion/LogicEngine.java:247-263 | the visit throws exactly when the last shot hits while out of the field; otherwise the hit enemy becomes its struck state and the others are unchanged, and the shot is removed once per reason (hit, out of the field), a double removal taking its successor; a shot kept is written back moved |
| SpaceEvasionEngine.ProjectilePass | src/com/albertzhang/spaceevasion/LogicEngine.java:246-264 | a completed pass keeps the enemy count and never adds projectiles |
| SpaceEvasionEngine.HitOutOfFieldLastThrows | src/com/albertzhang/spaceevasion/LogicEngine.java:254-263 | at any index, a last shot that hits while out of the field is removed twice, and the pass throws |
| SpaceEvasionEngine.HitOutOfFieldDropsSuccessor | src/com/albertzhang/spaceevasion/LogicEngine.java:254-263 | with a successor, the successor is deleted, and the pass goes on after it without moving or testing it |
| SpaceEvasionEngine.Centred | src/com/albertzhang/spaceevasion/LogicEngine.java:171-173 | the player starts at full health, centred in the field |
| SpaceEvasionEngine.LossCheck | src/com/albertzhang/spaceevasion/LogicEngine.java:191-209 | a living player changes nothing; a dead one ends the game unless replayed, which clears enemies, shots and score, keeps corpses and difficulty and centres the player |
| SpaceEvasionEngine.AfterSpawn | src/com/albertzhang/spaceevasion/LogicEngine.java:214-218 | a spawn appends at most one enemy, only under the chance and the cap, and it is a drawn candidate clear of the player; when every candidate is fresh, the newcomer has full health and the current difficulty |
| SpaceEvasionEngine.Advance | src/com/albertzhang/spaceevasion/LogicEngine.java:211-267 | after the loss check a tick never exits, never moves the player, never adds shots, adds at most one enemy, and grows the difficulty by 0.05% |
| SpaceEvasionEngine.Tick | src/com/albertzhang/spaceevasion/LogicEngine.java:190-268 | a tick ends the process exactly when the player has lost and declines to play again |
| SpaceEvasionEngine.TickInvariants | src/com/albertzhang/spaceevasion/LogicEngine.java:190-268 | a tick exits exactly on a declined loss and otherwise keeps the cap, never adds shots, only appends corpses, keeps the score non-negative, grows the difficulty once and keeps (or re-centres) the player |
| SpaceEvasionEngine.Engine.constructor | src/com/albertzhang/spaceevasion/LogicEngine.java:37-47 | an empty world with a centred player, score 0 and the chosen difficulty; no thread yet |
| SpaceEvasionEngine.Engine.SetScore | src/com/albertzhang/spaceevasion/LogicEngine.java:76-78 | the score becomes `ClampScore` of the value |
| SpaceEvasionEngine.Engine.InitSprites | src/com/albertzhang/spaceevasion/LogicEngine.java:168-188 | enemies, shots and score reset and a fresh centred player; corpses and difficulty kept |
| SpaceEvasionEngine.Engine.SpawnEnemy | src/com/albertzhang/spaceevasion/LogicEngine.java:280-287 | the recursion returns `SpawnPick` |
| SpaceEvasionEngine.Engine.EnemyIteration | src/com/albertzhang/spaceevasion/LogicEngine.java:225-242 | one iteration gives `Visit` |
| SpaceEvasionEngine.Engine.EnemyLoop | src/com/albertzhang/spaceevasion/LogicEngine.java:220-244 | the loop gives `EnemyPass`'s enemies, health, corpses, score and alarm |
| SpaceEvasionEngine.Engine.FindHit | src/com/albertzhang/spaceevasion/LogicEngine.java:251-260 | the inner loop finds `FirstHit` |
| SpaceEvasionEngine.Engine.ProjectileIteration | src/com/albertzhang/spaceevasion/LogicEngine.java:247-263 | one iteration throws or gives `ShotStep` |
| SpaceEvasionEngine.Engine.ProjectileLoop | src/com/albertzhang/spaceevasion/LogicEngine.java:246-264 | the loop throws exactly when `ProjectilePass` does, and otherwise gives its lists |
| SpaceEvasionEngine.Engine.CheckLoss | src/com/albertzhang/spaceevasion/LogicEngine.java:191-209 | the state afterwards is `LossCheck`'s; a dead player's health is clamped to 0 first, and the engine is paused exactly when it exits |
| SpaceEvasionEngine.Engine.SpawnStep | src/com/albertzhang/spaceevasion/LogicEngine.java:214-218 | the list becomes `AfterSpawn` |
| SpaceEvasionEngine.Engine.AdvanceWorld | src/com/albertzhang/spaceevasion/LogicEngine.java:211-267 | spawn, both passes and growth give `Advance`'s world and alarm |
| SpaceEvasionEngine.Engine.DoLogic | src/com/albertzhang/spaceevasion/LogicEngine.java:190-268 | the whole tick matches `Tick`, including exit, crash, alarm and pause |
| TinySound.Audio.constructor | src/kuusisto/tinysound/TinySound.java:48-52 | not initialised, no sounds loaded |
| TinySound.Audio.Init | src/kuusisto/tinysound/TinySound.java:58-96 | a second init changes nothing; a first one succeeds exactly when the line is supported and opens, with volume 1 |
| TinySound.Audio.Shutdown | src/kuusisto/tinysound/TinySound.java:101-114 | afterwards the library is not initialised |
| TinySound.Audio.GlobalVolume | src/kuusisto/tinysound/TinySound.java:130-135 | the volume reads -1.0 when the library is not initialised, and the mixer's volume otherwise |
| TinySound.Audio.SetGlobalVolume | src/kuusisto/tinysound/TinySound.java:130-149 | when initialised the volume reads back as set; otherwise it reads -1 and is unchanged |
| TinySound.Audio.LoadSound | src/kuusisto/tinysound/TinySound.java:199-227 | a sound loads exactly when initialised, decoded and mono or stereo; each load takes the next (wrapping) id; mono shares one buffer, stereo splits the channels |
| TinySound.ByteCast | src/kuusisto/tinysound/TinySound.java:415-416 | `(byte)` keeps the value modulo 256 and is the identity on bytes |
| TinySound.Truncate | src/kuusisto/tinysound/TinySound.java:414 | `(int)` of a double rounds toward zero |
| TinySound.LeftIndex | src/kuusisto/tinysound/TinySound.java:297-303 | the m-th left byte sits in frame m/2 at offset m%2 |
| TinySound.DeinterleaveFrames | src/kuusisto/tinysound/TinySound.java:297-303 | frame k's first two bytes go to the left channel and the last two to the right |
| TinySound.Deinterleave | src/kuusisto/tinysound/TinySound.java:290-303 | each channel gets half the bytes |
| TinySound.Interleave | src/kuusisto/tinysound/TinySound.java:290-303 | interleaving doubles the length into whole frames |
| TinySound.InterleaveDeinterleave | src/kuusisto/tinysound/TinySound.java:290-317 | splitting then re-interleaving gives back the stream |
| TinySound.DeinterleaveInterleave | src/kuusisto/tinysound/TinySound.java:290-317 | interleaving then splitting gives back both channels |
| TinySound.CopyFrame | src/kuusisto/tinysound/TinySound.java:298-302 | one loop step extends the copied prefix of both channels by a frame |
| TinySound.ReadAllBytesTwoChannel | src/kuusisto/tinysound/TinySound.java:290-317 | the two arrays are `Deinterleave` of the input |
| TinySound.ReadAllBytes | src/kuusisto/tinysound/TinySound.java:236-257 | mono returns the buffer twice; stereo splits it; any other channel count fails |
| TinySound.ScaledSampleExact | src/kuusisto/tinysound/TinySound.java:406-412 | the scaled double is s/127 (or s/128 for negatives) times 32767, with the clamp never firing |
| TinySound.ScaledSample | src/kuusisto/tinysound/TinySound.java:406-414 | the scaled value lies within plus or minus 32767 and has the sign, and the zero, of the 8-bit sample |
| TinySound.SampleValue | src/kuusisto/tinysound/TinySound.java:404-414 | the 16-bit value lies within plus or minus 32767 and keeps the sign and zero of the byte |
| TinySound.SampleValueClosedForm | src/kuusisto/tinysound/TinySound.java:404-414 | the truncated value in integer arithmetic; -128 and 127 reach -32767 and 32767 |
| TinySound.DecodeEncode | src/kuusisto/tinysound/TinySound.java:415-416 | little-endian LSB/MSB bytes decode back to any 16-bit value |
| TinySound.Decode16 | src/kuusisto/tinysound/TinySound.java:415-416 | two bytes decode to a 16-bit value whose low byte is the first byte and whose high part is the signed second byte, negative exactly when that byte is |
| TinySound.Widen | src/kuusisto/tinysound/TinySound.java:404-417 | 8-bit samples become twice as many bytes |
| TinySound.WidenDecodes | src/kuusisto/tinysound/TinySound.java:404-417 | each output byte pair decodes to its sample's 16-bit value |
| TinySound.WidenSample | src/kuusisto/tinysound/TinySound.java:413-416 | one loop step writes one sample's two bytes and nothing else |
| TinySound.ConvertMono8Bit | src/kuusisto/tinysound/TinySound.java:391-429 | the result is null exactly when the doubled size overflows; otherwise it is `Widen` of the input |
| TinySound.StereoAsWrittenBytes | src/kuusisto/tinysound/TinySound.java:449-475 | the stereo output as written holds four bytes per input byte |
| TinySound.WidenFrame | src/kuusisto/tinysound/TinySound.java:467-474 | one loop step writes one stereo frame's four bytes and nothing else |
| TinySound.StereoFrameLoop | src/kuusisto/tinysound/TinySound.java:450-475 | the loop throws exactly when the buffer is shorter than 2n; otherwise the first 2n bytes are `Widen` and the rest untouched |
| TinySound.ConvertStereo8BitAsWritten | src/kuusisto/tinysound/TinySound.java:438-487 | null on a negative wrapped size, a throw on a non-negative wrapped size that is too small, otherwise the 4n-byte output |
| TinySound.StereoSize | src/kuusisto/tinysound/TinySound.java:443-449 | the wrapped 4n size is a multiple of 4 and is large enough exactly when it did not wrap |
| TinySound.StereoAsWrittenPadsSilence | src/kuusisto/tinysound/TinySound.java:449-486 | the stream as written declares twice the frames and its second half is silence |
| TinySound.StereoAsWrittenExample | src/kuusisto/tinysound/TinySound.java:449-475 | samples [1, 2] give frame (258, 516) followed by four zero bytes |
| TinySound.StereoOverflowGuardMissed | src/kuusisto/tinysound/TinySound.java:443-448 | 2^30 input bytes wrap to size 0 and 2^30+2 to size 8: non-negative, so the guard lets them through |
| TinySound.ConvertStereo8Bit | src/kuusisto/tinysound/TinySound.java:438-487 | corrected: null exactly when 2n overflows; otherwise exactly `Widen` of the input, 2n bytes |
| TinySound.StereoFrames | src/kuusisto/tinysound/TinySound.java:450-475 | the corrected output has one frame per input pair, and each frame decodes to its pair's left and right values |

## Left out

- Threads, `wait`/`notify` and `Thread.sleep`: `LoopControl` keeps only the flags. `LoopControl.Run` takes what the thread observes in each pass as input: how long the tick took, whether `isPaused` was set after the sleep, and whether `stop()` cleared `isRunning`. Its output is the list of events. Interrupts are not modelled, and a waiting thread is taken to be woken before the next pass.
- Lifecycle.LoopControl.Stop: the process exits, so the state that `run`'s end would leave afterwards is not modelled.
- Rendering, `RenderEngine`, `Launcher` and `Main` are not modelled; images are just width and height.
- `getImage` rotation and hit boxes: every `Enemy.getImage` (all three generations) and javagame's `Projectile.getImage` return the image rotated toward the player or along the flight. `getWidth`, `getHeight`, `getBounds` and `intersects` go through that rotated image, so in the source a turned sprite's hit box is the rotated image's box, up to about 1.41 times wider on a diagonal. The model gives every hit box the unrotated image size. `SpaceEvasionEngine.ShotPrefilterSound` (the 64-unit filter is sound for boxes up to 64x64) and `JavaGameEngine.ShotPrefilterMissesOverlap` hold for unrotated boxes; a 64x64 enemy turned 45 degrees has a box over 64 wide, which the 64-unit filter can miss.
- `AudioEngine` and `MusicEngine` sounds are not modelled. The contact alarm is a returned flag.
- The loss check's volume save/restore is not modelled, and neither is `TinySound.shutdown` before `System.exit`.
- The `JOptionPane` dialogs are parameters: `playAgain` and `quit`.
- `randomColor` is never used and is not modelled.
- `Math.random` becomes parameters: the spawn `draw` and a list of candidate enemies.
- `SpawnAppend` and `SpawnPick` run out of candidates where the source would keep drawing forever. `SpawnPick` then returns none.
- `Projectile`'s trigonometry: the move `(dx, dy)` is a parameter, and the constructor requires it to have length 8.
- `double` values are exact reals, with no rounding: positions, health, difficulty and its growth.
- SpaceEvasionSprites.FadeTimesCountsDown: counts in exact twentieths. The drift of repeated `0.05f` subtraction is not modelled.
- CSGraphicsEntities.Sprite.Move: does not model `int` wrap-around of coordinates. Neither does `CSGraphicsEntities.Player.Move`.
- CSGraphicsEngine.Tick: the projectile hit damage is a parameter `hitDamage`, because CSGraphics `Sprite` has no `onCollideWithEntity`. Its projectile move is a no-op.
- The behaviour of spaceevasion's `Enemy`, `Player` and `Projectile` is the `Rules` parameter of its engine: the enemy move (given the player's position, which the enemy homes on), contact damage, projectile flight and a projectile's hit. Those classes (and the `moveTowardsPlayer`, `getTheta` and `onCollideWithSprite` the engine calls on them) are not part of this model. Each enemy carries the difficulty it was created with (`new Enemy(difficulty, p)`), which the contact-damage rule can read.
- SpaceEvasionKeys.Fired: the projectile's heading is the player's direction counted in quarter turns of pi/4, as CSGraphics `Player.dirToRad` gives it. spaceevasion's own `Player.dirToRad` is not part of this model and is taken to agree.
- `TinySound.ConvertStereo8Bit`: requires an even byte count, i.e. whole 8-bit stereo frames; the source loop throws on an odd count. The same holds for `TinySound.ConvertStereo8BitAsWritten`.
- TinySound.Audio.LoadSound: for stereo it requires whole 16-bit frames (a byte count divisible by 4). The same holds for `TinySound.ReadAllBytes`.
- `loadMusic`, `getBytes`, `getValidAudioStream`, `tryGetLine`, the mixer, `UpdateRunner` and the output line are not modelled. A failed decode or read is the `decoded` parameter.
- `isInitialized` is the `inited` field.
- `KeyHandling`'s run loop is `LoopControl` plus `CheckKeys`. `CheckKeys` returns the command instead of calling the player's move.

## Findings

| source | as written | input that shows it | evidently intended | confidence | as-written member | corrected member |
|---|---|---|---|---|---|---|
| src/kuusisto/tinysound/TinySound.java:443 | allocates `data.length * 2 * 2` bytes and declares `newData.length / 4` frames, but the loop fills only the first `2 * data.length` bytes | samples [1, 2] give 8 bytes: one real frame, then 4 zero bytes played as a second, silent frame | `data.length * 2` bytes: one 16-bit stereo frame per 8-bit stereo frame | not executed | TinySound.StereoAsWrittenPadsSilence | TinySound.ConvertStereo8Bit |
| src/kuusisto/tinysound/TinySound.java:443-448 | the overflow guard only catches a product that wraps negative | `data.length == 2^30` makes the size wrap to 0, which passes the guard; the first write then throws `ArrayIndexOutOfBoundsException` | return null whenever the true size does not fit in an `int` | not executed | TinySound.StereoOverflowGuardMissed | TinySound.ConvertStereo8Bit |
