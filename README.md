# eonwisp — a verified model of the game's core

eonwisp is a browser arcade game: a glowing core sits at the centre of the
screen, the player swings a wisp on a rope around it, and waves of enemies
(the Crimson Swarm, Amber Giants, Pink Orbiters, Green Dashers and the
behaviour-driven Amber Titan, Emerald Bow and Astral Orbiter) close in.
This project models the game's core logic in Dafny and proves what that
logic promises:

- **Game configuration and game state** (`GameConfig.dfy`, `GameState.dfy`).
  The default configuration's values, `reset`, the score, combo, core-radius,
  danger-state and power-up bookkeeping, and the event emitter's
  listener lists. Also config updates along a dotted path, and the snapshot
  `serialize`/`deserialize` round trip.
- **Enemy rules** (`EnemyTypes.dfy`, `EnemyBehaviors.dfy`). Spawn
  attributes, health and damage formulas, weighted random kind selection,
  danger-wave pattern choice, the per-frame movement rules, the titan's
  shield, the bow's quiver, and the projectile purge when an orbiter dies.
- **Object pooling** (`ObjectPool.dfy`). The generic pool with its free and
  active lists and `maxSize`, the manager of named pools with batch
  acquire/release, statistics and cleanup, and the pooled particle system.
- **Adaptive performance** (`PerformanceManager.dfy`,
  `PerformanceOptimizer.dfy`). FPS history, the averaged frame rate and its
  grade, the hysteresis that degrades and restores quality, frame skipping,
  render-distance culling and pool resizing.
- **Batched rendering** (`BatchRenderer.dfy`). Viewport culling bounds, and
  grouping the render queue by key into a `Map` in first-appearance order.
- **Enemy editor and visualizer helpers** (`EnemyEditor.dfy`,
  `EnemyVisualizer.dfy`). Hex colour parsing and formatting and their round
  trips, colour validation, property-path assignment, live preview rules,
  randomise and reset.
- **Music transport** (`SoundEngine.dfy`). Bar timing and the next-bar
  grid, volume and gain clamping, ramp floors, layer and sample
  bookkeeping, and the one-shot envelope plan.
- **Sensor bridge server** (`SensorServer.dfy`). Static-file content
  types, the request path, the WebSocket `role` query parameter, the mobile
  and desktop client sets, `adb devices` output parsing with the real-device
  preference, and the status the polling loop broadcasts.

Shared helpers live in `Wrappers.dfy` (`Option`/`Result`), `JsValues.dfy`
and `MathUtils.dfy`. `JsValues.dfy` holds a JavaScript value datatype,
property reads along a path, `split`/`join`, `indexOf`, and `parseInt`,
`parseFloat` and `toString(16)` on digit strings. `MathUtils.dfy` holds the
maths utilities.

Two kinds of code are modelled differently:

- **Objects updated in place** are classes with `modifies` frames. These are
  the pools, the game state, the performance manager and optimizer, the
  renderer, the sound module, the visualizer, the editor, the sensor hub and
  the enemy sprites.
- **Pure computations** are functions, each with lemmas about it.

Clocks, `Math.random`, trigonometry and `Math.hypot` are parameters.

## Model

| member | source | states |
|---|---|---|
| MathUtilities.MaxOrNaN | js/utils/MathUtils.js:31-33 | `Math.max(lower, x)` is a number exactly when `x` is; it is at least both arguments and equal to one of them |
| MathUtilities.Clamp | js/utils/MathUtils.js:31-33 | `clamp` lands in [min, max] when min ≤ max, is the identity inside the range, and always returns the value, `min` or `max` |
| MathUtilities.Lerp | js/utils/MathUtils.js:36-38 | `lerp(a, b, 0) = a` and `lerp(a, b, 1) = b` |
| MathUtilities.LerpBetween | js/utils/MathUtils.js:36-38 | for t in [0, 1] the interpolation lies between `a` and `b` |
| MathUtilities.MapRange | js/utils/MathUtils.js:110-112 | `mapRange` is a number exactly when `inMin ≠ inMax` (otherwise a division by zero) |
| MathUtilities.MapRangeIsLerp | js/utils/MathUtils.js:110-112 | `mapRange` is `lerp(outMin, outMax, (value − inMin)/(inMax − inMin))` |
| MathUtilities.MapRangeEnds | js/utils/MathUtils.js:110-112 | `inMin` maps to `outMin` and `inMax` to `outMax` |
| MathUtilities.SmoothWithin | js/utils/MathUtils.js:117 | the cubic `t²(3 − 2t)` stays in [0, 1] for t in [0, 1] |
| MathUtilities.SmoothStep | js/utils/MathUtils.js:115-118 | `smoothStep` is NaN exactly for equal edges with x on the edge, and otherwise in [0, 1] |
| MathUtilities.SmoothStepEdges | js/utils/MathUtils.js:115-118 | 0 at or below the lower edge, 1 at or beyond the upper edge |
| MathUtilities.Wrap | js/utils/MathUtils.js:126-134 | `wrap` returns `min` for an empty or reversed range, otherwise a value in [min, max) that differs from the input by a whole number of ranges |
| MathUtilities.AddRanges | js/utils/MathUtils.js:131 | the first loop ends at or above `min`, having added a whole number of ranges |
| MathUtilities.SubtractRanges | js/utils/MathUtils.js:132 | the second loop ends in [min, max), having taken off a whole number of ranges |
| MathUtilities.NormalizeAngle | js/utils/MathUtils.js:51-55 | `normalizeAngle` returns a value in [0, 2π) that differs from the input by a whole number of turns |
| MathUtilities.DotSymmetric | js/utils/MathUtils.js:90-92 | `dot` is symmetric and a vector's dot with itself is never negative |
| MathUtilities.CrossAntisymmetric | js/utils/MathUtils.js:95-97 | `cross` changes sign when its arguments swap and is 0 for a vector with itself |
| MathUtilities.Normalize | js/utils/MathUtils.js:78-82 | a zero length gives (0, 0); otherwise the result times the length is the input vector |
| MathUtilities.NormalizeZero | js/utils/MathUtils.js:78-82 | `normalize(0, 0)` is (0, 0) |
| MathUtilities.ElasticCollision | js/utils/MathUtils.js:153-157 | the velocities are numbers exactly when `m1 + m2 ≠ 0` |
| MathUtilities.MomentumConserved | js/utils/MathUtils.js:153-157 | the collision conserves momentum `m1·v1 + m2·v2` |
| MathUtilities.EqualMassesSwap | js/utils/MathUtils.js:153-157 | equal masses exchange their velocities |
| MathUtilities.Signed32 | js/utils/MathUtils.js:14 | the 32-bit signed reading that bit operators return lies in [−2³¹, 2³¹) and is the identity below 2³¹ |
| MathUtilities.Red | js/utils/MathUtils.js:5 | `(c >> 16) & 0xff` is in 0..255 |
| MathUtilities.Green | js/utils/MathUtils.js:6 | `(c >> 8) & 0xff` is in 0..255 |
| MathUtilities.Blue | js/utils/MathUtils.js:7 | `c & 0xff` is in 0..255 |
| MathUtilities.Repack | js/utils/MathUtils.js:5-10 | a 24-bit colour is its three unpacked channels put back together |
| MathUtilities.RgbChannels | js/utils/MathUtils.js:5-14 | channels in 0..255 make a 24-bit colour whose channels read back |
| MathUtilities.PackExact | js/utils/MathUtils.js:14 | for channels in 0..255, `(r << 16) \| (g << 8) \| b` is `r·65536 + g·256 + b` |
| MathUtilities.LerpChannelWithin | js/utils/MathUtils.js:11-13 | a rounded interpolated channel stays in 0..255 for t in [0, 1] |
| MathUtilities.LerpColorChannels | js/utils/MathUtils.js:4-15 | for t in [0, 1], `lerpColor` is the 24-bit colour of the three interpolated channels |
| MathUtilities.LerpColorEnds | js/utils/MathUtils.js:4-15 | on 24-bit colours, `lerpColor` gives the start at t = 0 and the end at t = 1 |
| GameConfiguration.DefaultEntries | js/config/GameConfig.js:11-129 | the default configuration reads `core.baseRadius` = 30, `physics.maxLength` = 190, spawn intensity and speed multiplier 1, and the drawn danger-wave cooldown |
| GameConfiguration.DefaultCore | js/config/GameConfig.js:54-58 | `core.baseRadius` reads 30 |
| GameConfiguration.DefaultPhysics | js/config/GameConfig.js:4-15 | `physics.maxLength` reads 190 |
| GameConfiguration.DefaultSpawning | js/config/GameConfig.js:127-129 | both spawning multipliers read 1 |
| GameConfiguration.DefaultTimers | js/config/GameConfig.js:79 | `timers.dangerWaveCooldown` reads `900 + roll·600` |
| GameConfiguration.BaseRadiusBelowMaxLength | js/config/GameConfig.js:11-55 | the base radius (30) is below the rope's maximum length (190) |
| GameConfiguration.ScaleRises | js/config/GameConfig.js:69-73 | the scale has 22 strictly rising entries from 110 to 880 |
| GameConfiguration.SpawnIntervalWithin | js/config/GameConfig.js:140-142 | for a roll in [0, 1) the interval lies in [60·min, 60·max] |
| GameConfiguration.DynamicValue | js/config/GameConfig.js:145-147 | a missing multiplier counts as 1 and a missing additive as 0: with neither the base comes back, with one the base is only scaled or only shifted |
| GameConfiguration.DynamicValueMonotone | js/config/GameConfig.js:145-147 | with a non-negative multiplier a larger base never gives a smaller value, and with a positive one it gives a strictly larger value |
| GameConfiguration.DynamicValueCompose | js/config/GameConfig.js:145-147 | applying two scalings one after the other is one scaling by the product of the multipliers, with the first additive scaled by the second multiplier |
| GameConfiguration.DynamicValueInverse | js/config/GameConfig.js:145-147 | with a non-zero multiplier the base is recovered from the value by subtracting the additive and dividing |
| GameConfiguration.ClampValue | js/config/GameConfig.js:150-152 | the result lies in [min, max] when min ≤ max, the value is kept when in range, below-range gives `min`, above-range gives `max`, and reversed bounds give `min` |
| GameConfiguration.ClampIdempotent | js/config/GameConfig.js:150-152 | clamping a clamped value changes nothing |
| GameStates.FirstIndex | js/core/GameState.js:104 | `indexOf` of a registered callback: an index in range holding the callback, with no earlier occurrence |
| GameStates.RemoveFirst | js/core/GameState.js:104-107 | an absent callback leaves the list unchanged; a present one makes it one shorter |
| GameStates.RemoveFirstSplice | js/core/GameState.js:104-106 | removal is `splice(indexOf(cb), 1)`: only the first occurrence goes, and the entries before and after it keep their order |
| GameStates.SetPath | js/core/GameState.js:230-243 | the walk fails (TypeError) on a primitive and succeeds through a function, which it leaves as it is; on success an object gains the first key and keeps every other top-level entry |
| GameStates.SetPathIntoFunction | js/core/GameState.js:235-243 | a write below a function-valued entry, such as `spawnInterval`, succeeds and changes no entry |
| GameStates.SetPathReadBack | js/core/GameState.js:230-243 | after a successful update whose walk meets no function, reading the dotted path gives the new value |
| GameStates.SetPathOthers | js/core/GameState.js:230-243 | every path that leaves the updated one before its leaf reads as before |
| GameStates.Dedup | js/core/GameState.js:277-286 | `new Set(xs)` read back with `Array.from` has the same members and no duplicates |
| GameStates.DedupUnique | js/core/GameState.js:277-286 | a list without duplicates survives the round trip through a `Set` unchanged |
| GameStates.SumIncreaseSnoc | js/core/GameState.js:209-211 | adding a power-up adds exactly its own size increase to the sum |
| GameStates.SumIncreaseNonneg | js/core/GameState.js:207-211 | power-ups that only grow keep the multiplier at least `1 + sizeBonus` |
| GameStates.EntryIsRead | js/core/GameState.js:31-80 | `config.<section>.<key>` succeeds exactly when the section can be read through, and then finds the entry |
| GameStates.ResettableReads | js/core/GameState.js:31-80 | `reset` can run over a configuration exactly when each of its four reads succeeds and the base radius is a number |
| GameStates.ConstructorFirstRead | js/core/GameState.js:6-31 | as written, `reset()` runs before `this.config` is assigned, so its first read, `this.config.core`, throws |
| GameStates.DefaultResettable | js/core/GameState.js:7-80 | the default configuration can be reset over, giving base radius 30 and the drawn danger-wave cooldown |
| GameStates.GameState.CallsFor | js/core/GameState.js:111-113 | an event nobody registered for calls no callbacks |
| GameStates.GameState.constructor | js/core/GameState.js:5-9 | with the configuration assigned first: no callbacks, nothing emitted, statistics and flags at their start values, and the core read from the configuration |
| GameStates.GameState.Reset | js/core/GameState.js:11-91 | statistics, flags and player back to the start; core radius, spawning values and danger-wave timer read from the configuration; effects and upgrades cleared; callbacks and the event trace untouched |
| GameStates.GameState.ResetProgress | js/core/GameState.js:13-43 | statistics and game-flow flags at their start values; the core, configuration, callbacks and trace unchanged |
| GameStates.GameState.ResetStats | js/core/GameState.js:13-43 | score, kills, combos, backshots, critical hits and core runs are 0 |
| GameStates.GameState.ResetFlow | js/core/GameState.js:21-28 | not paused, not over, not mobile, not started, player `at_core` and not returning |
| GameStates.GameState.ResetCore | js/core/GameState.js:31-80 | the core status is the one `StartCore` derives from the configuration; callbacks and trace unchanged |
| GameStates.GameState.ResetDanger | js/core/GameState.js:31-80 | radius = `config.core.baseRadius`, not in danger, `nextHitKills` false, wave `cooldown` with the configured timer |
| GameStates.GameState.ResetGrowth | js/core/GameState.js:48-76 | spawning values from the configuration, no double size, multiplier 1, no power-ups, no permanent effects, empty upgrade history |
| GameStates.GameState.On | js/core/GameState.js:94-99 | the callback is appended after those already registered for the event |
| GameStates.GameState.Off | js/core/GameState.js:101-108 | unknown events and callbacks change nothing; otherwise only the first registration of the callback is removed |
| GameStates.GameState.Emit | js/core/GameState.js:110-120 | one emission is recorded, calling the event's callbacks in registration order |
| GameStates.GameState.AddScore | js/core/GameState.js:123-127 | the score grows by `points`, and `scoreChanged` carries the new and the old score |
| GameStates.GameState.AddKill | js/core/GameState.js:129-132 | kills grow by one, and `killAdded` carries the new count |
| GameStates.GameState.UpdateCombo | js/core/GameState.js:134-139 | `currentCombo` is the new combo; the maximum never decreases, is at least the current combo and is the old maximum or the new combo |
| GameStates.GameState.DangerEvents | js/core/GameState.js:150-155 | at most one danger event, and one exactly when the danger state flips |
| GameStates.GameState.UpdateCoreRadius | js/core/GameState.js:142-158 | a missing `core` section throws before anything changes; otherwise the radius is the larger of the coerced base radius and the new one; a missing `physics` section then throws after that write; otherwise in danger exactly when the radius exceeds `maxLength` under JavaScript's `>` coercion, `nextHitKills` is set only on entering danger, and the danger event comes before `coreRadiusChanged` |
| GameStates.GameState.SetPlayerState | js/core/GameState.js:161-167 | the state becomes `newState`; an event only when it differs |
| GameStates.GameState.StartGame | js/core/GameState.js:170-176 | mobile as detected, started, not paused, not over, and `gameStarted` emitted |
| GameStates.GameState.PauseGame | js/core/GameState.js:178-183 | nothing changes when paused or over; otherwise paused and `gamePaused` emitted |
| GameStates.GameState.ResumeGame | js/core/GameState.js:185-190 | never paused afterwards; an event only when it was paused |
| GameStates.GameState.EndGame | js/core/GameState.js:192-204 | always over afterwards; the first call pauses and emits the summary, later calls change nothing |
| GameStates.GameState.RefreshSizeMultiplier | js/core/GameState.js:207-213 | multiplier = 1 + `sizeBonus` + the sum of the active power-ups' increases |
| GameStates.GameState.AddScalePowerup | js/core/GameState.js:215-227 | the power-up is appended as built, the multiplier becomes the old sum plus its increase, and listeners hear `sizeMultiplierChanged` with the new multiplier, then `scalePowerupAdded` with the power-up |
| GameStates.GameState.UpdateConfig | js/core/GameState.js:230-246 | the configuration becomes the `SetPath` update of the split path; where the walk meets no function the path then reads the value; listeners hear `configChanged` with the path, the value and the leaf's old value; a walk that throws changes nothing and emits nothing |
| GameStates.GameState.IsWarningState | js/core/GameState.js:249-259 | throws exactly when there is no `physics` section; otherwise warning exactly when `maxLength` coerces to a number and the radius is beyond 90% of it (`null` counts as 0, a numeric string as its number, anything else never warns) |
| GameStates.GameState.DangerImpliesWarning | js/core/GameState.js:148 | a core in danger (beyond a `maxLength` that coerces to a non-negative number) is in the warning state |
| JsValues.ToNumber | js/core/GameState.js:148 | the number `>` compares with: `null` and `false` are 0, `true` is 1, a string is its trimmed decimal numeral (empty is 0), and objects, `undefined` and malformed strings are NaN |
| JsValues.ExceedsCoerces | js/core/GameState.js:148 | a radius exceeds `null` exactly when it is positive, and exceeds the string `"190"` exactly when it exceeds 190 |
| JsValues.ExceedsNaN | js/core/GameState.js:148 | no radius exceeds `undefined` or a numeral followed by a unit such as `"190px"` |
| GameStates.GameState.Deserialize | js/core/GameState.js:282-295 | restoring a snapshot makes `serialize()` return it, with the upgrade history passed through a `Set` |
| GameStates.SnapshotRoundTrip | js/core/GameState.js:266-295 | a snapshot without duplicate upgrades comes back unchanged from restore-then-serialize |
| EnemyKinds.KindName | js/config/EnemyTypes.js:2-108 | each kind has its key name in `EnemyTypes` (`red`, `orange`, `pink`, `green`) |
| EnemyKinds.Weights | js/config/EnemyTypes.js:248-254 | the weight table lists red, orange, pink and green, in that order |
| EnemyKinds.WeightBounds | js/config/EnemyTypes.js:249-254 | for non-negative progress red weighs 6 and the others stay between their base and base-plus-cap |
| EnemyKinds.FirstReachFrom | js/config/EnemyTypes.js:259-264 | the entry the subtraction loop stops at is the first whose running total reaches the roll; none when no running total reaches it |
| EnemyKinds.Land | js/config/EnemyTypes.js:256-266 | the loop returns the kind of the first entry whose running total reaches the roll, and red past the end |
| EnemyKinds.ChooseEnemyType | js/config/EnemyTypes.js:248-267 | the chosen kind is where `random * total` lands in the weight table |
| EnemyKinds.LandsBelowTotal | js/config/EnemyTypes.js:256-264 | a roll below the total always lands on some entry |
| EnemyKinds.ChoiceAlwaysLands | js/config/EnemyTypes.js:248-266 | for a roll in [0, 1) and non-negative progress the `'red'` fallback is never reached |
| EnemyKinds.ZeroRollIsRed | js/config/EnemyTypes.js:250-262 | a roll of 0 chooses red, the first entry |
| EnemyKinds.AllowedOf | js/config/EnemyTypes.js:270-278 | the filtered list holds exactly the patterns allowed by the kill and score thresholds |
| EnemyKinds.ChooseDangerWavePattern | js/config/EnemyTypes.js:269-282 | the chosen pattern is one of `DangerWavePatterns` |
| EnemyKinds.CrimsonAlwaysAvailable | js/config/EnemyTypes.js:218-224 | the red swarm always passes the filter, so the fall back to the full list never happens |
| EnemyKinds.ChosenWaveAllowed | js/config/EnemyTypes.js:269-282 | the chosen wave has no green before 8 kills and no pink below a score of 150 |
| EnemyKinds.EarlyWaves | js/config/EnemyTypes.js:218-278 | below 8 kills and a score of 150 only the Crimson Swarm and Amber Giants remain |
| EnemyKinds.HealthFloor | js/config/EnemyTypes.js:7-111 | health is at least 1 for red and 2 for the others, and a numeric or missing entry always gives a number |
| EnemyKinds.DefaultHealth | js/config/EnemyTypes.js:7-111 | with no `enemyHealth` entry: red 1, orange 3, pink 2, green 2.2 |
| EnemyKinds.DashHitsHardest | js/config/EnemyTypes.js:8-115 | a dashing green deals 22% of the rope length, approaching 16%, and nothing deals more than a dash |
| EnemyKinds.Sprite.StepToward | js/config/EnemyTypes.js:19-49 | the sprite moves `speed * delta` along the unit direction to the target, with a zero distance read as 1 |
| EnemyKinds.SeekerSpeed | js/config/EnemyTypes.js:15-42 | red and orange spawn with a positive speed |
| EnemyKinds.SeekerUpdate | js/config/EnemyTypes.js:18-50 | red and orange step `speed * delta` along the direction to the core, a zero distance counting as 1 |
| EnemyKinds.OrbitState.PinkSpawn | js/config/EnemyTypes.js:66-75 | a pink orbit starts at the spawn angle and radius with inward speed 0.8, angular speed 0.045, shot timer 90 and cooldown 120 |
| EnemyKinds.OrbitState.Advance | js/config/EnemyTypes.js:83-96 | the radius shrinks but never below `coreRadius + 40`, the angle turns, the sprite sits on the circle, and the timer fires exactly when it runs out and is then rearmed |
| EnemyKinds.PinkUpdate | js/config/EnemyTypes.js:76-97 | an enemy without `data` is left alone; otherwise, with the core radius defaulting to 30 and the core to the origin, the orbit stays outside `coreRadius + 40`, turns by `angularSpeed * delta`, the sprite sits on that circle facing along the angle, the timer counts down and rearms on firing, and projectiles are made exactly when it fires and the enemy system offers them |
| EnemyKinds.GreenDasher.Spawn | js/config/EnemyTypes.js:124-137 | approach at speed 4.2, charge timer 120, dash speed 13, and stop at the larger of `coreRadius + 80` and 45% of the rope length |
| EnemyKinds.GreenDasher.Update | js/config/EnemyTypes.js:139-214 | phases only move forward, one step a frame; approaching moves at the enemy's speed with the timers untouched, or enters the charge with the charge timer at 120 and the pulse, blink and squash timers at 0; charging counts down, advances the blink and squash timers by the frame and dashes when the timer runs out; dash keeps dashing at the dash speed; the sprite faces the core |
| EnemyKinds.OrbitState.constructor | js/systems/EnemyBehaviors.js:126-135 | an astral orbiter's orbit starts at the spawn angle and radius with the configured speeds, timer and cooldown |
| EnemyBehavior.UpdateCrimsonSeeker | js/systems/EnemyBehaviors.js:182-188 | one straight step of `speed * delta` toward the core, with a zero distance read as 1 |
| EnemyBehavior.FoldAngle | js/systems/EnemyBehaviors.js:305-306 | the folded difference is at most π, is the plain difference when that is at most π, and otherwise its complement to a full turn |
| EnemyBehavior.FoldSymmetric | js/systems/EnemyBehaviors.js:305-306 | the folded difference does not depend on the order of the two angles |
| EnemyBehavior.AmberTitan.Init | js/systems/EnemyBehaviors.js:116-124 | speed and original speed from the configuration, a full three-point shield, not stunned, and the titan's invariant holds |
| EnemyBehavior.AmberTitan.Update | js/systems/EnemyBehaviors.js:190-217 | a running stun counts down and releases the titan at its original speed when used up; a stunned titan stays put; one that is not stunned steps toward the core; the invariant is kept |
| EnemyBehavior.AmberTitan.OnHit | js/systems/EnemyBehaviors.js:294-360 | a frontal hit on an intact shield cracks it (breaking it on the last point, health 1, gold splash) and blocks damage while it holds; a frontal hit on a broken shield changes nothing; a frontal hit never touches the stun, its timer or the speed; a side hit stuns a free titan for 90 frames and kills a stunned one at unchanged speed, and never touches the shield; the invariant is kept |
| EnemyBehavior.UpdateAstralOrbiter | js/systems/EnemyBehaviors.js:219-234 | an enemy without `data` is left alone; otherwise the orbit never comes inside `coreRadius + 40`, turns by `angularSpeed * delta`, the sprite sits on that circle around the core facing along the angle, and it fires exactly when the timer runs out, rearming it |
| EnemyBehavior.TargetDistance | js/systems/EnemyBehaviors.js:137-151 | in danger the firing distance is the larger of `coreRadius + 60` and 70% of the rope; otherwise at most 85% of the rope, and at least `coreRadius + 50` when that fits |
| EnemyBehavior.CalmDistanceWithinRope | js/systems/EnemyBehaviors.js:146-150 | for a non-negative rope the calm firing distance lies between 60% and 85% of it |
| EnemyBehavior.BowAlpha | js/systems/EnemyBehaviors.js:365-366 | the bow's opacity starts at 1, never drops below 0.4, and reaches 0.4 by the fourth broken part |
| EnemyBehavior.BowFades | js/systems/EnemyBehaviors.js:363-366 | more broken parts never make the bow more opaque |
| EnemyBehavior.EmeraldBow.Init | js/systems/EnemyBehaviors.js:137-168 | the bow approaches at 2.8 toward a point on the spawn ray at `TargetDistance`, will face the core once there, and starts with a full quiver and the configured timer |
| EnemyBehavior.EmeraldBow.Update | js/systems/EnemyBehaviors.js:236-281 | farther than 5 it steps toward its position, still approaching with its timer and lock untouched; within 5 it snaps there and locks; a locked bow stays put and, while it has arrows, counts its timer down by `delta`, shooting at the core exactly when the timer runs out, using one arrow and rearming; a bow flagged unlocked does nothing |
| EnemyBehavior.EmeraldBow.OnHit | js/systems/EnemyBehaviors.js:362-378 | one more broken part, the opacity is `BowAlpha` of it, and an arrow is deflected exactly when there is hit information and a previous shot |
| EnemyBehavior.Purge | js/systems/EnemyBehaviors.js:384-397 | the purge never lengthens the projectile list |
| EnemyBehavior.PurgeMembers | js/systems/EnemyBehaviors.js:384-397 | a projectile survives exactly when it was there and is not a pink projectile within 140 of the dying orbiter |
| EnemyBehavior.PurgeNothingNear | js/systems/EnemyBehaviors.js:384-397 | with nothing near, the list is left as it is |
| EnemyBehavior.PurgeIdempotent | js/systems/EnemyBehaviors.js:384-397 | purging twice removes nothing more than purging once |
| EnemyBehavior.ProjectileList.OnEnemyDeath | js/systems/EnemyBehaviors.js:381-398 | the backward splicing walk leaves exactly `Purge` of the list for an astral orbiter, and the list untouched for any other death |
| ObjectPooling.Without | js/systems/ObjectPool.js:38 | deleting from the active set never lengthens it and leaves it unchanged when the object is absent |
| ObjectPooling.WithoutMembers | js/systems/ObjectPool.js:38 | after `active.delete(x)` exactly the other members remain |
| ObjectPooling.WithoutDistinct | js/systems/ObjectPool.js:38 | deleting keeps the set duplicate-free and removes exactly one entry for a member |
| ObjectPooling.Room | js/systems/ObjectPool.js:44-56 | of `n` released objects, the free list takes as many as fit below `maxSize`, and stops only when it is full |
| ObjectPooling.Available | js/systems/ObjectPool.js:19-25 | the successive acquisitions that succeed cover every pooled object and creations up to `maxSize` active |
| ObjectPooling.ReleaseKeepsInvariant | js/systems/ObjectPool.js:32-47 | a release keeps no object listed twice or both free and active, removes the object from the active set, and never pushes the free list past `maxSize` |
| ObjectPooling.ReleasedAllKeepsInvariant | js/systems/ObjectPool.js:32-47 | a run of releases keeps the pool well formed and the free list within `maxSize` |
| ObjectPooling.ReleasedAllNeverReactivates | js/systems/ObjectPool.js:32-47 | releasing never puts an object back into the active set |
| ObjectPooling.ReleasedAllConcat | js/systems/ObjectPool.js:266-272 | releasing `a + b` is releasing `a` and then `b` |
| ObjectPooling.ReleasedAllSnoc | js/systems/ObjectPool.js:266-272 | releasing one more object after a run is one more `release` |
| ObjectPooling.ReleaseAllIsReleases | js/systems/ObjectPool.js:50-60 | `releaseAll` leaves the same pool as releasing each active object in turn |
| ObjectPooling.PushWhileRoom | js/systems/ObjectPool.js:51-56 | the free list gains the released objects in order while it has room, never passing `maxSize` and stopping only at it |
| ObjectPooling.ManagedCount | js/systems/ObjectPool.js:70-72 | in a well-formed pool the free and active counts add up to the number of distinct objects managed |
| ObjectPooling.ObjectPool.constructor | js/systems/ObjectPool.js:3-14 | `initialSize` fresh objects on the free list, nothing active, and the pool well formed |
| ObjectPooling.ObjectPool.Acquire | js/systems/ObjectPool.js:16-30 | pops the last free object, else creates one while fewer than `maxSize` are active, else returns null and changes nothing; the object joins the active set |
| ObjectPooling.ObjectPool.Release | js/systems/ObjectPool.js:32-47 | true exactly when the object was active; the new pool state is `Released` of the old one |
| ObjectPooling.ObjectPool.ReleaseAll | js/systems/ObjectPool.js:50-60 | the active set is empty, the free list gains the active objects while it has room, and it stays within `maxSize` when it started so |
| ObjectPooling.ObjectPool.ShrinkToHalf | js/systems/ObjectPool.js:306-309 | the free list is cut to its first `maxSize / 2` objects and the active set is untouched |
| ObjectPooling.ObjectPool.TotalSize | js/systems/ObjectPool.js:62-72 | the total is the active count plus the free count, which is the number of distinct objects managed |
| ObjectPooling.GameObjectPoolManager.constructor | js/systems/ObjectPool.js:77-84 | the manager holds exactly the six game pools, none with active objects |
| ObjectPooling.GameObjectPoolManager.InitializePools | js/systems/ObjectPool.js:86-227 | the six named pools are registered, each fresh and with nothing active |
| ObjectPooling.GameObjectPoolManager.CreatePool | js/systems/ObjectPool.js:229-233 | a fresh pool with `initialSize` free objects is registered under the name, replacing any earlier one |
| ObjectPooling.GameObjectPoolManager.AcquireFromPool | js/systems/ObjectPool.js:239-242 | null for an unknown pool, otherwise that pool's `acquire`: the last free object is popped from the free list, an empty free list stays empty, the maximum is kept, and a null result leaves the pool's state as it was |
| ObjectPooling.GameObjectPoolManager.ReleaseToPool | js/systems/ObjectPool.js:244-247 | false for an unknown pool; otherwise true exactly when the object was active there, with that pool's `release` applied |
| ObjectPooling.GameObjectPoolManager.AcquireBatch | js/systems/ObjectPool.js:250-264 | `[]` for an unknown pool; at most `count` objects, stopping at the first null, each now active in that pool |
| ObjectPooling.GameObjectPoolManager.ReleaseBatch | js/systems/ObjectPool.js:266-272 | false for an unknown pool; otherwise the objects are released in order |
| ObjectPooling.GameObjectPoolManager.ReleaseOne | js/systems/ObjectPool.js:286-288 | one pool's `releaseAll`, with every other pool unchanged |
| ObjectPooling.GameObjectPoolManager.ShrinkOne | js/systems/ObjectPool.js:305-310 | one pool's trim to half its `maxSize`, with every other pool unchanged |
| ObjectPooling.GameObjectPoolManager.ReleaseAllPools | js/systems/ObjectPool.js:286-288 | every pool's active set is emptied by its own `releaseAll` |
| ObjectPooling.GameObjectPoolManager.Stats | js/systems/ObjectPool.js:291-302 | one entry per pool with its active, pooled and total counts |
| ObjectPooling.GameObjectPoolManager.Cleanup | js/systems/ObjectPool.js:304-311 | every free list is cut to at most half its `maxSize` by dropping its most recent objects; active sets are untouched |
| ObjectPooling.Survivors | js/systems/ObjectPool.js:370-390 | the kept particles are no more than before, and all active with lifetime left |
| ObjectPooling.SweepPartition | js/systems/ObjectPool.js:370-390 | the sweep accounts for every particle once: kept, released, or dropped as already inactive |
| ObjectPooling.Capped | js/systems/ObjectPool.js:393-400 | the oldest particles are dropped until at most `maxParticles` remain, keeping the newest in order |
| ObjectPooling.ParticleSystem.constructor | js/systems/ObjectPool.js:316-322 | takes the manager's `particles` pool and starts with no particles |
| ObjectPooling.ParticleSystem.CreateParticle | js/systems/ObjectPool.js:324-347 | null exactly when it is skipped at low quality (the roll exceeds the quality) or the pool is exhausted, and then nothing changes; otherwise the last free object is popped from the free list and the particle is appended with scaled velocity, lifetime and size |
| ObjectPooling.ParticleSystem.Update | js/systems/ObjectPool.js:367-401 | afterwards every particle is active with lifetime left, there are at most `maxParticles`, and the list is the capped survivors |
| ObjectPooling.ParticleSystem.Sweep | js/systems/ObjectPool.js:370-390 | the backward loop leaves the survivors in order and releases the expired particles, last first |
| ObjectPooling.ParticleSystem.DropOldest | js/systems/ObjectPool.js:393-400 | the oldest particles beyond `maxParticles` are shifted off and released in order |
| ObjectPooling.ParticleSystem.Clear | js/systems/ObjectPool.js:430-435 | every particle is released in list order and the list is emptied |
| Performance.GradeName | js/systems/PerformanceManager.js:121-124 | each grade is the single letter `getPerformanceGrade` returns |
| Performance.Trimmed | js/systems/PerformanceManager.js:55-60 | after a push the history keeps its newest `min(length, 60)` samples, in order |
| Performance.Recent | js/systems/PerformanceManager.js:111-113 | `slice(-min(samples, length))` keeps the newest `samples` entries, and all of them for `samples` 0 |
| Performance.AverageFPS | js/systems/PerformanceManager.js:111-114 | the average is NaN exactly when the history is empty |
| Performance.SumBounds | js/systems/PerformanceManager.js:113 | a sum of samples between `lo` and `hi` lies between `n * lo` and `n * hi` |
| Performance.AverageWithin | js/systems/PerformanceManager.js:111-114 | the average of a non-empty history lies between its smallest and largest possible sample |
| Performance.GradeOf | js/systems/PerformanceManager.js:116-124 | A from 90% of the target up, B from 70%, C from 50%, and D below 50% or for a NaN average |
| Performance.GradeMonotone | js/systems/PerformanceManager.js:116-124 | a higher average never earns a worse grade |
| Performance.Degraded | js/systems/PerformanceManager.js:85-89 | particle quality ×0.7, effects quality ×0.8, and the particle and trail limits shrink toward 0 without going negative |
| Performance.Restored | js/systems/PerformanceManager.js:93-95 | both qualities grow but are capped at 1.0, and the limits are not restored |
| Performance.Adapted | js/systems/PerformanceManager.js:76-100 | before the check interval only the timer moves; at it the timer resets, the quality degrades exactly when not already low and the average is below 80% of the target, is restored exactly when low and the average is above 95%, and otherwise nothing else changes |
| Performance.HysteresisBand | js/systems/PerformanceManager.js:83-96 | an average between 80% and 95% of the target changes neither the mode nor the settings |
| Performance.DegradeThenRestore | js/systems/PerformanceManager.js:85-95 | a degrade followed by a restore leaves both qualities at most 1.0 and at least 84% of where they were |
| Performance.Clamp01 | js/systems/PerformanceManager.js:144 | the level is clamped into [0, 1] and kept when already there |
| Performance.AtQualityLevel | js/systems/PerformanceManager.js:142-151 | both qualities become the clamped level, particles between 50 and 250 and trail points between 30 and 130 |
| Performance.QualityLevelMonotone | js/systems/PerformanceManager.js:142-151 | a higher level never gives fewer particles or trail points |
| Performance.PerformanceManager.constructor | js/systems/PerformanceManager.js:3-40 | empty histories, no draw calls, the initial settings, not low, and the clock reading kept |
| Performance.PerformanceManager.Update | js/systems/PerformanceManager.js:42-74 | frame time and rate from the clock; each history gains its sample and keeps at most 60; the adaptive step runs exactly when enabled; the draw-call counter resets |
| Performance.PerformanceManager.Measure | js/systems/PerformanceManager.js:43-48 | the frame's length and the rate `1000 / frameTime` |
| Performance.PerformanceManager.RecordHistory | js/systems/PerformanceManager.js:50-60 | the three histories gain their samples and are trimmed together |
| Performance.PerformanceManager.AdaptIfEnabled | js/systems/PerformanceManager.js:62-65 | the adaptive step is `Adapted` when enabled and nothing otherwise |
| Performance.PerformanceManager.UpdateAdaptiveQuality | js/systems/PerformanceManager.js:76-100 | the new timer, mode and settings are `Adapted` of the old ones and the current average, so they degrade below 80% and restore above 95% of the target at each check |
| Performance.PerformanceManager.RecordDrawCall | js/systems/PerformanceManager.js:103-105 | the draw-call counter grows by one |
| Performance.PerformanceManager.RecordActiveObjects | js/systems/PerformanceManager.js:107-109 | the active-object count becomes `count` |
| Performance.PerformanceManager.Grade | js/systems/PerformanceManager.js:116-124 | an empty history grades D |
| Performance.PerformanceManager.Optimized | js/systems/PerformanceManager.js:131-139 | the settings, simplified effects exactly in low mode, skipping exactly below 60% of the target, and the two multipliers equal to the qualities |
| Performance.PerformanceManager.SetQualityLevel | js/systems/PerformanceManager.js:142-151 | the settings become `AtQualityLevel` of the old ones |
| PerformanceOptimizing.FrameSkipRateFor | js/systems/PerformanceOptimizer.js:209-217 | one frame in 3 below 15 fps, one in 2 below 25, every frame from 25 up |
| PerformanceOptimizing.FrameSkipMonotone | js/systems/PerformanceOptimizer.js:209-217 | a lower frame rate never skips fewer frames |
| PerformanceOptimizing.SkipCycle | js/systems/PerformanceOptimizer.js:219-226 | from a counter below the rate, the calls up to the rate skip every frame but the last, which resets the counter |
| PerformanceOptimizing.SkipRunAppend | js/systems/PerformanceOptimizer.js:219-226 | a run of calls splits into two runs, the second starting from the counter the first leaves |
| PerformanceOptimizing.RenderedAppend | js/systems/PerformanceOptimizer.js:219-226 | the frames rendered by two runs add up |
| PerformanceOptimizing.OneFrameInRate | js/systems/PerformanceOptimizer.js:219-226 | from a reset counter, `k * rate` calls render exactly `k` frames and end with the counter reset |
| PerformanceOptimizing.PoolLimits | js/systems/PerformanceOptimizer.js:185-207 | grades A to D have positive particle and trail limits, and no other grade has any |
| PerformanceOptimizing.WithPoolLimits | js/systems/PerformanceOptimizer.js:185-207 | only the two limits change, and an unknown grade changes nothing |
| PerformanceOptimizing.LimitsGrowWithGrade | js/systems/PerformanceOptimizer.js:189-205 | both limits grow strictly from D to A, and grade A restores the manager's initial limits |
| PerformanceOptimizing.KnownGrade | js/systems/PerformanceOptimizer.js:165-176 | every grade the manager reports has a row in the pool table and in the renderer table |
| PerformanceOptimizing.IntOf | js/systems/PerformanceOptimizer.js:137 | `parseInt` of a non-negative number is its floor |
| PerformanceOptimizing.FpsColor | js/systems/PerformanceOptimizer.js:125-130 | green from 55, amber from 40, orange from 25, red below 25 or for NaN |
| PerformanceOptimizing.GradeColor | js/systems/PerformanceOptimizer.js:131-136 | green for A, lime for B, amber for C, red for anything else |
| PerformanceOptimizing.QualityColor | js/systems/PerformanceOptimizer.js:137-140 | green from 80, amber from 60, orange below 60 or for NaN |
| PerformanceOptimizing.ColorsMonotone | js/systems/PerformanceOptimizer.js:124-143 | a higher frame rate or quality never shows a worse colour |
| PerformanceOptimizing.MetricColor | js/systems/PerformanceOptimizer.js:124-143 | fails exactly for a `Grade` of `undefined` or `null`; FPS, grade and quality keys get their colours; every other key is grey |
| PerformanceOptimizing.FpsTextColor | js/systems/PerformanceOptimizer.js:125-126 | a one-decimal frame-rate text gets the colour of the number it spells |
| PerformanceOptimizing.PerformanceOptimizer.constructor | js/systems/PerformanceOptimizer.js:7-39 | new subsystems: initial settings, empty history, the six pools, no particles, empty render queues, and every timer and counter at its start |
| PerformanceOptimizing.PerformanceOptimizer.UpdateFrameSkip | js/systems/PerformanceOptimizer.js:209-217 | the rate becomes `FrameSkipRateFor(fps)` |
| PerformanceOptimizing.PerformanceOptimizer.ShouldSkipFrame | js/systems/PerformanceOptimizer.js:219-226 | the counter steps as `SkipStep`, and a frame goes through exactly when the counter resets |
| PerformanceOptimizing.PerformanceOptimizer.GetCachedSettings | js/systems/PerformanceOptimizer.js:228-237 | the cache is refreshed from the manager exactly when older than 60, and the result is never older than that |
| PerformanceOptimizing.PerformanceOptimizer.AdjustPoolSizes | js/systems/PerformanceOptimizer.js:185-207 | the manager's settings become `WithPoolLimits` of the grade |
| PerformanceOptimizing.PerformanceOptimizer.UpdateOptimizationSettings | js/systems/PerformanceOptimizer.js:165-183 | renderer settings and pool limits for the current grade, culling bounds for the screen, and free lists trimmed at grade D only |
| PerformanceOptimizing.PerformanceOptimizer.HandlePerformanceAdaptation | js/systems/PerformanceOptimizer.js:152-163 | re-tunes only when more than 180 has passed since the last time, and always sets the frame-skip rate from the frame rate |
| PerformanceOptimizing.PerformanceOptimizer.OptimizeWhenDue | js/systems/PerformanceOptimizer.js:155-159 | re-tunes and stamps the time exactly when the interval has passed; otherwise nothing changes |
| PerformanceOptimizing.PerformanceOptimizer.Update | js/systems/PerformanceOptimizer.js:240-251 | the manager's frame update and adaptation; the settings cache refreshed when older than its interval; the frame-skip counter stepped exactly when the cached settings ask to skip; then the particle update unless this frame is skipped |
| PerformanceOptimizing.PerformanceOptimizer.BeginFrame | js/systems/PerformanceOptimizer.js:46-49 | the manager's frame update followed by the adaptation callback |
| PerformanceOptimizing.PerformanceOptimizer.FrameWork | js/systems/PerformanceOptimizer.js:243-250 | the settings cache follows its refresh rule; the frame-skip counter steps exactly when the cached settings ask to skip; a skipped frame leaves the particles alone, otherwise they are updated |
| PerformanceOptimizing.PerformanceOptimizer.UpdateParticles | js/systems/PerformanceOptimizer.js:250 | the particles become the capped survivors at the current `maxParticles` |
| PerformanceOptimizing.PerformanceOptimizer.RenderOptimized | js/systems/PerformanceOptimizer.js:254-266 | the settings cache follows its refresh rule; the frame-skip counter steps; only a rendered frame records the active-object count |
| PerformanceOptimizing.PerformanceOptimizer.CreateOptimizedEnemy | js/systems/PerformanceOptimizer.js:296-321 | an enemy exactly when the graphics pool hands out an object, placed at (x, y) and marked pooled; the pool's free list is popped or stays empty, and a null result changes neither the pool nor the settings cache; configuring the graphics refreshes the cache by its rule |
| PerformanceOptimizing.PerformanceOptimizer.ReleaseOptimizedEnemy | js/systems/PerformanceOptimizer.js:350-355 | only a pooled enemy with graphics goes back to the pool |
| PerformanceOptimizing.PerformanceOptimizer.Cleanup | js/systems/PerformanceOptimizer.js:358-363 | no particles; the particle pool takes back the particles and then its remaining active objects; every other pool takes back its active objects; maxima kept; the render queues empty and the sprite count 0 |
| PerformanceOptimizing.PerformanceOptimizer.SetQualityLevel | js/systems/PerformanceOptimizer.js:366-369 | the manager's settings become `AtQualityLevel` of the level |
| PerformanceOptimizing.PerformanceOptimizer.SetAdaptiveQuality | js/systems/PerformanceOptimizer.js:371-379 | only the `adaptiveQuality` flag changes, to the requested value |
| Batching.CullingBoundsFor | js/systems/BatchRenderer.js:49-57 | the culling rectangle is the screen widened by 150 on every side |
| Batching.VisibleGrows | js/systems/BatchRenderer.js:59-66 | a larger radius never makes a visible circle invisible |
| Batching.CullingMargin | js/systems/BatchRenderer.js:49-66 | after `updateCullingBounds`, a circle is visible exactly when it reaches into the screen widened by 150 |
| Batching.LodFor | js/systems/BatchRenderer.js:68-74 | high below the first threshold, medium below the second, low below the third, skip otherwise, checked in that order |
| Batching.LodMonotone | js/systems/BatchRenderer.js:68-74 | farther away never means more detail |
| Batching.SettingsForGrade | js/systems/BatchRenderer.js:462-493 | grades A to D each have thresholds with high < medium < low, simplified rendering only for C and D, skipping only for D; other grades have no row |
| Batching.ThresholdsGrowWithGrade | js/systems/BatchRenderer.js:464-491 | every threshold grows strictly from grade D to grade A |
| Batching.Filter | js/systems/BatchRenderer.js:130-136 | a group holds only items of its key, in queue order |
| Batching.FirstKeysSound | js/systems/BatchRenderer.js:130-136 | the `Map`'s keys are distinct and are exactly the keys that occur |
| Batching.FilterMembers | js/systems/BatchRenderer.js:130-136 | an item lands in the group of its own key and in no other |
| Batching.GroupSizes | js/systems/BatchRenderer.js:130-136 | together the groups hold every queued item exactly once |
| Batching.GroupByKey | js/systems/BatchRenderer.js:130-136 | the grouping loop yields the keys in first-appearance order, one group per key, each the items of that key in queue order |
| Batching.BatchRenderer.constructor | js/systems/BatchRenderer.js:3-47 | a screen widened by 100, empty queues, both flags off, and thresholds 300, 600 and 1000 |
| Batching.BatchRenderer.UpdateCullingBounds | js/systems/BatchRenderer.js:49-57 | the bounds become `CullingBoundsFor` the screen |
| Batching.BatchRenderer.QueueCircle | js/systems/BatchRenderer.js:77-83 | one entry is appended exactly when the circle is visible, and no other queue changes |
| Batching.BatchRenderer.QueueLine | js/systems/BatchRenderer.js:85-91 | one entry is appended exactly when the segment's midpoint is visible at radius 0 |
| Batching.BatchRenderer.QueuePolygon | js/systems/BatchRenderer.js:93-101 | a polygon with fewer than two coordinates is always appended; otherwise exactly when its first point is visible |
| Batching.BatchRenderer.CircleBatches | js/systems/BatchRenderer.js:127-137 | the batches are keyed by colour and alpha in order of first appearance, and each batch holds exactly the circles with its key in queue order |
| Batching.BatchRenderer.LineBatches | js/systems/BatchRenderer.js:184-194 | the batches are keyed by thickness, colour and alpha in order of first appearance, and each batch holds exactly the lines with its key in queue order |
| Batching.BatchRenderer.PolygonBatches | js/systems/BatchRenderer.js:220-230 | the batches are keyed by colour and alpha in order of first appearance, and each batch holds exactly the polygons with its key in queue order |
| Batching.BatchRenderer.ClearRenderQueues | js/systems/BatchRenderer.js:257-262 | all four queues become empty |
| Batching.BatchRenderer.RenderBatches | js/systems/BatchRenderer.js:103-124 | the flags follow the manager's optimized settings, the queues end empty, and one draw call is recorded |
| Batching.BatchRenderer.UpdateSettings | js/systems/BatchRenderer.js:462-493 | a known grade installs its table row, and an unknown grade changes nothing |
| EnemyVisualizer.Pair | enemy-visualizer-enhanced.js:10-12 | two hexadecimal digits read as a channel from 0 to 255 |
| EnemyVisualizer.HexToRgb | enemy-visualizer-enhanced.js:7-14 | a colour exactly for an optional `#` followed by six hexadecimal digits, with each channel in 0..255 |
| EnemyVisualizer.RgbToHex | enemy-visualizer-enhanced.js:16-18 | channels in range give `#` and six lower-case digits |
| EnemyVisualizer.HexRgbRoundTrip | enemy-visualizer-enhanced.js:7-18 | writing a colour with `rgbToHex` and reading it with `hexToRgb` gives the same channels |
| EnemyVisualizer.HexColorToIntDigits | enemy-visualizer-enhanced.js:20-22 | a picker's `#rrggbb` becomes the 24-bit number its six digits denote |
| EnemyVisualizer.HexColorToIntOfRgbToHex | enemy-visualizer-enhanced.js:16-22 | `hexColorToInt` reads back the packed colour `rgbToHex` wrote |
| EnemyVisualizer.IntToHexColor | enemy-visualizer-enhanced.js:24-32 | a number gives `0x` and at least six digits (exactly six for a 24-bit colour, denoting it); a `0x` string is returned as is; anything else is the fallback `0xff4a4a` |
| EnemyVisualizer.PaddedHex | enemy-visualizer-enhanced.js:27 | zero-padding a numeral to six keeps its value and lower-case digits |
| EnemyVisualizer.ColorConversionsAgree | enemy-visualizer-enhanced.js:24-43 | `colorToHexString` and `intToHexColor` agree on every input |
| EnemyVisualizer.Channels | enemy-visualizer-enhanced.js:262-268 | the three shifted-and-masked channels are in 0..255 and repack to a 24-bit integer colour |
| EnemyVisualizer.PreviewStyle | enemy-visualizer-enhanced.js:257-268 | a missing or zero colour draws as 0xff4a4a, a missing glow follows the main colour, and a missing radius is 10, never 0 |
| EnemyVisualizer.FallbackChannels | enemy-visualizer-enhanced.js:258-264 | the fallback colour splits into (255, 74, 74) |
| EnemyVisualizer.Read | enemy-visualizer-enhanced.js:462 | the radius reader never stores less than 5 |
| EnemyVisualizer.Prefix | enemy-visualizer-enhanced.js:443-447 | the prefix is the first of the four names the enemy type starts with, or empty |
| EnemyVisualizer.ApplyRulesKeeps | enemy-visualizer-enhanced.js:449-530 | a property no rule names keeps its value or stays absent |
| EnemyVisualizer.ApplyRulesSets | enemy-visualizer-enhanced.js:449-530 | a rule whose element exists sets its property from that element unless a later rule names it |
| EnemyVisualizer.Visualizer.Load | enemy-visualizer-enhanced.js:73-74 | the original copy and the edited data both start as the loaded data |
| EnemyVisualizer.Visualizer.UpdatePreview | enemy-visualizer-enhanced.js:440-546 | the enemy's entry, created empty when missing, is `ApplyRules` of the page's rules for its prefix; no other entry changes; an entry shared with the loaded data after a reset is edited in the loaded data too |
| EnemyVisualizer.Visualizer.RandomizeEnemy | enemy-visualizer-enhanced.js:549-568 | the entry keeps its other properties and gets the nine drawn ones in a new object that is no longer shared with the loaded data; no other entry changes |
| EnemyVisualizer.Visualizer.ResetEnemy | enemy-visualizer-enhanced.js:570-575 | the entry becomes the loaded object itself, now shared with the loaded data, and no other entry changes |
| EnemyVisualizer.Visualizer.ResetEditReset | enemy-visualizer-enhanced.js:449-575 | reset, edit and reset again leave the edited entry, not the loaded one, because the first reset shares the loaded object |
| EnemyVisualizer.RandomPropertiesWithin | enemy-visualizer-enhanced.js:551-561 | every drawn colour is a 24-bit integer and every drawn radius an integer from 10 to 39 |
| EnemyVisualizer.PreviewRadius | enemy-visualizer-enhanced.js:458-462 | `updatePreview` stores the radius as at least 5, or NaN |
| EnemyVisualizer.PreviewDamage | enemy-visualizer-enhanced.js:466-472 | `updatePreview` stores the damage field divided by 100 as `coreDamagePercent` |
| EnemyVisualizer.PreviewKeepsOthers | enemy-visualizer-enhanced.js:440-546 | a numeric property outside the page's rules passes through unchanged, present or absent as before |
| EnemyEditing.Configuration | enemy-editor.js:15-34 | fails exactly when some kept entry is `undefined` or `null`; otherwise one summary per entry except the two selection functions |
| EnemyEditing.ConfigurationSummaries | enemy-editor.js:15-34 | each summary carries the enemy's own name, colours and radius, and marks which functions it has |
| EnemyEditing.ConfigurationEntry | enemy-editor.js:18-31 | the entry under a kept key is the summary of that enemy |
| EnemyEditing.SummaryReads | enemy-editor.js:21-29 | a summary reads back the enemy's own name, colour and radius, and marks whether it has a health function |
| EnemyEditing.SummaryShape | enemy-editor.js:25-27 | the summary's radius is the enemy's own, and its health entry marks a health function |
| EnemyEditing.AssignPath | enemy-editor.js:41-51 | assigning into `undefined` or `null` throws; a success went through objects and keeps every other top-level key |
| EnemyEditing.AssignPathReadBack | enemy-editor.js:41-51 | after a successful assignment into an object, the path reads back the new value |
| EnemyEditing.AssignPathOthers | enemy-editor.js:41-51 | a path that leaves the assigned one before its last key reads as before |
| EnemyEditing.PathParts | enemy-editor.js:41-51 | the keys are the path split at its dots, or the whole path |
| EnemyEditing.PathPartsJoin | enemy-editor.js:41-51 | joining the keys with dots gives the path back, in either branch |
| EnemyEditing.EnemyEditor.constructor | enemy-editor.js:9-12 | the editor works on the shared enemy table |
| EnemyEditing.EnemyEditor.UpdateEnemyProperty | enemy-editor.js:37-58 | false and no change for a missing or falsy enemy or a path that throws; otherwise true, with the enemy's entry replaced by the assignment's result |
| EnemyEditing.FormatColorValue | enemy-editor.js:196-201 | a number becomes `0x` and at least six lower-case digits (exactly six, denoting it, for a 24-bit colour); anything else is returned unchanged |
| EnemyEditing.ValidateColor | enemy-editor.js:253-262 | accepts exactly numbers and `0x` plus six hexadecimal digits, giving the number they denote; anything else throws the colour message |
| EnemyEditing.ColorLiteralValue | enemy-editor.js:255-256 | `parseInt` of a colour literal is the value of its six digits, below 2^24 |
| EnemyEditing.FormatThenValidate | enemy-editor.js:196-201 | a 24-bit colour written by `formatColorValue` validates back to itself |
| EnemyEditing.ValidateThenFormat | enemy-editor.js:196-201 | a lower-case colour literal validates and formats back to the same text |
| EnemyEditing.ValidateRadius | enemy-editor.js:264-270 | accepts exactly a `parseInt` value from 5 to 50 and returns it; otherwise throws the radius message |
| EnemyEditing.ValidateRadiusDigits | enemy-editor.js:264-270 | a decimal radius is accepted exactly when its value is between 5 and 50 |
| EnemyEditing.FormatValue | enemy-editor.js:203-210 | strings are quoted, numbers strictly between 0 and 1 become text, objects and `null` become JSON, everything else is passed as is |
| EnemyEditing.FormatValueUnquotes | enemy-editor.js:204 | stripping the quotes from a formatted string gives the string back |
| EnemyEditing.EnemyDescription | enemy-editor.js:212-221 | never empty, and "Enemy" for any type but the four known ones |
| EnemyEditing.DescriptionsDistinct | enemy-editor.js:213-220 | the four known enemies have four different descriptions, none of them the fallback |
| SoundEngine.BarDuration | js/sound-engine.js:330-333 | one bar lasts `beatsPerBar * 60 / bpm` seconds, positive for a positive tempo |
| SoundEngine.NextBarTime | js/sound-engine.js:317-328 | the next bar start lies a whole number of bars after the start time and, for a positive bar, strictly after `now` and at most one bar later |
| SoundEngine.OnGrid | js/sound-engine.js:324-326 | a whole number of bars after the start lies on the bar grid |
| SoundEngine.FloorBracket | js/sound-engine.js:325 | the floored bar count fits in the elapsed time and one more bar does not |
| SoundEngine.NextBarNoPush | js/sound-engine.js:325-327 | for a positive bar the first candidate is never before `now`, so the extra bar is never added |
| SoundEngine.MasterVolumeTarget | js/sound-engine.js:75 | the master volume target lies in [0, 1], equal to the value inside that range and to the nearer end outside it |
| SoundEngine.MasterVolumeIsClamp | js/sound-engine.js:75 | the volume clamp agrees with the maths utilities' `clamp(value, 0, 1)` |
| SoundEngine.RampTime | js/sound-engine.js:79 | a ramp never lasts less than 10 ms and keeps any longer requested time |
| SoundEngine.LayerMixTarget | js/sound-engine.js:214 | the layer gain target is never negative and keeps a non-negative request |
| SoundEngine.SamplePlan | js/sound-engine.js:220-262 | attack at least 1 ms, release at least 10 ms; start at `when` or now; a one-shot plays no longer than the buffer allows, and stops after attack, sustain and release when no duration is given, with the release starting after the attack and at most `release` before the stop; a loop plays the requested duration |
| SoundEngine.EonwispSoundModule.constructor | js/sound-engine.js:7-32 | tempo 120, four beats a bar and volume 0.8 unless given; no start time, no layers, no samples |
| SoundEngine.EonwispSoundModule.SetTransport | js/sound-engine.js:34-44 | only positive tempo and bar values are taken; the start time is set once, on the first call |
| SoundEngine.EonwispSoundModule.Unlock | js/sound-engine.js:61-72 | the start time is set once, on the first call |
| SoundEngine.EonwispSoundModule.GetNextBarTime | js/sound-engine.js:317-328 | the first call starts the transport now and returns now; later ones return the next bar start, after now and at most a bar away |
| SoundEngine.EonwispSoundModule.MasterVolumeRamp | js/sound-engine.js:74-80 | the ramp goes to a volume in [0, 1] and ends at least 10 ms from now |
| SoundEngine.EonwispSoundModule.LoadSample | js/sound-engine.js:82-86 | the sample is stored under its name, replacing any earlier one |
| SoundEngine.EonwispSoundModule.RegisterMusicLayer | js/sound-engine.js:93-114 | the layer is stored silent, looping unless `loop` is false; its tempo settings go through `setTransport` |
| SoundEngine.EonwispSoundModule.PlayMusicLayer | js/sound-engine.js:165-196 | an unregistered layer throws and changes nothing; otherwise the layer plays from `when`, 50 ms from now, or the next bar (which is now, and starts the transport, when there was no start time yet), from the given offset (default 0), fading in to the given or default gain over the fade time but at least 10 ms |
| SoundEngine.EonwispSoundModule.StopMusicLayer | js/sound-engine.js:198-206 | an unknown or silent layer changes nothing; a playing one stops |
| SoundEngine.EonwispSoundModule.LayerMix | js/sound-engine.js:208-218 | an unregistered layer throws; otherwise a ramp to a non-negative gain lasting at least 10 ms |
| SoundEngine.EonwispSoundModule.PlaySample | js/sound-engine.js:220-275 | a sample that was not loaded throws; otherwise the envelope `SamplePlan` gives |
| SoundEngine.EonwispSoundModule.Dispose | js/sound-engine.js:297-307 | no layers and no samples remain |
| SensorServer.ContentType | android-sensor-server.js:16-29 | `.jpg` and `.jpeg` both map to JPEG and no other extension does |
| SensorServer.ContentTypeTable | android-sensor-server.js:16-29 | each listed extension gets its own media type; exactly the unlisted ones fall back to `application/octet-stream` |
| SensorServer.RequestPath | android-sensor-server.js:33-34 | the served path has no query part, is never empty or `/` (the root maps to the debug page), and is otherwise a prefix of the URL |
| SensorServer.PairName | android-sensor-server.js:57-58 | a query pair's name has no `=` and starts the pair |
| SensorServer.PairRoundTrip | android-sensor-server.js:57-58 | a pair written as `name=value` parses back to the same name and value |
| SensorServer.FindPair | android-sensor-server.js:58 | the index found is the FIRST pair with the name; none means no pair has it |
| SensorServer.QueryParam | android-sensor-server.js:57-58 | a URL without a query has no parameters |
| SensorServer.Role | android-sensor-server.js:55-60 | the role is never empty: the `role` parameter when the URL parses and it is non-empty, `desktop` when it is missing or empty or the URL does not parse |
| SensorServer.NoQueryDesktop | android-sensor-server.js:55-60 | a URL with no `?` connects as a desktop client |
| SensorServer.QueryOf | android-sensor-server.js:57 | the query of `path?query` is `query` |
| SensorServer.RoleQuery | android-sensor-server.js:55-60 | a URL `path?role=r` connects with role `r` when it parses, else as a desktop |
| SensorServer.Serial | android-sensor-server.js:203 | a device serial is the part of the line before its first tab |
| SensorServer.ListedSerials | android-sensor-server.js:200-203 | at most one serial per line, none holding a tab |
| SensorServer.ListedSerialsAppend | android-sensor-server.js:200-203 | listing distributes over concatenated lines, so the order of `adb devices` is kept |
| SensorServer.ListedSerialsMembers | android-sensor-server.js:200-203 | a serial is listed exactly when some non-empty line not starting with `*` and containing `device` has it |
| SensorServer.ParseDevices | android-sensor-server.js:199-203 | the header line is skipped, so there are fewer serials than lines |
| SensorServer.RealDevices | android-sensor-server.js:206-209 | exactly the serials that do not contain `emulator` are kept |
| SensorServer.PreferReal | android-sensor-server.js:212 | real devices are chosen when there are any, else all devices; empty only when there are none |
| SensorServer.RealDevicesAppend | android-sensor-server.js:206-209 | filtering a list made of two parts filters each part and keeps their order |
| SensorServer.FirstRealDevice | android-sensor-server.js:206-212 | the first real device in the adb listing is the first device chosen |
| SensorServer.DetectDevices | android-sensor-server.js:191-216 | every reported serial is tab-free |
| SensorServer.DeviceLine | android-sensor-server.js:202-203 | a `serial<TAB>device` line is listed with its serial |
| SensorServer.OfflineLine | android-sensor-server.js:202 | an `offline` line of a serial without `d` is not listed |
| SensorServer.Add | android-sensor-server.js:62-98 | adding to a client set keeps members, adds the socket, and keeps the set duplicate-free |
| SensorServer.Remove | android-sensor-server.js:155-156 | removing drops exactly that socket and keeps the rest, duplicate-free |
| SensorServer.RemoveAdd | android-sensor-server.js:155-156 | removing a socket just added gives back the set it was added to |
| SensorServer.RemoveAbsent | android-sensor-server.js:155-156 | deleting an absent socket changes nothing |
| SensorServer.SensorHub.constructor | android-sensor-server.js:12-14 | no clients and no device at start |
| SensorServer.SensorHub.Connect | android-sensor-server.js:55-123 | a mobile client joins the mobile set and every desktop is told it is connected; any other role joins the desktop set and is told whether a mobile client is present |
| SensorServer.SensorHub.Close | android-sensor-server.js:154-181 | the socket leaves both sets; only a mobile client's close notifies the desktops, reporting disconnected and no mobile clients |
| SensorServer.SensorHub.Drop | android-sensor-server.js:183-189 | after an error the socket is in neither set |
| SensorServer.SensorHub.TrackDevice | android-sensor-server.js:486-496 | no device forgets the connected one; a device list keeps the current device, or takes the first when none is held |
| SensorServer.SensorHub.Poll | android-sensor-server.js:458-567 | every desktop client receives the status: the mobile status while a mobile client is connected, otherwise the ADB fallback status after tracking the device |
| SensorServer.FallbackStatus | android-sensor-server.js:498-550 | connected reports whether a device is present; real readings give `adb_realtime` with no error, every other case `adb_fallback` with an error text |

## Left out

- Maths utilities: the easing functions, `distance`, `angle`, the random ranges, `pointInCircle`, `circlesIntersect`, `magnitude`, `rotate`, `approximately`, `oscillate`, `applySpringForce` and `trajectoryIntersection` are not modelled. They are floating-point geometry, and the enemy rules take their results as parameters.
- Floating point in general: numbers are mathematical reals. Rounding, `NaN`, `Infinity` and `-0` are not modelled except where the model says so, as for the average of an empty FPS history.
- `GameStates.GameState.Reset`: requires `ResettableConfig`: each of reset's reads succeeds and `core.baseRadius` is a number. A missing `core`, `spawning` or `timers` section makes the source throw a `TypeError` partway through. A missing or non-numeric `core.baseRadius` is stored by the source as it is, but the model holds `currentCoreRadius` as a real, so such configurations are excluded. `GameStates.ResettableReads` states exactly which configurations qualify.
- `GameStates.GameState.constructor`: requires `ResettableConfig`, for the same reasons as `Reset`. The source's `{ ...GameConfig }` is a shallow copy, so every game state shares the section objects of the module-level configuration. The model copies the configuration by value, so that sharing is not captured.
- `GameStates.GameState.UpdateConfig`: a write into a section such as `core.baseRadius` lands, in the source, in the section object shared with the module-level configuration and with every other game state. The model changes only this state's configuration. A function's own properties are not part of `Value`, so a write below a function succeeds but does not read back, and its `oldValue` is `undefined`.
- `GameStates.GameState.UpdateCoreRadius`: requires a `core.baseRadius` that coerces to a number. A missing or `null` `core` section is modelled as the error it throws. A `null` radius counts as 0 and a numeric string as its number. For `undefined`, an object or a malformed string, `Math.max` yields `NaN`, which a real cannot hold.
- `JsValues.ToNumber`: strings with an exponent, a `0x`, `0o` or `0b` prefix, or `Infinity` convert to NaN here, though JavaScript reads them as numbers. The value datatype has no arrays, so the conversion of a one-element array through its element has no counterpart.
- `JsValues.IsWhiteSpace`: only the ASCII white-space characters are trimmed. JavaScript also trims the no-break space, the line and paragraph separators, the byte-order mark and the other Unicode space separators.
- GameState: `reset` also sets the hit, healing and vibration timers, the slow-motion and core-choice fields, the spawn accumulator, `criticalMass`, the mirror and healing effect flags, the danger wave's warning, active and queue fields, `comboNoteIndex`, `center` and `previousPlayerPosition`. The model does not carry these fields, since no modelled operation reads them.
- GameState: listeners are foreign callbacks. `emit` records which listeners it calls, in order. The listeners' effects, and the `try`/`catch` that shields the emitter from them, are not modelled.
- GameState: `deserialize` is modelled on the snapshot's own keys. It is not modelled how the source copies any other snapshot key that the object already has (`key in this`, which includes its methods and getters). Also not modelled: the shallow copy of the configuration, the `coreBaseRadius`/`criticalThreshold` getters and `window.gameState`.
- `ObjectPooling.GameObjectPoolManager.InitializePools`: the contract states that the standard pools exist and are well formed, but not each pool's initial and maximum size.
- `ObjectPooling.Particle`: a particle's fields, `active` among them, are kept in its entry of the active list rather than on the pooled object. A reset through the pool, which clears `active` on the object, is therefore not seen by an entry still in the list. Within the particle system every release also removes the entry.
- ObjectPool: `createSplash`, particle rendering, and the PIXI containers behind `getPool` are not modelled. They are drawing code.
- `Performance.PerformanceManager.Update`: requires a clock reading strictly later than the last frame's. With a zero-length frame the source divides by zero and records `Infinity`.
- `PerformanceOptimizing.PerformanceOptimizer.Update`: requires a strictly later clock reading, for the same reason.
- `PerformanceOptimizing.PerformanceOptimizer.BeginFrame`: requires a strictly later clock reading, for the same reason.
- PerformanceManager: `onUpdate` subscribers, `getDebugInfo` and console output are not modelled.
- `PerformanceOptimizing.GradeText`: a number is rendered as `"0"` rather than its decimal text. Only `GradeColor`'s comparison with the letters `A`, `B` and `C` reads it, and no numeral equals one of them.
- `PerformanceOptimizing.PerformanceOptimizer.CreateOptimizedEnemy`: the returned record carries the sprite, the type, `pooled` and the position. The properties of the caller's `config` that the source spreads into it are not carried.
- PerformanceOptimizer: the debug overlay and its toggle, the drawing that `configureEnemyGraphics` does (its settings-cache read is modelled in `CreateOptimizedEnemy`), the thin wrappers that forward to the pools, `exportPerformanceData` and `destroy` are not modelled. They build display objects or plain copies. The optimizer reads the clock once per frame, and that single reading is passed to every step.
- BatchRenderer: the drawing bodies of `render`, `renderEnemies`, `renderTrail`, `renderProjectiles` and `addEnemyDetails`, and `destroy`, are not modelled. Only the culling and grouping that decide what is drawn are.
- Enemy rules: `createGfx`, `onDeath`, the tint, scale and filter visuals, the dispatch tables that map kind names to handlers, and the `setTimeout` that restores the titan's shield opacity after a hit are not modelled. The handlers are modelled directly.
- `EnemyBehavior.EmeraldBow.Update`: a bow's `data` always exists here, because its fields belong to the class itself. So `updateEmeraldBow`'s early return for a missing `data` is not modelled, and neither is dimming the spent arrow's ammo indicator.
- `EnemyEditing.Spread`: a truthy string under `attributes` would spread into one field per character, keyed "0", "1", ...; the model gives it no fields.
- `EnemyVisualizer.Visualizer.ResetEnemy`: removes the entry where the page stores `undefined` under the key. The two differ only for an inherited-key lookup.
- Visualizer: form rendering, tabs, `fetch` of the types file and `applyAllChanges` are not modelled. They are DOM and network code.
- Editor: `generateUpdatedFileContent`, `saveChanges` and the UI are not modelled. Nested objects the page shares by reference are copied by value here, so aliasing between them is not captured.
- `SoundEngine.BarDuration`: requires a non-zero tempo. With tempo 0 the source computes `Infinity`.
- `SoundEngine.NextBarTime`: requires a non-zero bar length, for the same reason.
- `SoundEngine.EonwispSoundModule.GetNextBarTime`: requires non-zero tempo and beats per bar, for the same reason.
- `SoundEngine.EonwispSoundModule.PlayMusicLayer`: requires non-zero tempo and beats per bar, for the same reason.
- `SoundEngine.SamplePlan`: requires a non-zero playback rate. With rate 0 the source divides by zero.
- `SoundEngine.EonwispSoundModule.PlaySample`: requires a non-zero playback rate, for the same reason.
- Sound engine: the Web Audio graph, the unlock listeners, `fetch`/XHR decoding, `loadSamples`, `createOneShot`, the `stop` closure `playSample` returns, fade scheduling and closing the audio context are not modelled. These are browser I/O. The model keeps the times and gains that would be scheduled.
- Sensor server: `decodeURI` and percent-decoding, the `500` answer for a request that throws, and the file-system lookup behind the `404` are not modelled.
- Sensor server: WebSocket `readyState` checks, `send`, the JSON encoding of messages, the confirmation sent back to a new mobile client and the forwarding of mobile sensor packets are not modelled. The model returns the recipients and the status they would receive.
- `SensorServer.SensorHub.Poll`: the `await` on `detectDevices` is treated as one step. Clients that connect or disconnect while it is pending are not modelled. The mobile-client check and the device update see the same client sets.
- Sensor server: the `exec`/`adb` sensor-reading methods, the simulated and demo sensor values, the polling timer, and the `SIGINT` and `uncaughtException` handlers are not modelled. The result of a reading is a parameter.
- `parseFloat` is modelled without an exponent part, and property reads without inherited prototype keys.
- `enemy-editor-server.js` is not part of this model.
- `DeviceDetection.js` is not part of this model.

## Findings

| source | as written | input that shows it | evidently intended | confidence | as-written member | corrected member |
|---|---|---|---|---|---|---|
| js/core/GameState.js:6-7 | the constructor calls `reset()` before assigning `this.config`, so reset's first read, `this.config.core`, throws a `TypeError` | any `new GameState()` | assign the configuration first, then reset | not executed | GameStates.ConstructorFirstRead | GameStates.GameState.constructor |
