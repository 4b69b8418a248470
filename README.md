# Bullet-hell engine: entity state in Dafny

This project models the per-entity state logic of a browser bullet-hell game
written in JavaScript, and proves properties of that model. It covers:

- the turrets of `src/Turret.js`:
  - the common turret (motion, sprite cycle, timer bookkeeping, `stopFiring`);
  - the radial turret (burst, spiral, flower and windmill rings);
  - the aimed turret (line, cone, shotgun, overtake-arrow and overtake-wave attacks);
- the projectiles of `src/Projectile.js`, including the colour cycling of a radial projectile's `draw`;
- the player of `src/Player.js`;
- the background star of `src/Star.js`;
- the explosion particle of `src/Particle.js`;
- the early prototype in `src/index.js`: its turret and projectile, `init`, `reset` and the five-second fire gate of `animate`.

Each JavaScript class whose methods update its fields is a Dafny `class` with those fields. Shared arrays are `SharedList` objects. The browser's `setTimeout`/`clearTimeout` facility is a `Scheduler` class: a map from fresh positive handles to pending timers, where cancelling removes the entry.

The attack patterns schedule series of timers. Each series is a function (`RingSeries`, `LineSeries`, `ConeSeries`, `WaveSeries`, `ShotgunSeries`, `ArrowSeries`). Each scheduling method is proved to add exactly that series to the scheduler. It is also proved to leave `delayedTimeoutIDs` as `Recorded` describes: the record after the first-in-first-out trim.

Angles are kept symbolic, as an aim plus a multiple of pi. The aim is either none or the `Math.atan2` direction from the turret to the player. No trigonometric function is evaluated. Every `Math.random()` draw is a parameter in [0, 1). The game settings (`numRadialProjectiles`, `numAimedProjectiles`, `hardMode`, `paused`) are parameters as well.

Two behaviours that the code has and its comments do not say are proved outright:

- A pattern whose ring count is fractional (flower rings with `count * 2.5`, windmill rings with `count * 0.5`) schedules `ceil(n)` timers but keeps only `floor(n)` handles. The dropped handle is never cancelled by `stopFiring`: `EvictedHandleStaysPending` shows this.
- The prototype's `fire` comment says "10 to 20" projectiles. The code `Math.floor(Math.random() * 20) + 1` fires from 1 to 20. The model follows the code, and `FireCountOnto` shows that every count from 1 to 20 occurs.

## Model

| member | source | states |
|---|---|---|
| Common.Keep | src/Turret.js:140 | what `while (ids.length > n) ids.shift()` leaves: the newest `n` entries (all of them when there are fewer), in their order |
| Common.KeepPush | src/Turret.js:181 | trimming after every push leaves the same list as trimming once after the last push |
| Common.KeepOnlyNewest | src/Turret.js:140 | once at least `n` entries are appended, the trim keeps only appended entries, and every older one is dropped |
| Common.HandlesPush | src/Turret.js:136-137 | one more `setTimeout` adds the next consecutive handle |
| Common.HandleSet | src/Turret.js:51 | `clearTimeout(undefined)` cancels nothing; a defined handle cancels itself |
| Common.Portion | src/Star.js:4 | `Math.random() * a` lies in `[0, a]`, strictly below a positive `a` |
| Common.ScaledRange | src/Star.js:5-6 | `scale * (Math.random() * span + low)` lies between `scale * low` and `scale * (low + span)`, strictly below it for a positive scale and span |
| Common.Iterations | src/Turret.js:152 | the rounds of `for (i = 0; i < n; i++)` for a real `n`: the least whole number not below `n`, none when `n` is not positive |
| Common.IterationsAgainstFloor | src/Turret.js:151-157 | the loop makes one round more than the trim keeps exactly when `n` is fractional |
| Common.PickIndex | src/Turret.js:188-189 | `Math.floor(r * len)` is a valid index, and it is the floor of `r * len` |
| Common.SharedList.Push | src/Turret.js:123 | `push` appends one element after the unchanged existing ones |
| Common.SharedList.Clear | src/index.js:115 | `projectiles = []` leaves the collection empty |
| Timers.Issue | src/Turret.js:135-139 | the timers of a series are entered under handles `start, start+1, ...`, in order, and under no other handle |
| Timers.EvenlySpaced | src/Turret.js:137 | timers scheduled `i * gap` ms out, for a positive gap, run in the order they were scheduled |
| Timers.IssuePush | src/Turret.js:136-137 | issuing one more timer adds exactly one entry, under the next handle |
| Timers.PendingPush | src/Turret.js:136-137 | the same step over the whole pending map |
| Timers.PendingNext | src/Turret.js:135-138 | the round `i` of a loop over a series adds the series' `i`-th timer, so the pending map covers one more prefix entry |
| Timers.Scheduler.SetTimeout | src/Turret.js:137 | `setTimeout` returns a new positive handle and adds exactly that timer |
| Timers.Scheduler.ClearTimeout | src/Turret.js:53 | `clearTimeout` removes the given handle; an absent or already-run handle changes nothing |
| Timers.Scheduler.Expire | src/Turret.js:137 | a due timer leaves the pending map and yields the callback that runs |
| Turrets.NextSpriteOffset | src/Turret.js:36-38 | the sprite offset stays in {0, 200, 400, 600} and advances one frame, wrapping at 800, only when the counter (before it grows) is a multiple of 10 |
| Turrets.Recorded | src/Turret.js:133-141 | the record after a pattern: trimmed to `floor(limit)` newest handles, except that a trim-in-loop pattern that scheduled nothing never trims |
| Turrets.RecordedOnlyNewest | src/Turret.js:140 | after a pattern that scheduled at least as many timers as it keeps, the record holds only that pattern's newest handles |
| Turrets.RecordedPush | src/Turret.js:176-181 | one push and trim extends the record of a trim-in-loop pattern by one round |
| Turrets.Turret.constructor | src/Turret.js:18-31 | radius `0.01 H`, y `-radius`, x `radius + r (W - 2 radius)`, which lies in `[radius, W - radius)` when the canvas is wide enough; no pending dispatch, an empty record |
| Turrets.Turret.Update | src/Turret.js:33-46 | y grows by `velY`; the sprite cycles; below `H + 6 radius` the turret returns to `-radius` at x `r W`; `velY` never changes; y never stays past `H + 6 radius` |
| Turrets.Turret.StopFiring | src/Turret.js:50-55 | cancels the dispatch and exactly the recorded handles; every other pending timer, including one dropped from the record by a trim, stays pending unchanged |
| Turrets.Turret.Debounce | src/Turret.js:193-196 | cancels the pending dispatch if there is one, then schedules one dispatch 20 ms out and remembers its handle |
| Turrets.Turret.Trim | src/Turret.js:140 | the `while ... shift()` loop leaves `Keep(ids, floor(limit))` |
| Turrets.Turret.PushHandle | src/Turret.js:176-181 | `push` of a handle, followed by the trim when the pattern trims inside its loop |
| Turrets.Turret.ScheduleStep | src/Turret.js:176-181 | one round of a scheduling loop adds the round's timer under the next handle and records it |
| Turrets.Turret.ScheduleAll | src/Turret.js:135-139 | the push loop of a trim-after pattern (also `src/Turret.js:152-156`) adds the series under consecutive handles and records every handle, before the trim |
| Turrets.Turret.ScheduleSeries | src/Turret.js:174-183 | a trimming pattern adds the series under consecutive handles, and the record becomes `Recorded` of it, for trim-in-loop and trim-after patterns alike |
| RadialTurrets.PaletteAsWrittenHasNoTable | src/Turret.js:73-77 | the listed palette's third colour, picked by a draw of 0.9, has no shade table |
| RadialTurrets.PaletteHasTables | src/Projectile.js:35-45 | every colour of the corrected palette has a shade table, whichever draw picks it |
| RadialTurrets.RadialSpeed | src/Turret.js:62-65 | speed in `[0.00025 H, 0.0005 H)`, or in `[0.005 H, 0.01 H)` in hard mode when the coin draw is below one half |
| RadialTurrets.BurstIndices | src/Turret.js:115-124 | the fired burst indices: increasing, below the bound, outside the gap, and every such index is present |
| RadialTurrets.BurstShot | src/Turret.js:123 | a burst shot has unit magnitude, cosine at its angle and sine at minus its angle |
| RadialTurrets.BurstPrefix | src/Turret.js:115-124 | the shots of the first rounds: one per fired index, in order |
| RadialTurrets.BurstPrefixStep | src/Turret.js:120-123 | one more round adds its shot unless its angle is in the gap |
| RadialTurrets.BurstShots | src/Turret.js:110-124 | a whole burst fires at most `ceil(N)` shots |
| RadialTurrets.BurstFiresOutsideGap | src/Turret.js:115-120 | index `i` is fired exactly when `i < N` and its angle `2 i / N` half-turns is not strictly within 5% of the partition |
| RadialTurrets.SpiralCount | src/Turret.js:134 | a spiral attack makes `5`, `10` or `15` rings per unit of `numRadialProjectiles` |
| RadialTurrets.FlowerCount | src/Turret.js:151 | a flower attack makes `2.5`, `5` or `7.5` rings per unit |
| RadialTurrets.WindmillCount | src/Turret.js:175 | a windmill attack makes `0.5`, `1` or `1.5` rings per unit |
| RadialTurrets.RingInOrder | src/Turret.js:135-138 | the rings of a pattern leave in order, one per step; with a zero step they all leave at once |
| RadialTurrets.FanShot | src/Turret.js:164 | a fan shot flies at its fan angle with unit magnitude |
| RadialTurrets.Fan | src/Turret.js:161-170 | a fan has `n` shots, shot `j` at `base + 2 j / n` half-turns |
| RadialTurrets.FanTurned | src/Turret.js:166-170 | the staggered fan is the straight fan turned by the offset, with the same spacing `2/n` |
| RadialTurrets.FanPrefix | src/Turret.js:161-165 | one more loop round appends the next shot of the fan |
| RadialTurrets.RadialTurret.constructor | src/Turret.js:59-78 | a fresh turret with `RadialSpeed`, zero offset, the four patterns in order and the corrected palette; the base placement (radius `0.01 H`, one radius above the top, x at `radius + rx (W - 2 radius)`) |
| RadialTurrets.RadialTurret.FireRadial | src/Turret.js:110-125 | a burst appends exactly `BurstShots` for `N = 5 count` and partition `1 + r` half-turns |
| RadialTurrets.RadialTurret.SpiralRing | src/Turret.js:127-131 | one shot at the offset, then 0.33 more half-turns |
| RadialTurrets.RadialTurret.FlowerRing | src/Turret.js:143-148 | two shots mirrored about the horizontal axis, then 0.22 more half-turns |
| RadialTurrets.RadialTurret.WindmillRing | src/Turret.js:160-172 | a straight fan then the fan turned by the offset, `2 count` shots in all, then 0.22 more half-turns |
| RadialTurrets.RadialTurret.FireSpiralRings | src/Turret.js:133-141 | schedules `ceil(n)` spiral rings 10 ms apart and trims once after the loop |
| RadialTurrets.RadialTurret.FireFlowerRings | src/Turret.js:150-158 | schedules `ceil(n)` flower rings 20 ms apart and trims once after the loop |
| RadialTurrets.RadialTurret.FireWindmillRings | src/Turret.js:174-183 | schedules `ceil(n)` windmill rings 120 ms apart and trims after every push |
| RadialTurrets.RadialTurret.FireRandomRadialAttack | src/Turret.js:186-191 | runs the pattern and colour at the drawn indices, both in bounds; the colour always has a shade table; each pattern has its effect and nothing else: the burst appends its shots and schedules nothing; each ring pattern schedules its rings and leaves the projectile list as it was |
| RadialTurrets.RadialTurret.DebounceFire | src/Turret.js:193-196 | replaces any pending dispatch with one radial dispatch 20 ms out |
| AimedTurrets.AimedMethods | src/Turret.js:210-220 | four attacks in order, and the overtake waves as a fifth exactly in hard mode |
| AimedTurrets.Hue | src/Turret.js:253-256 | the hue of sub-event `i` of `n` lies in `[80, 180)` and starts at 80 |
| AimedTurrets.HueRises | src/Turret.js:253-256 | hues strictly rise along a series |
| AimedTurrets.ShotColour | src/Turret.js:256 | an `hsl` colour at 82% saturation and 73% lightness with a hue in `[80, 180)` |
| AimedTurrets.LineInOrder | src/Turret.js:251-260 | the `n` shots of a line attack leave in the order they are scheduled, each one a higher hue than the shot before |
| AimedTurrets.ConeInOrder | src/Turret.js:270-279 | the rows of a cone leave in order and narrow by one shot each, from `n` shots down to one |
| AimedTurrets.WaveSeries | src/Turret.js:305-323 | `3 n` waves 100 ms apart, wave `i` with magnitude `0.3 + 0.3 (i + 1)` and offset `0.02 (i + 1)` half-turns |
| AimedTurrets.WavesOvertake | src/Turret.js:308-318 | each wave leaves 100 ms later than the one before, 0.3 faster and turned 0.02 half-turns further |
| AimedTurrets.ShotgunInOrder | src/Turret.js:402-411 | the waves of a shotgun attack leave in order |
| AimedTurrets.ArrowSeries | src/Turret.js:345-385 | `2 w` timers, the `p`-th as `ArrowTimer` gives it |
| AimedTurrets.ArrowLeft | src/Turret.js:354-366 | the left-wing loop's round `i` builds timer `i` of the series |
| AimedTurrets.ArrowRight | src/Turret.js:371-383 | the right-wing loop's round for shot `i` builds timer `2 w - 1 - i` of the series |
| AimedTurrets.ArrowPairs | src/Turret.js:352-384 | the two shots that leave at `100 i` ms have magnitude `i + 1`, share the aim, and their offsets sum to minus one step, so the arrow is not centred on the player |
| AimedTurrets.ConeStart | src/Turret.js:286 | both branches of the row start are `(rowLen - 1) / 2` steps |
| AimedTurrets.ConeRowShots | src/Turret.js:289-301 | a row has `rowLen` shots, shot `i` at `i - start` steps of 0.01 half-turns from the aim, magnitude 1.5 |
| AimedTurrets.ConeRowSymmetric | src/Turret.js:283-297 | a cone row is symmetric about the aim, and the middle shot of an odd row flies straight at it |
| AimedTurrets.ConePrefixTotal | src/Turret.js:273-276 | the first `k` rows of an `n`-row cone fire `k (2n + 1 - k) / 2` shots |
| AimedTurrets.ConeTotal | src/Turret.js:270-279 | a cone attack of `n` rows fires `n (n + 1) / 2` shots |
| AimedTurrets.WaveShots | src/Turret.js:325-343 | five shots at `-0.25 + 0.1 i` half-turns from the aim plus the wave's offset |
| AimedTurrets.WaveSpread | src/Turret.js:327-330 | the five shots are 0.1 half-turns apart, the middle one 0.05 half-turns below the wave's offset |
| AimedTurrets.Spread | src/Turret.js:424 | the shotgun scatter `(r - 0.5) * 0.0625` half-turns is below 1/32 half-turn either way |
| AimedTurrets.ShotgunShots | src/Turret.js:413-430 | one shot per draw pair, magnitude 1.5, both trigonometric arguments within 1/32 half-turn of the aim |
| AimedTurrets.AlongTheVector | src/Turret.js:263-267 | scaling `3 (d / dist)` back by `dist` gives `3 d`: the shot runs along the turret-to-player vector |
| AimedTurrets.AimedTurret.AimAtPlayer | src/Turret.js:283 | the aim runs from the turret's position to the player's |
| AimedTurrets.AimedTurret.constructor | src/Turret.js:200-221 | the base placement (radius `0.01 H`, one radius above the top, x at `radius + rx (W - 2 radius)`); speed in `[0.0005 H, 0.001 H)`; attack list `AimedMethods(hardMode)`; empty record and no dispatch |
| AimedTurrets.AimedTurret.LineAttack | src/Turret.js:251-260 | schedules `LineSeries(n)` and trims after every push |
| AimedTurrets.AimedTurret.FireAimed | src/Turret.js:262-268 | one shot whose velocity times the distance is three times the turret-to-player vector, after the existing shots |
| AimedTurrets.AimedTurret.ConeAttack | src/Turret.js:270-279 | schedules `ConeSeries(n)` and trims after every push |
| AimedTurrets.AimedTurret.FireConeRow | src/Turret.js:281-302 | appends exactly the row `ConeRowShots` aimed at the player |
| AimedTurrets.AimedTurret.OvertakeWaveAttack | src/Turret.js:305-323 | schedules `WaveSeries(n)` and trims to `3 n` after every push |
| AimedTurrets.AimedTurret.OvertakeWave | src/Turret.js:325-343 | appends exactly the five `WaveShots` |
| AimedTurrets.AimedTurret.OvertakeArrowAttack | src/Turret.js:345-385 | schedules `ArrowSeries` at the aim taken when the attack starts and records all `2 w` handles with no trim |
| AimedTurrets.AimedTurret.ArrowLeftWing | src/Turret.js:352-367 | the first loop schedules the left wing and leaves the angle one step below the aim |
| AimedTurrets.AimedTurret.ArrowRightWing | src/Turret.js:369-384 | the second loop, two steps further on, schedules the right wing in decreasing shot order |
| AimedTurrets.AimedTurret.ArrowLeftShot | src/Turret.js:354-366 | one round of the first loop schedules timer `i` of the series under the next handle and records the handle |
| AimedTurrets.AimedTurret.ArrowRightShot | src/Turret.js:371-383 | one round of the second loop schedules timer `2 w - 1 - i` of the series under the next handle and records the handle |
| AimedTurrets.AimedTurret.OvertakeArrow | src/Turret.js:387-399 | appends one shot with the bound angle and magnitude |
| AimedTurrets.AimedTurret.ShotgunAttack | src/Turret.js:402-411 | schedules `ShotgunSeries(n)` and trims after every push |
| AimedTurrets.AimedTurret.ShotgunWave | src/Turret.js:413-430 | appends exactly `ShotgunShots` for the draws |
| AimedTurrets.AimedTurret.FireRandomAimedAttack | src/Turret.js:432-435 | runs the attack at the drawn index, always one the turret has; the overtake waves only for a hard-mode turret |
| AimedTurrets.AimedTurret.DebounceFire | src/Turret.js:437-440 | replaces any pending dispatch with one aimed dispatch 20 ms out |
| Scenarios.DebounceKeepsOnlyLast | src/Turret.js:193-196 | after two `debounceFire` calls only the second dispatch is pending, under a different handle |
| Scenarios.EvictedHandleStaysPending | src/Turret.js:150-158 | a flower attack of 2.5 rings drops handle 1 from the record, and after `stopFiring` that timer is still pending |
| Projectiles.ColourTable | src/Projectile.js:35-45 | five shades exactly for "red", "darkPink" and "magenta", and no table for any other name |
| Projectiles.Shown | src/Projectile.js:49 | the index read is always in bounds, and unchanged when it has not run off the table |
| Projectiles.DrawStep | src/Projectile.js:48-61 | one `draw`: the index steps once when the frame count before it grows is a multiple of 20; the frame count grows by one; the index stays at most the table length |
| Projectiles.Draws | src/Projectile.js:48-61 | the index after any number of draws stays at most the table length |
| Projectiles.DrawsCycle | src/Projectile.js:48-61 | after `k` draws the frame count is `k` and the shade index is `ceil(k / 20) mod len`: shade 0 is shown for the first draw only, and after the first frame each shade for 20 draws, cycling through the table |
| Projectiles.Projectile.Radial | src/Projectile.js:29-46 | position kept, velocity scaled by `(H + W) 0.0005`, radius `0.003 H`, the table of its colour name |
| Projectiles.Projectile.Aimed | src/Projectile.js:65-71 | position kept, velocity scaled, radius `0.003 H`, the given colour |
| Projectiles.Projectile.PlayerShot | src/Projectile.js:73-78 | position kept, velocity scaled, radius `0.002 H`, always magenta |
| Projectiles.Projectile.Update | src/Projectile.js:23-26 | the position moves by the velocity once, and the velocity does not change |
| Projectiles.Projectile.Draw | src/Projectile.js:48-62 | only a projectile with a shade table can be drawn; the shade drawn is `Shown` of the old index; the state steps as `DrawStep` says |
| Players.Player.constructor | src/Player.js:5-14 | at `(0, 0)`, radius `0.01 H` of the canvas it is made on, no fire interval |
| Players.Player.Resize | src/Player.js:23-25 | the radius becomes `0.01 H` of the canvas's height at the time of the call, whatever it was before |
| Players.Player.Fire | src/Player.js:26-33 | while paused nothing changes; otherwise two new shots, from `x - r` then `x + r`, straight up at speed 3 scaled for the canvas's current size, after the unchanged existing ones |
| Stars.Star.constructor | src/Star.js:2-9 | for any non-negative canvas size: x in `[0, W)`, y in `[0, H)`, speed in `[0.0005 H, 0.001 H)`, radius in `[0.0001 H, 0.001 H)`; the upper bounds are strict for a positive W and H, and a zero W or H gives the matching values 0 |
| Stars.Star.Update | src/Star.js:11-17 | falls by `velY`; past `H + radius` it re-enters at `-radius` at a new x in `[0, W)`; speed and radius never change; y stays at most `H + radius` |
| Particles.Pow | src/Particle.js:17-18 | a power of a positive factor is positive, and of a factor in `[0, 1]` stays in `[0, 1]` |
| Particles.PowNext | src/Particle.js:17 | one more fading frame makes the power strictly smaller |
| Particles.PowDecreasing | src/Particle.js:17-18 | after more frames a faded quantity is strictly smaller |
| Particles.ShrinkStep | src/Particle.js:17-18 | one more factor `b` in `(0, 1)` on `c * b^k`, for a positive `c`, gives `c * b^(k+1)`, which is positive and smaller |
| Particles.FadeStep | src/Particle.js:17-18 | one frame takes opacity `0.97^k` to `0.97^(k+1)` and radius `r0 * 0.98^k` to `r0 * 0.98^(k+1)`, both positive and strictly smaller |
| Particles.DriftBounds | src/Particle.js:7-8 | each velocity component lies strictly within `0.001 H` either way |
| Particles.SpreadMirror | src/Particle.js:7 | turning the centred draw round turns the drift round |
| Particles.SpreadBelow | src/Particle.js:7 | a drift with a centred draw in `[0, 0.5]` lies in `[0, 0.001 H)` |
| Particles.SparkRadius | src/Particle.js:9 | the radius lies in `[0.002 H, 0.004 H)` |
| Particles.Particle.constructor | src/Particle.js:2-12 | at the given point with the given colour, opacity 1, velocity within `0.001 H`, radius in `[0.002 H, 0.004 H)` |
| Particles.Particle.Update | src/Particle.js:14-19 | moves by its constant velocity; after `k` frames opacity is `0.97^k` and radius is the start radius times `0.98^k`; both stay positive and strictly decrease |
| Prototype.FireCount | src/index.js:75 | a ring has from 1 to 20 projectiles |
| Prototype.FireCountOnto | src/index.js:75 | every count from 1 to 20 occurs, so a ring can have fewer than the 10 the comment claims |
| Prototype.FireAngleSpacing | src/index.js:76-80 | ring angles start at 0, are `2/n` half-turns apart, stay below a full turn, and the `n`-th would close the circle |
| Prototype.TurretSpeed | src/index.js:52 | speed in `[0.001 H, 0.002 H)` |
| Prototype.FireTotalBounds | src/index.js:133-136 | a volley of `k` turrets fires between `k` and `20 k` projectiles |
| Prototype.VolleyDue | src/index.js:133 | the gate opens exactly when more than 5000 ms have passed since the last volley, and never on the first call without a time stamp |
| Prototype.Projectile.constructor | src/index.js:22-28 | position kept, velocity scaled by `(H + W) 0.001`, radius `0.005 H` |
| Prototype.Projectile.Update | src/index.js:40-43 | the position moves by the velocity, and the velocity does not change (`Flew`) |
| Prototype.Turret.constructor | src/index.js:47-53 | y 0, no horizontal speed, x in `[r, W - r)` when the canvas is wide enough, speed in `[0.001 H, 0.002 H)` |
| Prototype.Turret.Update | src/index.js:65-72 | falls by `velY`; past the bottom edge it returns to y 0 with a new x `r W` in `[0, W)` (not the constructor's inset range) and a new speed in `[0.001 H, 0.002 H)`; y stays in `[0, H]` |
| Prototype.Turret.Fire | src/index.js:74-82 | appends `FireCount(r)` new distinct projectiles, projectile `j` at the turret heading `(sin, cos)` of `FireAngle(n, j)`; existing ones are kept |
| Prototype.Game.constructor | src/index.js:16-19 | no turrets, no projectiles, time stamp 0 |
| Prototype.Game.AddTurret | src/index.js:96 | appends one new turret built for the current canvas |
| Prototype.Game.Init | src/index.js:87-100 | takes the canvas size and appends `turretNumber = 5` new turrets after the existing ones, turret `i` at the top of that canvas with the speed its draw gives |
| Prototype.Game.Reset | src/index.js:113-116 | empties both the turret and the projectile collections |
| Prototype.Game.Animate | src/index.js:123-143 | every turret makes its own `update` step (`Stepped`); every projectile already in flight moves one step (`Flew`); only when `VolleyDue`, every turret fires from its new position, turret 0's ring first, then turret 1's and so on after the old projectiles, each new projectile one velocity step past its turret, and the time stamp is kept; otherwise the time stamp and the projectile list are unchanged |
| Prototype.Game.FireAndMove | src/index.js:133-143 | the fire gate: a volley and its first step when `VolleyDue`, otherwise only the step of the projectiles in flight |
| Prototype.Game.FireVolley | src/index.js:133-143 | with the gate open: the turrets' rings in turret order after the old projectiles, the time stamp kept, then every projectile, old and new, one velocity step on |
| Prototype.Game.UpdateVolley | src/index.js:140-143 | after a volley every projectile moves one step and every ring is still its turret's ring, now one step past the turret |
| Prototype.Game.UpdateTurrets | src/index.js:128-131 | every turret falls or wraps as its `update` says |
| Prototype.Game.FireAll | src/index.js:133-136 | `FireTotal` new projectiles after the unchanged existing ones, made of turret 0's ring, then turret 1's, and so on (`Volley`), each ring at its turret's position with `FireCount` of its draw projectiles |
| Prototype.Game.FireNext | src/index.js:134-135 | one `turret.fire()` of the loop: the turret's ring follows the rings already fired, which stay as they were |
| Prototype.Game.UpdateProjectiles | src/index.js:140-143 | every projectile moves by its velocity, which does not change (`Flew`) |

## Left out

- Drawing: every `draw`/`drawBarrel` body, `ctx`, sprite images and `spriteSize`. The only draw state kept is `colourIndex` and `frames` of a radial projectile.
- Real time and the event loop: a timer records its delay, and running it is `Scheduler.Expire`. Which callback the browser runs next is not modelled. Neither is the dispatch from a running timer to the method it names, nor `setInterval` for the player's fire (`startFireInterval`, `clearFireInterval`).
- `Math.cos`, `Math.sin` and `Math.atan2`: angles are symbolic. The prototype's `Math.sin` and `Math.cos` are function parameters.
- Floating point: numbers are reals, so rounding is not modelled. For example, a burst angle within one rounding error of the gap's edge is decided exactly.
- `Math.random()`: every draw is a parameter in [0, 1).
- Game settings: `numRadialProjectiles`, `numAimedProjectiles`, `hardMode` and `paused` come from a settings module that is not part of this model. They are parameters, read at each call as the code reads them. The two counts are whole numbers (`nat`): fractional or negative settings, which the code would accept, are not modelled.
- Turret projectiles: the turrets push `Shot` records holding the constructor arguments of `RadialProjectile` or `AimedProjectile`. Building the projectile object from a record is `Projectile.Radial` or `Projectile.Aimed`, and that step is not performed.
- FireAimed: the contract states `v * dist == 3 * (player - turret)` for the distance `dist`. It does not state that the velocity has length 3, which needs a square root. It requires `dist > 0` because the code divides by the distance without a guard.
- Turret.constructor, Star.constructor, Particle.constructor and the prototype's Turret.constructor: the canvas size is passed in, not read from a canvas element. The player's constructor, `Resize` and `Fire` take the canvas's size at the time of each call in the same way.
- Prototype.Turret: it keeps the canvas size it was built with, while the code reads the current canvas on every call. The code only changes the size in `init`, after `reset` has emptied the turret list.
- Turrets.Turret.Update, Stars.Star.Update: they use the canvas size given to the constructor, while `Turret.js` and `Star.js` read the current canvas on every update. The game's resize handling is not modelled, so the size never changes during a turret's or a star's life. A star's drawn speed and size are bounds in terms of that one size.
- Prototype.Game.Reset: it empties the one shared projectile collection rather than assigning a new array. Every reader of `projectiles` goes through that one collection.
- The prototype's DOM listeners (`onload`, `resize`, `mousemove`), the mouse, `requestAnimationFrame` and `cancelAnimationFrame` are not modelled, and `init` does not start the animation.
- `Turret` colours, `projectileLight`, `projectileSaturation` and the hue bounds are constants folded into `ShotColour`.
- `Player.gameObjects`: only its `playerProjectiles` collection is modelled.

## Findings

| source | as written | input that shows it | evidently intended | confidence | as-written member | corrected member |
|---|---|---|---|---|---|---|
| src/Turret.js:73-77 | the radial turret's palette lists "pink", but the projectile's shade tables are "red", "darkPink" and "magenta" (src/Projectile.js:35-45), so a pink radial projectile has no `colours` and its `draw` reads the length of `undefined` | a colour draw of 0.9 picks index 2, "pink" | the palette names "darkPink", which has a table | not executed | RadialTurrets.PaletteAsWrittenHasNoTable | RadialTurrets.PaletteHasTables |
