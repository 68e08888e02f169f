# Children's dashboard: the three canvas shooters and the dashboard helpers

This Dafny project models the behaviour of a children's dashboard written in React and TypeScript. It covers the rules behind what the dashboard draws:

- **Star Ace** (`components/StarAceGame.tsx`), the main shooter:
  - a difficulty table;
  - auto-fire with wide-shot and double-fire variants;
  - enemy return fire with per-enemy cooldowns;
  - waves spawned by an accumulator whose interval never drops below 800 ms;
  - kills worth 10 that may drop one of four pickups;
  - damage that shield or invulnerability suppresses, and timed effects.
- **The plane game** (`components/PlaneGame.tsx`):
  - one enemy per second;
  - auto-fire whenever the frame crosses a 200 ms boundary;
  - 10 points per hit;
  - game over when an enemy reaches the plane.
- **The space shooter** (`src/sections/SpaceShooterGame.tsx`):
  - three lives and a spawn gap that shrinks with the score;
  - a ship hitbox inset by 10 px;
  - kills worth 10 + 5 × kind;
  - keyboard, mouse and click controls;
  - explosion fragments.
- **The dashboard helpers**:
  - toggling a to-do item, the kept high score and the learning-page content in `App.tsx`;
  - the checklists, activity bars, weekly goal and plan count in `src/sections/ModuleGrid.tsx`;
  - the greeting, weather icon, quote pick and task progress in `src/sections/LegoButler.tsx`.

Each game's session is a class whose fields are the component's refs and state. One call of `Update` (`Frame` for the space shooter) is one animation frame. Coordinates and speeds are `real`, so the arithmetic is exact.

Everything the browser supplies is an input:

- **Clocks.** The frame timestamp and `Date.now()` become the method parameters `time` and `now`.
- **Randomness.** Each session has a constant stream `rnd: nat -> Unit` of values in [0, 1) and a cursor `draws`. Every modelled `Math.random()` call consumes the next value.
- **Explosion directions.** The space shooter's twelve directions (`Math.cos` and `Math.sin` of i × 30°) come from a constant table `heading`.

The arrays are `seq`s. They are updated the way the code updates them:

- **`filter`** becomes `Seqs.Filter`, or `Seqs.MapFilter` when the callback first moves the element.
- **`splice(i, 1)`** becomes `Seqs.RemoveAt`.
- **Splicing inside `forEach`.** This becomes `Seqs.Sweep` and `Seqs.ForEachSplice` in the damage passes. The loop is bounded by the original length, and the element that slides into a removed slot is not visited. Star Ace's kill step is the exception: the session runs the corrected pass `StarAce.KillPass`, and the pass as written is kept in `star_ace_findings.dfy` (see Findings).

Files:

- `seqs.dfy`, `geometry.dfy`, `particles.dfy`: shared array operations, rectangle overlap and clamping, and explosion fragments.
- `star_ace.dfy`: Star Ace's rules and its session.
- `star_ace_findings.dfy`: Star Ace's kill step as written, with the input that exposes it.
- `plane_game.dfy`, `space_shooter.dfy`, `app.dfy`, `module_grid.dfy`, `lego_butler.dfy`: one file per remaining component.

## Model

| member | source | states |
|---|---|---|
| `Seqs.Filter` | components/StarAceGame.tsx:353 | the kept elements come from the input, all satisfy the predicate, and there are no more of them than inputs |
| `Seqs.FilterComplete` | components/StarAceGame.tsx:353 | every input element the predicate accepts survives the filter |
| `Seqs.RemoveAt` | components/StarAceGame.tsx:342-343 | `splice(i, 1)` drops exactly the element at i and shifts the tail left; past the end it changes nothing |
| `Seqs.MapFilter` | components/StarAceGame.tsx:319-322 | a filter whose callback moves each element first keeps only moved forms of input elements that pass the test |
| `Seqs.MapFilterKeeps` | components/StarAceGame.tsx:319-322 | an element's moved form survives exactly when it passes the test |
| `Seqs.Sweep` | components/StarAceGame.tsx:356-366 | the splicing `forEach` (visit up to the original length, remove hits in place) never grows the array |
| `Seqs.Caught` | components/StarAceGame.tsx:356-366 | every element the splicing `forEach` removes satisfied the hit test when visited |
| `Seqs.SweepConserves` | components/StarAceGame.tsx:356-366 | what the splicing `forEach` keeps and what it removes add up to the input |
| `Seqs.ForEachSplice` | components/StarAceGame.tsx:356-366 | the index loop over a shrinking array computes exactly `Sweep` and `Caught` |
| `Seqs.SweepMembers` | components/StarAceGame.tsx:381-404 | a sweep keeps only input elements or the moved forms of visited ones |
| `Seqs.SweepSubset` | components/StarAceGame.tsx:368-378 | a sweep that only removes keeps a subset of its input |
| `Seqs.SweepQuiet` | components/StarAceGame.tsx:381-404 | when nothing visited is hit, the sweep removes nothing and only moves the visited elements |
| `Seqs.SweepUntouched` | components/StarAceGame.tsx:356-366 | with no hits and no movement, a sweep leaves the array as it was |
| `Seqs.SweepSkipsSuccessor` | components/StarAceGame.tsx:356-366 | of two adjacent elements that are both hit, the second is never visited and survives |
| `Seqs.MapWhereTwice` | App.tsx:32 | a selective `map` whose flip undoes itself and keeps the selection is undone by a second pass |
| `Geometry.OverlapsSymmetric` | components/StarAceGame.tsx:355-362 | the strict rectangle test gives the same answer whichever rectangle is written first |
| `Geometry.TouchingDoesNotOverlap` | components/StarAceGame.tsx:335-339 | a rectangle that starts exactly where another ends, on either axis, does not collide with it, because every comparison is strict |
| `Geometry.Clamp` | components/StarAceGame.tsx:561 | `max(lo, min(hi, v))` is v inside the range, lo below it and hi above it |
| `Particles.Tick` | components/StarAceGame.tsx:424-436 | every fragment left after a frame is alive and is the moved, one-frame-older form of an old fragment |
| `Particles.TickKeeps` | src/sections/SpaceShooterGame.tsx:220-231 | a fragment survives the frame exactly when it had more than one unit of life |
| `StarAce.TierOf` | components/StarAceGame.tsx:21-49 | every difficulty has a positive speed, positive rates, a multiplier of at least 1 and a spawn interval above the 800 ms floor |
| `StarAce.TiersEscalate` | components/StarAceGame.tsx:21-49 | medium is strictly harder than easy, and hard than medium, on every column of the table |
| `StarAce.Volley` | components/StarAceGame.tsx:231-259 | one firing adds (wide ? 3 : 1) + (double ? 1 : 0) bullets of 6 × 15 at speed 8, at the nose or 10 px above it, 0 or ±15 px off centre |
| `StarAce.Reloaded` | components/StarAceGame.tsx:268-279 | exactly the enemies that fire (past y = 50 and off cooldown) restart their cooldown at `time`; nothing else about any enemy changes |
| `StarAce.ReturnFire` | components/StarAceGame.tsx:268-279 | each enemy bullet comes from an enemy that fires, at most one per enemy, and there are none exactly when no enemy fires |
| `StarAce.ReturnFirePerFirer` | components/StarAceGame.tsx:268-279 | one round of fire is exactly one bullet per firing enemy, in enemy order: the k-th bullet leaves the k-th enemy that fires |
| `StarAce.ReloadedHoldsFire` | components/StarAceGame.tsx:269-270 | right after a round of fire, no enemy can fire again at the same instant |
| `StarAce.SpawnInterval` | components/StarAceGame.tsx:302 | the wave interval is never below 800 ms and is either 800 or the base interval less the elapsed-time reduction |
| `StarAce.SpawnIntervalShrinks` | components/StarAceGame.tsx:302 | as play time grows, the wave interval never grows |
| `StarAce.WaveSize` | components/StarAceGame.tsx:304-305 | a wave never holds more than 3 enemies |
| `StarAce.WaveSizeGrows` | components/StarAceGame.tsx:304-305 | once play has started every wave has at least one enemy, and it has 3 exactly when gameTime × multiplier reaches 20000 |
| `StarAce.Spawned` | components/StarAceGame.tsx:306-314 | the i-th enemy of a wave starts 40 + 60i px above the canvas, fully hidden, is 40 × 40 with the wave's speed, and carries a pickup exactly when its roll is below 0.25 |
| `StarAce.SpawnedInside` | components/StarAceGame.tsx:307 | on a canvas at least 40 px wide, a spawned enemy lies within the canvas width |
| `StarAce.Wave` | components/StarAceGame.tsx:305-315 | a wave has n enemies; the i-th starts at y = −40 − 60i, fully above the top edge, is 40 × 40 with the wave's speed and a cooldown of 0, and carries a pickup exactly when its draw at 2i + 1 is below 0.25 |
| `StarAce.WaveInside` | components/StarAceGame.tsx:307 | on a canvas at least 40 px wide, every enemy of a wave lies within the canvas width |
| `StarAce.KindOf` | components/StarAceGame.tsx:142-143 | each of the four pickup kinds is chosen for exactly one quarter of [0, 1), in table order |
| `StarAce.Drop` | components/StarAceGame.tsx:144-151 | a pickup is 30 × 30, centred on the kill, falling 3 px per frame, of the chosen kind |
| `StarAce.Healed` | components/StarAceGame.tsx:399-401 | a heal adds one point exactly when health is below 3, so it never raises health above 3 |
| `StarAce.StillOn` | components/StarAceGame.tsx:408-422 | an effect stays on exactly while no more than its duration has passed since it was switched on |
| `StarAce.Spark` | components/StarAceGame.tsx:128-137 | a fragment starts at the explosion centre with 30 frames of life and a speed in [-4, 4) on each axis |
| `StarAce.Burst` | components/StarAceGame.tsx:126-139 | an explosion is fifteen fragments |
| `StarAce.BurstShape` | components/StarAceGame.tsx:126-139 | all fifteen fragments start at the centre, alive, with a speed in [-4, 4) on each axis |
| `StarAce.ReportedCount` | components/StarAceGame.tsx:161-164 | over a run of hits the score is reported on the hit that takes health to 0 and on every later hit, never before; so nothing is reported exactly when no hit takes health to 0 |
| `StarAce.FirstHit` | components/StarAceGame.tsx:334-340 | the index of the first bullet over the enemy, with no bullet before it over the enemy (the length when there is none) |
| `StarAce.Marched` | components/StarAceGame.tsx:330-332 | every enemy keeps its place in the list, takes the frame's current speed and moves down by exactly that much; its x, size, pickup and cooldown stay |
| `StarAce.KillPass` | components/StarAceGame.tsx:329-351 | in the corrected kill step every enemy is either a survivor or a kill, and every kill uses up exactly one bullet |
| `StarAce.KillPassSound` | components/StarAceGame.tsx:330-351 | nothing is made up; no survivor is under a remaining bullet; every kill was under a bullet |
| `StarAce.KillPassSpends` | components/StarAceGame.tsx:343 | the kill pass only ever removes bullets |
| `StarAce.KillPassQuiet` | components/StarAceGame.tsx:330-351 | with no bullet over any enemy, the kill step destroys nothing and spends nothing |
| `StarAce.FindHit` | components/StarAceGame.tsx:334-340 | the inner search loop finds `FirstHit` |
| `StarAce.KillLoop` | components/StarAceGame.tsx:330-351 | the two nested loops compute exactly `KillPass` |
| `StarAce.ReloadLoop` | components/StarAceGame.tsx:268-279 | the enemy firing loop computes exactly `Reloaded` and `ReturnFire` |
| `StarAce.Droppers` | components/StarAceGame.tsx:346-348 | the kills that drop a pickup number at most the kills, and none exactly when no kill carries one |
| `StarAce.Spoils` | components/StarAceGame.tsx:341-348 | the rewards loop over the kills, in kill order, yields exactly `Wreckage` (one explosion on each kill's centre), `Loot` (one pickup for each carrier, its kind drawn after its explosion) and `Spent` draws |
| `StarAce.LootShape` | components/StarAceGame.tsx:126-152 | a run of kills yields 15 fragments per kill and one pickup per carrier, each 30 × 30 and falling at 3 px per frame, and draws 30 values per kill plus one per pickup |
| `StarAce.Session.constructor` | components/StarAceGame.tsx:564-571 | mounting gives a canvas of the parent's width (350 when 0) by 600 and a freshly initialised, inactive game with no difficulty |
| `StarAce.Session.ClearField` | components/StarAceGame.tsx:94-105 | the ship is back 100 px above the bottom, centred, and every list is empty |
| `StarAce.Session.InitGame` | components/StarAceGame.tsx:93-113 | the reset: empty lists, score 0, health 3, every effect off, play time 0, ship at (w/2 − 20, h − 100) |
| `StarAce.Session.SelectDifficulty` | components/StarAceGame.tsx:167-173 | choosing a tier records it, copies its base speed and spawn interval, and shows the start button |
| `StarAce.Session.StartGame` | components/StarAceGame.tsx:573-579 | without a tier nothing happens; otherwise a fresh, active run with the frame clock at `now` |
| `StarAce.Session.HandleTouch` | components/StarAceGame.tsx:548-562 | while running, the ship centres on the touch or cursor position, clamped so it stays inside the canvas; otherwise nothing moves |
| `StarAce.Session.Explode` | components/StarAceGame.tsx:126-139 | fifteen fragments are appended, drawing two random values each |
| `StarAce.Session.SpawnPowerup` | components/StarAceGame.tsx:141-152 | exactly one pickup of the kind drawn is appended at the kill |
| `StarAce.Session.TakeDamage` | components/StarAceGame.tsx:154-165 | health drops by one, invulnerability restarts at `now`, an explosion is added at the ship, and at 0 or below the game stops and reports the score |
| `StarAce.Session.Shoot` | components/StarAceGame.tsx:226-261 | fires exactly when more than 100 ms (double fire) or 200 ms has passed, appending `Volley` and restarting the cooldown; otherwise nothing changes |
| `StarAce.Session.EnemyShoot` | components/StarAceGame.tsx:263-280 | with a tier chosen, the enemies become `Reloaded` and `ReturnFire` is appended; without one nothing changes |
| `StarAce.Session.MakeWave` | components/StarAceGame.tsx:305-315 | the wave loop builds exactly `Wave` |
| `StarAce.Session.SpawnWave` | components/StarAceGame.tsx:301-317 | the accumulator grows by the delta; past the interval a wave is appended and it restarts at 0 |
| `StarAce.Session.Reward` | components/StarAceGame.tsx:341-348 | each kill adds 10 points; the fragments and pickups appended are exactly those of `Spoils`, drawn from the cursor on, and the cursor moves past them |
| `StarAce.Session.ResolveKills` | components/StarAceGame.tsx:329-351 | the corrected kill step leaves `KillPass`'s survivors and bullets over the marched enemies, scores 10 per kill, and appends exactly the fragments and pickups of its kills |
| `StarAce.Session.Damage` | components/StarAceGame.tsx:355-379 | n hits cost n health and n explosions, and report the score once per hit at or below 0 health |
| `StarAce.Session.BulletHits` | components/StarAceGame.tsx:356-366 | the splicing enemy-bullet pass removes the bullets it meets on the ship, each costing one point of health |
| `StarAce.Session.BodyHits` | components/StarAceGame.tsx:368-378 | the splicing enemy pass removes the enemies it meets on the ship, each costing one point of health |
| `StarAce.Session.ApplyPickup` | components/StarAceGame.tsx:390-401 | double fire, wide shot and shield switch on and restart at `now` without adding time; heal adds one below the maximum |
| `StarAce.Session.ApplyAll` | components/StarAceGame.tsx:381-404 | the caught pickups switch on their effects, and heals raise health by their number capped at 3 |
| `StarAce.Session.PickupPass` | components/StarAceGame.tsx:381-404 | pickups fall and those on the ship are removed and applied; health stays at most 3 |
| `StarAce.Session.ExpireEffects` | components/StarAceGame.tsx:408-422 | each effect goes off only once strictly more than its duration (1500 or 10000 ms) has passed; the switch-on times stay |
| `StarAce.Session.Reinforce` | components/StarAceGame.tsx:301-317 | the spawn accumulator at the tier's interval, wave size and speed for the play time so far: past the interval exactly `Wave` is appended, the draws advance by two per enemy and the accumulator restarts; otherwise it only grows by the delta |
| `StarAce.Session.Fly` | components/StarAceGame.tsx:319-327 | both bullet lists are exactly the moved bullets still on the canvas: every player bullet in flight, every enemy bullet above the cut-off line |
| `StarAce.Session.Advance` | components/StarAceGame.tsx:288-327 | the clocks advance by the delta, and afterwards every player bullet is in flight and every enemy bullet is above the cut-off line |
| `StarAce.Session.Strike` | components/StarAceGame.tsx:329-353 | at the current enemy speed, the enemies left are the on-canvas survivors of the corrected kill step, the bullets are its bullets, the score rises by 10 per kill and the rewards are exactly those of the kills; the score never falls, bullets stay in flight and every enemy is above the bottom edge |
| `StarAce.Session.Hurt` | components/StarAceGame.tsx:355-379 | under shield or invulnerability nothing changes; otherwise the enemy bullets and the enemies are those the two splicing passes leave, and health drops by one per bullet and per enemy they remove; enemy bullets are never added, health never rises and reports are only appended |
| `StarAce.Session.Fight` | components/StarAceGame.tsx:329-379 | the kill step then the damage step keep the invariant, never lower the score, leave health alone under shield or invulnerability, keep bullets in flight and above the cut-off line, and leave every enemy above the bottom edge |
| `StarAce.Session.Collect` | components/StarAceGame.tsx:381-406 | health never falls, and every pickup left is above its cut-off line |
| `StarAce.Session.Settle` | components/StarAceGame.tsx:381-436 | health never falls, every pickup left is above its cut-off line, and the fragments become `Tick` of the old ones, so every fragment left is alive |
| `StarAce.Session.Update` | components/StarAceGame.tsx:282-546 | an idle game is unchanged; a frame keeps the invariant and the tier and never lowers the score; under shield or invulnerability it never lowers health; a running frame advances both clocks and leaves only in-flight player bullets, enemy bullets above the cut-off line, live fragments, and on-canvas enemies and pickups; reports are only appended |
| `StarAceFindings.InnerAsWritten` | components/StarAceGame.tsx:334-350 | as written, every hit of the inner loop is the same enemy and spends one bullet |
| `StarAceFindings.OuterAsWritten` | components/StarAceGame.tsx:330-351 | as written, the bullets spent equal the hits recorded |
| `StarAceFindings.KillPassAsWritten` | components/StarAceGame.tsx:330-351 | as written, each hit spends exactly one bullet |
| `StarAceFindings.VolleyOnTarget` | components/StarAceGame.tsx:231-240 | a wide volley from under the target covers it with all three bullets and misses the bystander |
| `StarAceFindings.AsWrittenDoubleKill` | components/StarAceGame.tsx:330-351 | as written, that volley scores the target twice and also removes the untouched bystander |
| `StarAceFindings.CorrectedSingleKill` | components/StarAceGame.tsx:330-351 | the corrected kill step destroys the target once and keeps the bystander and two bullets |
| `StarAceFindings.AsWrittenSkipsSuccessor` | components/StarAceGame.tsx:330-343 | as written, one bullet on the target lets the bystander slide into the target's slot unvisited, so it neither steps nor meets the bullets; the corrected step moves it |
| `PlaneGame.Arrival` | components/PlaneGame.tsx:80-87 | a new enemy is 40 × 40, just above the canvas, with a speed in [2, 4) |
| `PlaneGame.Shot` | components/PlaneGame.tsx:93-100 | a bullet is 10 × 20 at speed 7, centred on the plane's nose |
| `PlaneGame.FiresWhenCrossing` | components/PlaneGame.tsx:92 | a frame that crosses a multiple of 200 ms fires |
| `PlaneGame.QuietInsideSlot` | components/PlaneGame.tsx:92 | a frame that stays within one 200 ms slot does not fire |
| `PlaneGame.Climbed` | components/PlaneGame.tsx:104-109 | the bullets left are live bullets moved up by their speed |
| `PlaneGame.ClimbedExact` | components/PlaneGame.tsx:104-109 | a bullet survives exactly when it was below y = -20, and it is then 7 px higher |
| `PlaneGame.ClimbedShapes` | components/PlaneGame.tsx:104-109 | the bullet step keeps every bullet's shape |
| `PlaneGame.Shots` | components/PlaneGame.tsx:129-141 | the inner loop scores 10 per bullet spent and never grows either array |
| `PlaneGame.Encounters` | components/PlaneGame.tsx:112-142 | the enemy pass scores 10 per bullet spent, never grows either array, and only appends reports |
| `PlaneGame.ReportsBetween` | components/PlaneGame.tsx:118-141 | every score reported during the pass lies between the score before and the score after it |
| `PlaneGame.FirstCrashReported` | components/PlaneGame.tsx:118-126 | when the enemy visited at any step falls onto the plane, the pass reports the score it had at that step, right after the earlier reports |
| `PlaneGame.EncountersQuiet` | components/PlaneGame.tsx:112-142 | with no crash and no bullet over any enemy, the pass only moves the enemies down |
| `PlaneGame.ShotsMiss` | components/PlaneGame.tsx:129-141 | bullets that all miss leave the inner loop's state untouched |
| `PlaneGame.ShotsShapes` | components/PlaneGame.tsx:129-141 | the inner loop keeps every shape |
| `PlaneGame.EncountersShapes` | components/PlaneGame.tsx:112-142 | the enemy pass keeps every enemy and bullet shape |
| `PlaneGame.EncounterLoop` | components/PlaneGame.tsx:112-142 | the two nested loops compute exactly `Encounters` |
| `PlaneGame.Session.constructor` | components/PlaneGame.tsx:154-161 | mounting gives a canvas of the parent's width (350 when 0) by 500 and a fresh, inactive game |
| `PlaneGame.Session.InitGame` | components/PlaneGame.tsx:26-39 | the plane at (w/2 − 20, h − 80), no bullets, no enemies, score 0 |
| `PlaneGame.Session.StartGame` | components/PlaneGame.tsx:163-170 | a fresh, active run with the frame clock at `now` |
| `PlaneGame.Session.HandleTouch` | components/PlaneGame.tsx:41-55 | while running, the plane centres on the touch or cursor position, clamped to [0, width − 40] |
| `PlaneGame.Session.Spawn` | components/PlaneGame.tsx:78-89 | past 1000 ms exactly one `Arrival` is appended and the accumulator restarts at 0; otherwise it only grows |
| `PlaneGame.Session.AutoFire` | components/PlaneGame.tsx:92-101 | exactly one bullet is appended when the frame crosses a 200 ms boundary, none otherwise |
| `PlaneGame.Session.Collide` | components/PlaneGame.tsx:112-142 | the pass's result becomes the state, a crash stops the game, and every report lies between the old and the new score |
| `PlaneGame.Session.Update` | components/PlaneGame.tsx:57-152 | an idle game is unchanged; a running frame never lowers the score and leaves every enemy above the bottom edge; a stopped game stays stopped |
| `SpaceShooter.Bounty` | src/sections/SpaceShooterGame.tsx:210 | a kill is worth at least 10 |
| `SpaceShooter.Bounties` | src/sections/SpaceShooterGame.tsx:199-216 | a run of kills is worth at least 10 each |
| `SpaceShooter.SpawnGapRange` | src/sections/SpaceShooterGame.tsx:138 | the spawn gap lies in [700, 1500] ms and never grows with the score |
| `SpaceShooter.Kind` | src/sections/SpaceShooterGame.tsx:139 | the kind roll always indexes the five-emoji table |
| `SpaceShooter.KindBands` | src/sections/SpaceShooterGame.tsx:139 | each kind is chosen for exactly one fifth of [0, 1) |
| `SpaceShooter.Arrival` | src/sections/SpaceShooterGame.tsx:139-147 | a new enemy is 35 × 35 at y = -40, within [0, 360), of a valid kind |
| `SpaceShooter.Blast` | src/sections/SpaceShooterGame.tsx:94-107 | an explosion is twelve fragments |
| `SpaceShooter.BlastShape` | src/sections/SpaceShooterGame.tsx:94-107 | every fragment starts at the centre with a life of 30 |
| `SpaceShooter.Debris` | src/sections/SpaceShooterGame.tsx:167 | the explosions of n enemies are 12n fragments |
| `SpaceShooter.DebrisFresh` | src/sections/SpaceShooterGame.tsx:94-107 | every fragment of every explosion starts with the full life of 30 |
| `SpaceShooter.DescentPartition` | src/sections/SpaceShooterGame.tsx:152-187 | a fallen enemy is removed as a crash exactly when it touches the inset ship, and kept exactly when it does not and is not below the canvas |
| `SpaceShooter.SalvoFrom` | src/sections/SpaceShooterGame.tsx:190-217 | the bullet filter never keeps more bullets than it was given |
| `SpaceShooter.Salvo` | src/sections/SpaceShooterGame.tsx:190-217 | the frame's bullet filter keeps at most the bullets it had |
| `SpaceShooter.SalvoConserves` | src/sections/SpaceShooterGame.tsx:199-214 | every enemy is either left or shot, once, and none is made up; every enemy shot overlapped a bullet of the pass after its move |
| `SpaceShooter.SalvoShotsHit` | src/sections/SpaceShooterGame.tsx:199-214 | the pass only appends to the kills, and every enemy it shoots was under one of the frame's bullets after their move |
| `SpaceShooter.PierceRule` | src/sections/SpaceShooterGame.tsx:199-216 | one bullet's step: it is kept exactly when it is still below y = −10 and overlaps no enemy left; an enemy stays exactly when the bullet misses it; the new kills are enemies under the bullet |
| `SpaceShooter.SalvoClears` | src/sections/SpaceShooterGame.tsx:199-216 | no enemy left is under any bullet of the frame |
| `SpaceShooter.SalvoKept` | src/sections/SpaceShooterGame.tsx:216 | every bullet kept is a moved bullet still below y = −10 (`PierceRule` gives the converse rule for each step) |
| `SpaceShooter.SalvoLoop` | src/sections/SpaceShooterGame.tsx:190-217 | the bullet loop computes exactly `Salvo` |
| `SpaceShooter.KeyOf` | src/sections/SpaceShooterGame.tsx:270-298 | a key is ignored exactly when it is none of the arrows, a, d, w, s or space |
| `SpaceShooter.Session.constructor` | src/sections/SpaceShooterGame.tsx:33-51 | the initial state: not playing, score 0, high score 1250, three lives, ship at (200, 350), speed 1, empty lists |
| `SpaceShooter.Session.StartGame` | src/sections/SpaceShooterGame.tsx:60-77 | a running game with three lives, score 0, the ship at (180, 390), empty lists, speed 1.5 and zeroed timers |
| `SpaceShooter.Session.Restart` | src/sections/SpaceShooterGame.tsx:66-76 | the fresh game record: ship at (180, 390), empty lists, speed 1.5, timers and frame count 0 |
| `SpaceShooter.Session.TogglePause` | src/sections/SpaceShooterGame.tsx:80-82 | the pause flag flips |
| `SpaceShooter.Session.ResetGame` | src/sections/SpaceShooterGame.tsx:85-91 | back to not playing, not paused, not over, with three lives and score 0 |
| `SpaceShooter.Session.Explode` | src/sections/SpaceShooterGame.tsx:94-107 | exactly the twelve fragments of `Blast` are appended, one speed draw each |
| `SpaceShooter.Session.Spawn` | src/sections/SpaceShooterGame.tsx:138-149 | once the score's gap has passed, exactly one enemy is added and the spawn time refreshed; otherwise nothing changes |
| `SpaceShooter.Session.Crash` | src/sections/SpaceShooterGame.tsx:160-179 | a crash explodes, costs one life, ends the game at 0 lives, and then raises the high score only for a higher score |
| `SpaceShooter.Session.Crashes` | src/sections/SpaceShooterGame.tsx:152-187 | n crashes cost n lives and n explosions, with the same end-of-game rule |
| `SpaceShooter.Session.Rewards` | src/sections/SpaceShooterGame.tsx:199-214 | each kill explodes and adds its bounty |
| `SpaceShooter.Session.Descend` | src/sections/SpaceShooterGame.tsx:152-187 | enemies fall; those on the inset ship crash, those below the canvas go, and every enemy left is within the canvas height |
| `SpaceShooter.Session.Strike` | src/sections/SpaceShooterGame.tsx:189-217 | the bullet filter's result becomes the state; the score never falls and no enemy is made up; every bullet left is above y = -10 and overlaps no enemy left |
| `SpaceShooter.Session.Frame` | src/sections/SpaceShooterGame.tsx:110-260 | an idle loop changes nothing; a frame counts itself, keeps the invariant, never lowers the score or high score, never adds lives, leaves every enemy within the canvas height, every bullet above y = -10 and clear of every enemy, and every fragment alive; an ended game stays ended |
| `SpaceShooter.Session.Battle` | src/sections/SpaceShooterGame.tsx:151-217 | the two collision filters keep the invariant, never lower the score or high score, never add lives, keep an ended game ended, leave every enemy within the canvas height and every bullet above y = -10 and clear of every enemy |
| `SpaceShooter.Session.HandleKey` | src/sections/SpaceShooterGame.tsx:263-299 | each arrow or WASD key moves the ship by 15 on one axis, clamped to [0, 360] × [0, 410]; space fires; any other key, or a stopped game, changes nothing |
| `SpaceShooter.Session.Fire` | src/sections/SpaceShooterGame.tsx:287-296 | after more than 200 ms exactly one 8 × 15 bullet appears at the ship's centre and the shot time is refreshed; otherwise nothing changes |
| `SpaceShooter.Session.HandleClick` | src/sections/SpaceShooterGame.tsx:323-335 | a click fires under the same cooldown while the game runs, and does nothing otherwise |
| `SpaceShooter.Session.HandleMove` | src/sections/SpaceShooterGame.tsx:310-315 | while running, the ship centres on the touch or cursor position, clamped to [0, 360] |
| `App.ToggleTask` | App.tsx:31-33 | only every task with that id flips `completed`; length, order and every other field stay |
| `App.ToggleTaskTwice` | App.tsx:31-33 | toggling the same id twice restores the list |
| `App.ToggleUnknown` | App.tsx:31-33 | toggling an id no task carries changes nothing |
| `App.NextHighScore` | App.tsx:35-40 | the new high score is the larger of the old one and the score |
| `App.NextHighScoreSettles` | App.tsx:35-40 | repeating with the same or a lower score changes nothing |
| `App.Dashboard.constructor` | App.tsx:13-21 | the stored high score, nothing written yet, and exactly the four tasks of the day, with distinct ids and only the second done |
| `App.Dashboard.Toggle` | App.tsx:31-33 | the list of tasks becomes `ToggleTask` of the old list |
| `App.Dashboard.HandleGameOver` | App.tsx:35-40 | the high score becomes the maximum, and it is written to storage only when the score is strictly higher |
| `App.Content` | App.tsx:147-154 | every subject has a page with a title and three non-empty items |
| `App.ContentDistinct` | App.tsx:148-153 | no two subjects share a page title |
| `ModuleGrid.ToggleHomework` | src/sections/ModuleGrid.tsx:26-30 | only the items with the id flip `done`; length, order and every other field stay |
| `ModuleGrid.ToggleHomeworkTwice` | src/sections/ModuleGrid.tsx:26-30 | ticking the same item twice restores the checklist |
| `ModuleGrid.WeeklyBoxes` | src/sections/ModuleGrid.tsx:115-123 | there are `weeklyGoal` boxes and box i is filled exactly when i < weeklyDone |
| `ModuleGrid.WeeklyFilled` | src/sections/ModuleGrid.tsx:115-123 | the number of filled boxes is weeklyDone capped at the goal |
| `ModuleGrid.BarWidth` | src/sections/ModuleGrid.tsx:144 | for a progress of 0 or more, the bar width lies in [0, 100] |
| `ModuleGrid.BarFullIffComplete` | src/sections/ModuleGrid.tsx:135-144 | the bar is full exactly when the activity is shown as complete (current ≥ target) |
| `ModuleGrid.TogglePlan` | src/sections/ModuleGrid.tsx:266-270 | only the plans with the id flip `done`; length, order and every other field stay |
| `ModuleGrid.TogglePlanTwice` | src/sections/ModuleGrid.tsx:266-270 | toggling the same plan twice restores the list |
| `ModuleGrid.CompletedCount` | src/sections/ModuleGrid.tsx:272 | the count never exceeds the number of plans |
| `ModuleGrid.CompletedCountSplits` | src/sections/ModuleGrid.tsx:272 | done and open plans add up to the list; the count is the whole list exactly when all are done, and 0 exactly when none is |
| `ModuleGrid.ToggleOpenCounts` | src/sections/ModuleGrid.tsx:266-272 | ticking off an open plan with a unique id raises the count by one |
| `ModuleGrid.PlanWidth` | src/sections/ModuleGrid.tsx:295 | the plan bar has a width exactly when there are plans, and it lies in [0, 100] |
| `LegoButler.Greeting` | src/sections/LegoButler.tsx:40-43 | 早上好 exactly before 12, 下午好 exactly from 12 to before 18, 晚上好 exactly from 18 |
| `LegoButler.WeatherIcon` | src/sections/LegoButler.tsx:84-87 | the sun exactly from 6 to before 18, a cloud otherwise |
| `LegoButler.AfternoonIsSunny` | src/sections/LegoButler.tsx:84-87 | every afternoon greeting comes with the sun; every evening greeting, and every hour before 6, with the cloud |
| `LegoButler.PickIndex` | src/sections/LegoButler.tsx:46 | `floor(r × n)` for r in [0, 1) is a valid index of a non-empty list |
| `LegoButler.Quote` | src/sections/LegoButler.tsx:24-46 | the quote shown is one of the six quotes |
| `LegoButler.ToggleTask` | src/sections/LegoButler.tsx:63-67 | only every task with that id flips `completed`; length, order and every other field stay |
| `LegoButler.ToggleTaskTwice` | src/sections/LegoButler.tsx:63-67 | toggling the same id twice restores the list |
| `LegoButler.CompletedCount` | src/sections/LegoButler.tsx:90 | the count never exceeds the number of tasks |
| `LegoButler.Progress` | src/sections/LegoButler.tsx:91 | the progress exists exactly for a non-empty list and lies in [0, 100] |
| `LegoButler.PercentEnds` | src/sections/LegoButler.tsx:91 | a share of n out of len is 100% only for n = len and 0% only for n = 0 |
| `LegoButler.ProgressEnds` | src/sections/LegoButler.tsx:90-91 | the bar is full exactly when every task is done, and empty exactly when none is |
| `LegoButler.StartsEmpty` | src/sections/LegoButler.tsx:15-19 | the card starts at 0% |

## Left out

- **Drawing.** All canvas drawing is left out: `ctx.*`, the Star Ace starfield (`drawStars`), the blinking ship, pickup glyphs, fragment alpha, size and colour, and emojis. The random draws made only for drawing are not consumed from `rnd`, so `rnd`'s indices are those of the modelled calls only:
  - the 400 starfield draws in `initGame`;
  - the size and colour draws of a Star Ace fragment;
  - the star re-position in `drawStars`.

  The difficulty buttons' labels are display text and are left out too.

  The plane game's emoji draw does change the sequence, so `PlaneGame.Session.Spawn` consumes it (three draws per enemy).
- **React scheduling and stale closures.** State is modelled as plain fields, updated at once. The components' closures can instead read render-time values:
  - `StarAce.Session.TakeDamage`: reads the current health, not the render-time `playerHP` (components/StarAceGame.tsx:155). In the source, several hits in one frame all set health to the same render-time value less one.
  - `StarAce.Session.ApplyPickup`: the heal branch likewise reads the current health, not the render-time value (components/StarAceGame.tsx:399).
  - `StarAce.Session.Update` and `PlaneGame.Session.Update`: model the frame as it runs on the current `gameActive` flag. The scheduled `update` closure (components/StarAceGame.tsx:545, components/PlaneGame.tsx:151) captured the flag from the render before the game started. In the source, that first scheduled `update` therefore returns at components/StarAceGame.tsx:283 without rescheduling itself, so no frame runs; the model shows the frame the code evidently intends.
  - `SpaceShooter.Session.Frame`: reads the current score and high score, not the values captured by `useCallback`. It applies `setScore`/`setLives` updates at once. The scheduling of several loops by the effect is not modelled.
- **Splicing passes on local copies.** Star Ace's kill, damage and pickup passes and the space shooter's bullet filter run on local copies. Their side effects are applied afterwards, in the same order: explosions, score, pickups, damage and pickup effects. For the damage and pickup passes and the bullet filter the result is the same, because those effects touch nothing the passes read. Star Ace's kill step also differs in what it removes and scores; see `StarAce.Session.ResolveKills` below.
- **Clocks.** Each frame reads one `now` for every `Date.now()` call it makes, for example the two calls at src/sections/SpaceShooterGame.tsx:138 and 148.
- **Guards.** The null guards on the canvas, its 2-D context and `touches[0]` are left out. The event's `clientX` and the canvas's left edge are parameters.
- **Unused state.** Star Ace's unused `lastEnemyShootRef` (components/StarAceGame.tsx:83) is left out. Health may go below 0, as in the source.
- **Explosion directions.** `Math.cos`/`Math.sin` of the space shooter's explosion angles are the input table `heading`, since Dafny has no trigonometry.
- **Storage and number parsing.** `localStorage` is modelled only as the sequence `saved` of values written by `handleGameOver`. The stored value arrives already parsed, and `parseInt` returning `NaN` is not modelled.
- **Division by zero.** `0 / 0` in the progress bars of an empty list is modelled as `None` (`LegoButler.Progress`, `ModuleGrid.PlanWidth`).
- `ModuleGrid.BarWidth`: requires a positive target, because with target 0 the source yields `Infinity` or `NaN`, which `real` cannot represent.
- **Fixed lists.** The study card's subject list and the sports card's activity list are data with no behaviour.
- **Outside the model.** These parts of the dashboard are not part of this model:
  - the inspiration service and its network call;
  - the clock interval of the butler card;
  - gsap animations and the hero and footer sections;
  - section navigation.
- **Number precision.** JavaScript numbers are IEEE doubles; the model's `real`s are exact, so no claim is made about rounding.
- `StarAce.Session.ResolveKills`: runs the corrected pass `KillPass(Marched(enemies, speed), bullets)`, not the nested `forEach` of components/StarAceGame.tsx:330-351 (modelled as written in `StarAceFindings.OuterAsWritten`). It differs in two ways. (1) After a kill at index eIdx, the source never visits the enemy that slides into eIdx, so that enemy neither moves nor meets the bullets in that frame; the model moves every enemy and checks it against the bullets. (2) The source scores 10 for every further bullet over an enemy already hit, and each such hit splices whatever enemy now sits at eIdx; the model destroys each enemy at most once. `StarAce.Session.Strike` and `StarAce.Session.Update` inherit both differences.
- `PlaneGame.Encounters`: follows the enemy pass exactly as written, including the splice at the enemy's index on every further bullet hit (the same quirk as the Star Ace finding below).

## Findings

| source | as written | input that shows it | evidently intended | confidence | as-written member | corrected member |
|---|---|---|---|---|---|---|
| components/StarAceGame.tsx:330-351 | After a bullet destroys an enemy, the inner `forEach` keeps testing the same enemy against the remaining bullets. Every further overlap scores 10 again and splices whatever enemy now occupies the destroyed one's index. | A wide volley whose three bullets all cover an enemy at index 0, with a second enemy 200 px to the right (`Target`, `Bystander`, `Volley3`): the frame scores 20, spends two bullets and removes the untouched bystander. | Each enemy is destroyed at most once, by the first bullet over it; only that enemy and that bullet are removed. | not executed | `StarAceFindings.AsWrittenDoubleKill` | `StarAce.KillPassSound` |
| components/StarAceGame.tsx:330-343 | After a kill, `splice(eIdx, 1)` slides the next enemy into index eIdx while the outer `forEach` moves on to eIdx + 1, so that enemy is skipped for the frame: it does not step and does not meet the bullets. | One bullet over `Target` at index 0, with `Bystander` after it: the bystander ends the frame where it was, unmoved. | Every enemy steps once per frame and meets the bullets. | not executed | `StarAceFindings.AsWrittenSkipsSuccessor` | `StarAce.KillPass` |
