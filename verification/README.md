# Infinite Jump — a verified model of the game core

This project models the simulation and economy core of `InfiniteJumpGame`
(`game.js`), a one-button endless jumper. The core covers:

- the per-frame step `updateGame(deltaTime)`: horizontal control with damping,
  gravity, the wall clamp, the first-match platform landing with the jetpack
  cadence, the diamond pickup, distance and milestone coins, the level, the
  camera scroll, the game-over test and the prune-and-spawn of platforms;
- the run's life cycle: `startGame` with its platform seeding, `pauseGame`,
  `resumeGame`, `gameOver` and the `gameState` stores made by `showScreen`;
- spending: `buyItem` and the coin guard of `redeemPrize`.

The project is organised as follows:

- `entities.dfy` (`Entities`) holds the records and the constants.
- `physics.dfy` (`Physics`) holds the motion, landing and pickup rules.
- `progression.dfy` (`Progression`) holds distance, milestone coins and levels.
- `generation.dfy` (`Generation`) holds new platforms, seeding, the scroll and prune-and-spawn.
- `economy.dfy` (`Economy`) holds the shop.
- `game.dfy` (`Game`) holds the `InfiniteJumpGame` class.

The class keeps the source's fields and updates them in place. Its methods
keep the source's loops (the landing scan with `break`, the reverse diamond
scan, the scroll loops, the seeding loop). Each method is proved equal to the
pure rule it implements, and the properties are proved about those rules.

Coordinates and speeds are exact `real`s, with y growing downwards as on the
canvas. Each `Math.random()` result is a parameter in [0, 1). One platform
creation consumes three of them (`PlatformDraw`: x, colour, diamond).

The state machine is modelled as written. `showScreen` stores the screen's
name as the state, so `pauseGame` ends in the pause screen's state and never
in `Paused`. `resumeGame` waits for `Paused` and so never resumes a paused run
(`Game.PauseThenResume`). A pause-and-resume cycle that returns to the run is
what one would expect, but the code does not do it, and the model follows the
code. `startGame` still ends in `Playing`, because it sets that state after
showing the game screen.

The code also goes on generating platforms in the tick that ends the run.

## Model

| member | source | states |
|---|---|---|
| Physics.Steer | game.js:490-496 | the horizontal speed the keys ask for: ∓7 while a key is held (left wins), otherwise 0.9 times the old speed; what it does to the player is stated by `Physics.Move` |
| Physics.Move | game.js:489-513 | gravity adds 0.4 to vy and the new vy moves y; with vx the speed `Physics.Steer` asks for, a step that stays on the canvas moves x by vx and keeps vx, a step past the left wall (on a canvas at least 35 wide) puts x at 0 with vx = 0, and a step past the right wall puts x at width − 35 with vx = 0; on a canvas at least 35 wide the player ends inside it |
| Physics.LandsOn | game.js:521-525 | the landing test: feet within 5 of the platform's top, horizontal overlap, falling; the choice it drives is stated by `Physics.FirstLanding` and `Physics.EarlierPlatformWins` |
| Physics.JetpackStep | game.js:531-538 | the jetpack counter step and boost flag; stated by `Physics.JetpackLanding`, `Physics.CounterFromReset` and `Physics.EveryThirdLandingBoosted` |
| Physics.LandingResponse | game.js:527-538 | the player and power-ups after landing on a platform; stated by `Physics.Land` |
| Physics.FirstLanding | game.js:518-542 | the responding platform is the lowest index passing the landing test; no platform before it passes; none responds iff no platform passes |
| Physics.Land | game.js:518-542 | with no qualifying platform nothing changes; otherwise the player's bottom edge is on the first qualifying platform and vy is the jump force, 1.5 times it only with the jetpack; x, vx, jump force and owned power-ups are kept; without the jetpack the counter is kept; a counter in 0..2 stays in 0..2 |
| Physics.CounterFromReset | game.js:531-538 | from the reset value 0, the jetpack counter after n landings is n mod 3, so it stays in 0..2 |
| Physics.EveryThirdLandingBoosted | game.js:531-538 | landing n of a run is boosted exactly when n is a multiple of 3, and a boosted landing resets the counter |
| Physics.JetpackLanding | game.js:531-538 | with the jetpack owned, a landing advances the counter mod 3 and is boosted (1.5 times the jump force) exactly when the counter was 2 |
| Physics.EarlierPlatformWins | game.js:518-542 | if platform i qualifies, the responding platform is at or before i, and whatever follows i cannot change the choice |
| Physics.Mark | game.js:548-554 | one diamond after the scan: it keeps its position, and it is collected iff it was already or it overlaps the player |
| Physics.CountPicked | game.js:548-556 | the number of awards is at most the number of diamonds; the exact accounting is stated by `Physics.PickupConservation` and `Physics.NoDoubleAward` |
| Physics.CollectAll | game.js:545-560 | the scan keeps every diamond's position; a diamond is collected afterwards iff it was before or it overlaps the player |
| Physics.PickupConservation | game.js:545-560 | every award matches exactly one diamond turning collected |
| Physics.NoDoubleAward | game.js:545-560 | a collected diamond never awards again: a second scan from the same position awards nothing, and from any position no more than before |
| Progression.DistanceDelta | game.js:563 | a tick never scrolls backwards for a non-negative speed and time, and one 16 ms frame at speed 1 scrolls exactly 2.8 |
| Progression.FrameRateIndependent | game.js:562-565 | a property of the per-frame distance `DistanceDelta`: it is linear in the elapsed time, so in exact arithmetic at a fixed game speed the per-frame distances of any split of an elapsed time add up to the distance of the whole |
| Progression.TruncRem | game.js:572 | JavaScript `%`: the remainder has the dividend's sign, is smaller than the divisor, and the dividend minus it is a multiple of the divisor, which determines it uniquely |
| Progression.MilestoneCoins | game.js:569-571 | the reward is a non-negative even number of coins, positive exactly once the next 100 m boundary is reached; its value is stated by `Progression.MilestoneRule` |
| Progression.NextWatermark | game.js:572 | the watermark never falls, and never passes a non-negative metre count; its value is stated by `Progression.MilestoneRule` |
| Progression.MilestoneRule | game.js:567-575 | below the next 100 m boundary nothing changes; past it the coins are 2·⌊(m − watermark)/100⌋ and the watermark becomes the multiple of 100 in (m − 100, m]; the coins are exactly those of the boundaries passed; the watermark stays a non-negative multiple of 100 and never falls |
| Progression.MilestoneExample | game.js:567-575 | from watermark 200, reaching 460 m awards 4 coins and moves the watermark to 400 |
| Progression.LevelFor | game.js:605 | level r is the one whose span [500 (r − 1), 500 r) holds the score |
| Progression.NextLevel | game.js:604-608 | the level never falls; it changes only to ⌊score/500⌋ + 1 when that is higher |
| Progression.LevelMonotone | game.js:605 | a higher score never gives a lower level |
| Progression.GapFor | game.js:609-612 | the gap a level sets; stated by `Progression.GapAndSpeedBounds` |
| Progression.SpeedFor | game.js:613 | the game speed a level sets; stated by `Progression.GapAndSpeedBounds` |
| Progression.GapAndSpeedBounds | game.js:609-613 | from level 1 the gap lies in [140, 350], grows with the level and reaches 350 exactly from level 13; the speed is at least 1 and grows with the level |
| Generation.PlatformX | game.js:322-325 | a new platform's x lies between the 40-unit insets; on a canvas narrower than 170 the range is reversed |
| Generation.ColorIndex | game.js:354-357 | the colour draw picks a valid palette index |
| Generation.NewPlatform | game.js:322-335 | a new platform is at the given y, and on a canvas at least 170 wide its x lies between the insets |
| Generation.SpawnedDiamonds | game.js:337-340 | at most one diamond, the new platform's own, present exactly when the draw is below 0.3 |
| Generation.DiamondFor | game.js:343-352 | a new diamond is centred over its platform, lies within its width, sits 8 above its top and is uncollected |
| Generation.InitialPlatform | game.js:306-313 | the first platform is centred under the player, its top at the player's feet, in the first palette colour |
| Generation.InitialPlatformCatchesPlayer | game.js:306-313 | the first platform's top is the player's bottom edge and it spans the player |
| Generation.SeedRun | game.js:306-320 | seeding makes one platform per draw after the first one, and at most one diamond per draw in all |
| Generation.SeedRunLadder | game.js:315-319 | seeded platform k sits exactly k gaps above the first |
| Generation.SeedRunDiamonds | game.js:336-352 | every seeded diamond is uncollected and belongs to one of the new platforms, never to the first, whose diamond draw was below 0.3 |
| Generation.SeedRunDiamondsPresent | game.js:336-340 | every seeded platform whose diamond draw is below 0.3 carries its diamond |
| Generation.SeedRunDiamondExactly | game.js:336-340 | with a positive gap, seeded platform k carries a diamond exactly when its draw is below 0.3 |
| Generation.SeedRunDiamondCount | game.js:336-340 | seeding brings exactly as many diamonds as draws below 0.3 |
| Generation.ShiftPlatforms | game.js:593-595 | the platforms after the scroll; stated by `Generation.ScrollKeepsLayout` and `Generation.ScrollComposes` |
| Generation.ShiftDiamonds | game.js:597-599 | the diamonds after the scroll; stated by `Generation.ScrollKeepsLayout` and `Generation.ScrollComposes` |
| Generation.ScrollKeepsLayout | game.js:592-602 | the scroll changes no x, no colour, no collected flag, no length and no order, and keeps every diamond's vertical offset to every platform |
| Generation.ScrollComposes | game.js:592-602 | for the platforms and for the diamonds alike, two scrolls are one scroll by the sum |
| Generation.KeepPlatforms | game.js:620 | the prune never lengthens the platforms; what it keeps is stated by `Generation.KeepPlatformsFilters` and `Generation.KeepPlatformsPreservesOrder` |
| Generation.KeepDiamonds | game.js:621 | the prune never lengthens the diamonds; what it keeps is stated by `Generation.KeepDiamondsFilters` and `Generation.KeepDiamondsPreservesOrder` |
| Generation.KeepPlatformsFilters | game.js:620 | the prune keeps exactly the platforms above the limit |
| Generation.KeepDiamondsFilters | game.js:621 | the prune keeps exactly the uncollected diamonds above the limit |
| Generation.KeepPlatformsPreservesOrder | game.js:620 | pruning platforms keeps their relative order |
| Generation.KeepDiamondsPreservesOrder | game.js:621 | pruning diamonds keeps their relative order |
| Generation.LowestY | game.js:624 | there is a lowest y exactly when there is a platform; that it is the minimum is stated by `Generation.LowestYIsMinimum` |
| Generation.LowestYIsMinimum | game.js:624 | the minimum y belongs to some platform and no platform is higher up |
| Generation.NeedsPlatform | game.js:624-625 | the spawn test; stated by `Generation.NeedsPlatformIff` |
| Generation.NeedsPlatformIff | game.js:624-625 | a platform is spawned iff every platform lies below the gap line, including when there are none (`Math.min()` of nothing) |
| Generation.PruneAndSpawn | game.js:618-628 | the lists after the prune and the spawn; stated by `Generation.SpawnRule` and `Generation.PruneAndSpawnFacts` |
| Generation.SpawnRule | game.js:618-628 | the survivors come first in their order; one platform is appended iff all survivors lie below the gap line; it is at y = −40 and, on a wide enough canvas, within [40, width − 130] |
| Generation.PruneAndSpawnFacts | game.js:618-628 | afterwards every platform and diamond lies above the limit, no diamond is collected, at most one platform was added, and some platform lies at or above the gap line |
| Economy.BuyItem | game.js:371-399 | bought iff the item is known, not owned and affordable; a purchase deducts 100 or 250 and sets only that power-up; every other branch changes nothing; the balance never grows and never goes negative |
| Economy.BuyOnce | game.js:371-399 | buying an item just bought changes nothing |
| Game.InfiniteJumpGame.constructor | game.js:3-91 | a new game is on the start screen with zeroed counters, level 1, gap 180, speed 1, no power-ups and the player centred 150 above the bottom |
| Game.InfiniteJumpGame.ResizeCanvas | game.js:82-91 | the canvas takes the new size; only on the start screen is the player re-centred |
| Game.InfiniteJumpGame.ShowScreen | game.js:197-212 | the screen's name becomes the game state |
| Game.InfiniteJumpGame.PauseGame | game.js:442-449 | from `Playing` the state ends as the pause screen's, otherwise nothing changes |
| Game.InfiniteJumpGame.ResumeGame | game.js:451-456 | only `Paused` resumes, to the game screen's state |
| Game.InfiniteJumpGame.GameOver | game.js:458-484 | the state becomes the game-over screen's; the high score changes only to a strictly higher score |
| Game.InfiniteJumpGame.BuyItem | game.js:371-399 | the method's coins, power-ups and outcome are exactly the shop rule's |
| Game.InfiniteJumpGame.RedeemPrize | game.js:401-418 | without a player id, or below 1000 coins, nothing changes; otherwise exactly 1000 coins are spent and the start screen is shown |
| Game.InfiniteJumpGame.CreatePlatform | game.js:322-341 | appends the new platform, and its diamond when the draw is below 0.3 |
| Game.InfiniteJumpGame.CreateDiamond | game.js:343-352 | appends the platform's diamond |
| Game.InfiniteJumpGame.CreateInitialPlatform | game.js:306-320 | appends exactly the seeding of four draws above the platform under the player |
| Game.InfiniteJumpGame.ResetRun | game.js:271-292 | zeroes the run counters and lists, resets level, gap and speed, places the player, sets the boots' jump force and resets the jetpack counter |
| Game.InfiniteJumpGame.StartGame | game.js:270-304 | a fresh run: reset values, the seeded platforms, and the state `Playing` |
| Game.InfiniteJumpGame.ApplyControls | game.js:489-513 | the player moves exactly as `Physics.Move` says |
| Game.InfiniteJumpGame.ResolveLanding | game.js:515-542 | the landing scan with `break` gives exactly `Physics.Land` |
| Game.InfiniteJumpGame.CollectDiamonds | game.js:544-560 | the reverse scan gives the collected diamonds, and adds one diamond and 5 coins per pickup |
| Game.InfiniteJumpGame.AdvanceDistance | game.js:562-575 | distance grows by the tick's delta, the score is distance/10, and coins and watermark follow the milestone rule |
| Game.InfiniteJumpGame.UpdateLevel | game.js:604-616 | the level follows `NextLevel`; the gap and speed are reset only when the level changes |
| Game.InfiniteJumpGame.ScrollPlatforms | game.js:592-602 | platforms and diamonds move down by deltaY and the player moves up by deltaY |
| Game.InfiniteJumpGame.GeneratePlatforms | game.js:618-628 | platforms and diamonds become the prune-and-spawn of the old ones; on a real canvas everything left is above the limit, nothing collected is kept, and a platform lies at or above the gap line |
| Game.InfiniteJumpGame.MoveAndCollide | game.js:489-560 | move, land, then collect with the landed player |
| Game.InfiniteJumpGame.Advance | game.js:562-578 | distance, milestone coins and level in order |
| Game.InfiniteJumpGame.CheckFall | game.js:583-586 | the run ends iff the player is more than 100 below the bottom edge |
| Game.InfiniteJumpGame.ScrollAndGenerate | game.js:580-589 | scroll, game-over test, then prune and spawn, which also runs on the tick that ends the run |
| Game.InfiniteJumpGame.Tick | game.js:486-590 | one playing tick is the composition of all the rules above in the source's order; the invariant holds, coins and high score never fall, and the prune-and-spawn facts hold |
| Game.InfiniteJumpGame.UpdateGame | game.js:486-590 | outside `Playing` a frame changes nothing; while playing the state ends as `Playing` or game over, the level, coins and high score never fall, and some platform lies at or above the gap line |
| Game.PauseThenResume | game.js:442-456 | pausing a run and then resuming it leaves the game on the pause screen |

## Left out

- Rendering (`draw`, `drawBackground`, `drawPlayer`) is pure canvas output.
- DOM updates are not modelled: `updateGameUI`, `updatePreview`, `updateShop`, `updateRedeemScreen`, `updatePowerUpIndicators`, `showRedeemScreen`, the class toggling in `showScreen`, the game-over record banner and the alerts. A method's alert is returned as its outcome.
- Event wiring (`setupControls`, `setupUIEvents`, `checkMobile`) is not modelled. The key flags are the `left`/`right` parameters. The canvas size is a parameter of the constructor and of `ResizeCanvas`.
- `init` and `gameLoop` with `requestAnimationFrame` are not modelled. `UpdateGame` is a step driven from outside, and `deltaTime` is its parameter.
- Persistence (`loadGameData`, `saveGameData`, localStorage) is not modelled. The constructor models a start with no saved data, and every save is a no-op.
- The side effects of `redeemPrize` are not modelled: the ticket code from the clock and random digits, the WhatsApp message, `window.open` and the alerts. The reading of the player id, including its `trim()`, is also left out; the id is passed in already trimmed.
- The random distributions are not modelled: the 30% diamond chance and the uniform x and colour draws. Each draw is an arbitrary parameter in [0, 1), and only range facts are stated about it.
- IEEE floating point is not modelled: arithmetic is exact. `Progression.FrameRateIndependent` holds only in exact arithmetic; with floats the sum of per-frame deltas drifts. It is stated about `DistanceDelta`, not about a run of `AdvanceDistance` calls.
- Fixed attributes are constants, not record fields: platform and player sizes, `speed`, the player colour and the diamond colour. A platform colour is an index into the five-colour palette.
- service-worker.js is not part of this model. It is promise-based cache and fetch I/O.
- Game.InfiniteJumpGame.UpdateGame: its contract summarises the playing case; the full composition is stated by `Game.InfiniteJumpGame.Tick`, which it calls.
- Game.InfiniteJumpGame.GeneratePlatforms: the prune-and-spawn facts are promised only on a non-negative canvas height with a non-negative gap. Otherwise the spawn row may lie below the limit.
