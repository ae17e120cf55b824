/** The `InfiniteJumpGame` object (game.js:2-763) as a class: its run state,
    the screen/state machine, the shop and prize spending, the run reset and
    seeding, and the per-frame `updateGame` step with its sub-steps. Every
    method is specified by the pure rules of the Physics, Progression,
    Generation and Economy modules. */
module Game {
  import opened Entities
  import Physics
  import Progression
  import Generation
  import Economy

  /** What `redeemPrize` did (its alerts, game.js:404-436). */
  datatype Redemption = MissingPlayerId | NotEnoughCoins | Redeemed

  class InfiniteJumpGame {
    var gameState: GameState
    var score: real
    var coins: int
    var level: int
    var highScore: real
    var diamondsCollected: int
    var distanceCounter: real
    var lastCoinDistance: int

    var player: Player
    var powerUps: PowerUps
    var platforms: seq<Platform>
    var platformGap: int
    var diamonds: seq<Diamond>
    var gameSpeed: real

    /** The canvas size, as the page's resize handler last set it. */
    var canvasWidth: real
    var canvasHeight: real

    /** The facts every public method keeps. `Paused` is never observable:
        `pauseGame` overwrites it with the pause screen's name straight away. */
    ghost predicate Valid()
      reads this`canvasWidth, this`canvasHeight, this`gameState, this`score, this`distanceCounter,
            this`coins, this`level, this`diamondsCollected, this`lastCoinDistance, this`platformGap,
            this`gameSpeed, this`powerUps
    {
      && 0.0 <= canvasWidth && 0.0 <= canvasHeight
      && gameState != Paused
      && score == distanceCounter / Progression.UnitsPerMeter
      && 0 <= coins
      && 1 <= level
      && 0 <= diamondsCollected
      && 0 <= lastCoinDistance && lastCoinDistance % Progression.MilestoneMeters == 0
      && MinPlatformGap <= platformGap <= MaxPlatformGap
      && 1.0 <= gameSpeed
      && 0 <= powerUps.jetpackCounter <= 2
    }

    /** The object as constructed and initialised with no saved data
        (game.js:3-80): start screen, player centred near the bottom. */
    constructor (width: real, height: real)
      requires 0.0 <= width && 0.0 <= height
      ensures Valid()
      ensures gameState == OnScreen(StartScreen)
      ensures score == 0.0 && coins == 0 && level == 1 && highScore == 0.0
      ensures diamondsCollected == 0 && distanceCounter == 0.0 && lastCoinDistance == 0
      ensures player == Player(width / 2.0 - PlayerWidth / 2.0, height - 150.0, 0.0, 0.0, DefaultJumpForce)
      ensures powerUps == PowerUps(false, false, 0)
      ensures platforms == [] && diamonds == []
      ensures platformGap == InitialPlatformGap && gameSpeed == 1.0
      ensures canvasWidth == width && canvasHeight == height
    {
      gameState := OnScreen(StartScreen);
      score := 0.0;
      coins := 0;
      level := 1;
      highScore := 0.0;
      diamondsCollected := 0;
      distanceCounter := 0.0;
      lastCoinDistance := 0;
      player := Player(0.0, 0.0, 0.0, 0.0, DefaultJumpForce);
      powerUps := PowerUps(false, false, 0);
      platforms := [];
      platformGap := InitialPlatformGap;
      diamonds := [];
      gameSpeed := 1.0;
      canvasWidth := width;
      canvasHeight := height;
      new;
      ResizeCanvas(width, height);
    }

    /** `resizeCanvas` (game.js:82-91): on the start screen the player is
        re-centred on the new canvas. */
    method ResizeCanvas(width: real, height: real)
      requires 0.0 <= width && 0.0 <= height
      modifies this`canvasWidth, this`canvasHeight, this`player
      ensures canvasWidth == width && canvasHeight == height
      ensures player == if gameState == OnScreen(StartScreen)
        then old(player).(x := width / 2.0 - PlayerWidth / 2.0, y := height - 150.0)
        else old(player)
    {
      canvasWidth := width;
      canvasHeight := height;
      if gameState == OnScreen(StartScreen) {
        player := player.(x := canvasWidth / 2.0 - PlayerWidth / 2.0, y := canvasHeight - 150.0);
      }
    }

    // ------------------------------------------------------ state machine

    /** `showScreen` (game.js:197-212): the screen's name becomes the state. */
    method ShowScreen(screen: Screen)
      modifies this`gameState
      ensures gameState == OnScreen(screen)
    {
      gameState := OnScreen(screen);
    }

    /** `pauseGame` (game.js:442-449): from `Playing` the state ends as the
        pause screen's name, not `Paused`. */
    method PauseGame()
      modifies this`gameState
      ensures gameState == if old(gameState) == Playing then OnScreen(PauseScreen) else old(gameState)
    {
      if gameState == Playing {
        gameState := Paused;
        ShowScreen(PauseScreen);
      }
    }

    /** `resumeGame` (game.js:451-456) tests for `Paused`, which no state that
        satisfies Valid() holds, so on a valid game it never resumes anything. */
    method ResumeGame()
      modifies this`gameState
      ensures gameState == if old(gameState) == Paused then OnScreen(GameScreen) else old(gameState)
    {
      if gameState == Paused {
        gameState := Playing;
        ShowScreen(GameScreen);
      }
    }

    /** `gameOver` (game.js:458-484): the state becomes the game-over screen;
        the high score moves only to a strictly higher score. */
    method GameOver()
      modifies this`gameState, this`highScore
      ensures gameState == OnScreen(GameOverScreen)
      ensures highScore == if score > old(highScore) then score else old(highScore)
      ensures highScore >= old(highScore) && highScore >= score
    {
      gameState := OnScreen(GameOverScreen);
      var isNewRecord := score > highScore;
      if isNewRecord {
        highScore := score;
      }
      ShowScreen(GameOverScreen);
    }

    // ----------------------------------------------------------- spending

    /** `buyItem` (game.js:371-399), with the alert it shows as the result. */
    method BuyItem(item: string) returns (outcome: Economy.Purchase)
      requires Valid()
      modifies this`coins, this`powerUps
      ensures Valid()
      ensures Economy.BuyItem(item, old(coins), old(powerUps)) == Economy.Sale(coins, powerUps, outcome)
    {
      var cost := 0;
      if item == "boots" {
        if powerUps.boots { return Economy.AlreadyOwned; }
        cost := Economy.BootsCost;
      } else if item == "jetpack" {
        if powerUps.jetpack { return Economy.AlreadyOwned; }
        cost := Economy.JetpackCost;
      } else {
        return Economy.UnknownItem;
      }
      if coins >= cost {
        coins := coins - cost;
        if item == "boots" {
          powerUps := powerUps.(boots := true);
        } else {
          powerUps := powerUps.(jetpack := true);
        }
        outcome := Economy.Bought;
      } else {
        outcome := Economy.CannotAfford(cost);
      }
    }

    /** The coin side of `redeemPrize` (game.js:401-440): with a player id and
        at least 1000 coins, 1000 coins are spent and the start screen shown. */
    method RedeemPrize(playerId: string) returns (outcome: Redemption)
      requires Valid()
      modifies this`coins, this`gameState
      ensures Valid()
      ensures outcome == if playerId == "" then MissingPlayerId
                         else if old(coins) < Economy.RedeemCost then NotEnoughCoins
                         else Redeemed
      ensures outcome == Redeemed ==> coins == old(coins) - Economy.RedeemCost && gameState == OnScreen(StartScreen)
      ensures outcome != Redeemed ==> coins == old(coins) && gameState == old(gameState)
    {
      if playerId == "" {
        return MissingPlayerId;
      }
      if coins < Economy.RedeemCost {
        return NotEnoughCoins;
      }
      coins := coins - Economy.RedeemCost;
      ShowScreen(StartScreen);
      outcome := Redeemed;
    }

    // -------------------------------------------------------- level seeding

    /** `createPlatform(y)` (game.js:322-341). */
    method CreatePlatform(y: real, draw: PlatformDraw)
      requires ValidDraw(draw)
      modifies this`platforms, this`diamonds
      ensures platforms == old(platforms) + [Generation.NewPlatform(y, draw, canvasWidth)]
      ensures diamonds == old(diamonds) + Generation.SpawnedDiamonds(Generation.NewPlatform(y, draw, canvasWidth), draw)
    {
      var platform := Generation.NewPlatform(y, draw, canvasWidth);
      platforms := platforms + [platform];
      if draw.diamondDraw < Generation.DiamondChance {
        CreateDiamond(platform);
      }
    }

    /** `createDiamond(platform)` (game.js:343-352). */
    method CreateDiamond(platform: Platform)
      modifies this`diamonds
      ensures diamonds == old(diamonds) + [Generation.DiamondFor(platform)]
    {
      diamonds := diamonds + [Generation.DiamondFor(platform)];
    }

    /** `createInitialPlatform` (game.js:306-320): a platform under the player,
        then four more, each one gap above the last. */
    method CreateInitialPlatform(draws: seq<PlatformDraw>)
      requires |draws| == 4 && ValidDraws(draws)
      modifies this`platforms, this`diamonds
      ensures var seeded := Generation.SeedRun(Generation.InitialPlatform(player), platformGap, draws, 4, canvasWidth);
        platforms == old(platforms) + seeded.0 && diamonds == old(diamonds) + seeded.1
    {
      var first := Generation.InitialPlatform(player);
      ghost var ps0, ds0 := platforms, diamonds;
      platforms := platforms + [first];
      for i := 1 to 5
        invariant var seeded := Generation.SeedRun(first, platformGap, draws, i - 1, canvasWidth);
          platforms == ps0 + seeded.0 && diamonds == ds0 + seeded.1
      {
        ghost var prev := Generation.SeedRun(first, platformGap, draws, i - 1, canvasWidth);
        ghost var plat := Generation.NewPlatform(prev.0[i - 1].y - platformGap as real, draws[i - 1], canvasWidth);
        ghost var added := Generation.SpawnedDiamonds(plat, draws[i - 1]);
        assert Generation.SeedRun(first, platformGap, draws, i, canvasWidth) == (prev.0 + [plat], prev.1 + added);
        assert platforms[|platforms| - 1] == prev.0[i - 1];
        CreatePlatform(platforms[|platforms| - 1].y - platformGap as real, draws[i - 1]);
        assert platforms == ps0 + (prev.0 + [plat]);
        assert diamonds == ds0 + (prev.1 + added);
      }
    }

    /** `startGame` (game.js:270-304): a fresh run at level 1 with the player
        near the bottom, the boots' jump force, the jetpack counter reset and
        the seeded platforms; the state ends as `Playing`. */
    method StartGame(draws: seq<PlatformDraw>)
      requires Valid()
      requires |draws| == 4 && ValidDraws(draws)
      modifies this`score, this`distanceCounter, this`lastCoinDistance, this`diamondsCollected,
               this`platforms, this`diamonds, this`level, this`platformGap, this`gameSpeed,
               this`player, this`powerUps, this`gameState
      ensures Valid()
      ensures gameState == Playing
      ensures score == 0.0 && distanceCounter == 0.0 && lastCoinDistance == 0 && diamondsCollected == 0
      ensures level == 1 && platformGap == InitialPlatformGap && gameSpeed == 1.0
      ensures player == Player(canvasWidth / 2.0 - PlayerWidth / 2.0, canvasHeight - 150.0, 0.0, 0.0,
                               if powerUps.boots then BootsJumpForce else DefaultJumpForce)
      ensures powerUps == old(powerUps).(jetpackCounter := 0)
      ensures var seeded := Generation.SeedRun(Generation.InitialPlatform(player), InitialPlatformGap, draws, 4, canvasWidth);
        platforms == seeded.0 && diamonds == seeded.1
    {
      ResetRun();
      CreateInitialPlatform(draws);
      assert platforms == Generation.SeedRun(Generation.InitialPlatform(player), InitialPlatformGap, draws, 4, canvasWidth).0;
      ShowScreen(GameScreen);
      gameState := Playing;
    }

    /** The resets at the head of `startGame` (game.js:271-292). */
    method ResetRun()
      modifies this`score, this`distanceCounter, this`lastCoinDistance, this`diamondsCollected,
               this`platforms, this`diamonds, this`level, this`platformGap, this`gameSpeed,
               this`player, this`powerUps
      ensures score == 0.0 && distanceCounter == 0.0 && lastCoinDistance == 0 && diamondsCollected == 0
      ensures platforms == [] && diamonds == []
      ensures level == 1 && platformGap == InitialPlatformGap && gameSpeed == 1.0
      ensures player == Player(canvasWidth / 2.0 - PlayerWidth / 2.0, canvasHeight - 150.0, 0.0, 0.0,
                               if powerUps.boots then BootsJumpForce else DefaultJumpForce)
      ensures powerUps == old(powerUps).(jetpackCounter := 0)
    {
      score := 0.0;
      distanceCounter := 0.0;
      lastCoinDistance := 0;
      diamondsCollected := 0;
      platforms := [];
      diamonds := [];

      level := 1;
      platformGap := InitialPlatformGap;
      gameSpeed := 1.0;

      player := player.(x := canvasWidth / 2.0 - PlayerWidth / 2.0, y := canvasHeight - 150.0,
                        velocityX := 0.0, velocityY := 0.0);
      player := player.(jumpForce := if powerUps.boots then BootsJumpForce else DefaultJumpForce);
      powerUps := powerUps.(jetpackCounter := 0);
    }

    // ------------------------------------------------------- the tick step

    /** Steps 1-4 of `updateGame` (game.js:490-513). */
    method ApplyControls(left: bool, right: bool)
      modifies this`player
      ensures player == Physics.Move(old(player), left, right, canvasWidth)
    {
      if left {
        player := player.(velocityX := -PlayerSpeed);
      } else if right {
        player := player.(velocityX := PlayerSpeed);
      } else {
        player := player.(velocityX := player.velocityX * Damping);
      }
      player := player.(velocityY := player.velocityY + Gravity);
      player := player.(x := player.x + player.velocityX, y := player.y + player.velocityY);
      if player.x < 0.0 {
        player := player.(x := 0.0, velocityX := 0.0);
      }
      if player.x + PlayerWidth > canvasWidth {
        player := player.(x := canvasWidth - PlayerWidth, velocityX := 0.0);
      }
    }

    /** The platform scan of `updateGame` (game.js:516-542): the first platform
        that passes the landing test responds, and the scan stops. */
    method ResolveLanding()
      modifies this`player, this`powerUps
      ensures (player, powerUps) == Physics.Land(old(player), old(powerUps), platforms)
    {
      var i := 0;
      while i < |platforms|
        invariant 0 <= i <= |platforms|
        invariant player == old(player) && powerUps == old(powerUps)
        invariant forall j :: 0 <= j < i ==> !Physics.LandsOn(player, platforms[j])
      {
        var platform := platforms[i];
        if Physics.LandsOn(player, platform) {
          player := player.(y := platform.y - PlayerHeight, velocityY := player.jumpForce);
          if powerUps.jetpack {
            powerUps := powerUps.(jetpackCounter := powerUps.jetpackCounter + 1);
            if powerUps.jetpackCounter >= 3 {
              player := player.(velocityY := player.jumpForce * 1.5);
              powerUps := powerUps.(jetpackCounter := 0);
            }
          }
          break;
        }
        i := i + 1;
      }
    }

    /** The diamond scan of `updateGame` (game.js:544-560), last to first. */
    method CollectDiamonds()
      modifies this`diamonds, this`diamondsCollected, this`coins
      ensures diamonds == Physics.CollectAll(old(diamonds), player)
      ensures diamondsCollected == old(diamondsCollected) + Physics.CountPicked(old(diamonds), player)
      ensures coins == old(coins) + Physics.DiamondReward * Physics.CountPicked(old(diamonds), player)
    {
      ghost var ds0 := diamonds;
      var i := |diamonds| - 1;
      while i >= 0
        invariant -1 <= i < |ds0| == |diamonds|
        invariant forall j :: 0 <= j <= i ==> diamonds[j] == ds0[j]
        invariant forall j :: i < j < |ds0| ==> diamonds[j] == Physics.Mark(player, ds0[j])
        invariant diamondsCollected == old(diamondsCollected) + Physics.CountPicked(ds0[i + 1..], player)
        invariant coins == old(coins) + Physics.DiamondReward * Physics.CountPicked(ds0[i + 1..], player)
      {
        Physics.CountStep(ds0, i, player);
        var diamond := diamonds[i];
        if !diamond.collected
           && player.x < diamond.x + DiamondSize
           && player.x + PlayerWidth > diamond.x
           && player.y < diamond.y + DiamondSize
           && player.y + PlayerHeight > diamond.y
        {
          diamonds := diamonds[i := diamond.(collected := true)];
          diamondsCollected := diamondsCollected + 1;
          coins := coins + Physics.DiamondReward;
        }
        i := i - 1;
      }
      assert ds0[0..] == ds0;
      assert diamonds == Physics.CollectAll(ds0, player);
    }

    /** Distance, score and milestone coins of `updateGame` (game.js:562-575). */
    method AdvanceDistance(deltaTime: real) returns (distanceDelta: real)
      requires 0 <= lastCoinDistance && lastCoinDistance % Progression.MilestoneMeters == 0
      modifies this`distanceCounter, this`score, this`coins, this`lastCoinDistance
      ensures distanceDelta == Progression.DistanceDelta(gameSpeed, deltaTime)
      ensures distanceCounter == old(distanceCounter) + distanceDelta
      ensures score == distanceCounter / Progression.UnitsPerMeter
      ensures coins == old(coins) + Progression.MilestoneCoins(score.Floor, old(lastCoinDistance))
      ensures lastCoinDistance == Progression.NextWatermark(score.Floor, old(lastCoinDistance))
      ensures coins >= old(coins)
      ensures 0 <= lastCoinDistance && lastCoinDistance % Progression.MilestoneMeters == 0
    {
      distanceDelta := ScrollSpeed * gameSpeed * (deltaTime / Progression.ReferenceFrameMs);
      distanceCounter := distanceCounter + distanceDelta;
      score := distanceCounter / Progression.UnitsPerMeter;

      var currentDistanceInMeters := score.Floor;
      Progression.MilestoneRule(currentDistanceInMeters, lastCoinDistance);
      if currentDistanceInMeters >= lastCoinDistance + Progression.MilestoneMeters {
        var coinsEarned := (currentDistanceInMeters - lastCoinDistance) / Progression.MilestoneMeters
                           * Progression.CoinsPerMilestone;
        coins := coins + coinsEarned;
        lastCoinDistance := currentDistanceInMeters - Progression.TruncRem(currentDistanceInMeters, Progression.MilestoneMeters);
      }
    }

    /** `updateLevel` (game.js:604-616). */
    method UpdateLevel()
      modifies this`level, this`platformGap, this`gameSpeed
      ensures level == Progression.NextLevel(old(level), score)
      ensures level != old(level) ==> platformGap == Progression.GapFor(level) && gameSpeed == Progression.SpeedFor(level)
      ensures level == old(level) ==> platformGap == old(platformGap) && gameSpeed == old(gameSpeed)
    {
      var newLevel := Progression.LevelFor(score);
      if newLevel > level {
        level := newLevel;
        platformGap := Progression.GapFor(level);
        gameSpeed := Progression.SpeedFor(level);
      }
    }

    /** `scrollPlatforms(deltaY)` (game.js:592-602). */
    method ScrollPlatforms(deltaY: real)
      modifies this`platforms, this`diamonds, this`player
      ensures platforms == Generation.ShiftPlatforms(old(platforms), deltaY)
      ensures diamonds == Generation.ShiftDiamonds(old(diamonds), deltaY)
      ensures player == old(player).(y := old(player).y - deltaY)
    {
      var i := 0;
      while i < |platforms|
        invariant 0 <= i <= |platforms| == |old(platforms)|
        invariant forall j :: 0 <= j < i ==> platforms[j] == old(platforms)[j].(y := old(platforms)[j].y + deltaY)
        invariant forall j :: i <= j < |platforms| ==> platforms[j] == old(platforms)[j]
        invariant diamonds == old(diamonds) && player == old(player)
      {
        platforms := platforms[i := platforms[i].(y := platforms[i].y + deltaY)];
        i := i + 1;
      }
      i := 0;
      while i < |diamonds|
        invariant 0 <= i <= |diamonds| == |old(diamonds)|
        invariant forall j :: 0 <= j < i ==> diamonds[j] == old(diamonds)[j].(y := old(diamonds)[j].y + deltaY)
        invariant forall j :: i <= j < |diamonds| ==> diamonds[j] == old(diamonds)[j]
        invariant platforms == Generation.ShiftPlatforms(old(platforms), deltaY) && player == old(player)
      {
        diamonds := diamonds[i := diamonds[i].(y := diamonds[i].y + deltaY)];
        i := i + 1;
      }
      player := player.(y := player.y - deltaY);
    }

    /** `generatePlatforms` (game.js:618-628). */
    method GeneratePlatforms(draw: PlatformDraw)
      requires ValidDraw(draw)
      modifies this`platforms, this`diamonds
      ensures (platforms, diamonds) == Generation.PruneAndSpawn(old(platforms), old(diamonds),
        canvasHeight + OffscreenMargin, platformGap, draw, canvasWidth)
      // on a real canvas: nothing is left below the limit, no collected diamond
      // is kept, at most one platform is added and one lies at or above the gap
      ensures 0.0 <= canvasHeight && 0 <= platformGap ==>
        && (forall p :: p in platforms ==> p.y < canvasHeight + OffscreenMargin)
        && (forall d :: d in diamonds ==> d.y < canvasHeight + OffscreenMargin && !d.collected)
        && (exists p :: p in platforms && p.y <= platformGap as real)
        && |platforms| <= |old(platforms)| + 1
    {
      ghost var ps0, ds0 := platforms, diamonds;
      platforms := Generation.KeepPlatforms(platforms, canvasHeight + OffscreenMargin);
      diamonds := Generation.KeepDiamonds(diamonds, canvasHeight + OffscreenMargin);
      if Generation.NeedsPlatform(platforms, platformGap) {
        CreatePlatform(SpawnY, draw);
      }
      if 0.0 <= canvasHeight && 0 <= platformGap {
        Generation.PruneAndSpawnFacts(ps0, ds0, canvasHeight + OffscreenMargin, platformGap, draw, canvasWidth);
      }
    }

    /** `updateGame(deltaTime)` (game.js:486-590): outside `Playing` a frame
        changes nothing; while playing it runs one Tick. */
    method UpdateGame(deltaTime: real, left: bool, right: bool, draw: PlatformDraw)
      requires Valid() && ValidDraw(draw)
      modifies this`player, this`powerUps, this`platforms, this`diamonds, this`diamondsCollected,
               this`coins, this`distanceCounter, this`score, this`lastCoinDistance, this`level,
               this`platformGap, this`gameSpeed, this`gameState, this`highScore
      ensures Valid()
      ensures old(gameState) != Playing ==>
        && player == old(player) && powerUps == old(powerUps) && platforms == old(platforms)
        && diamonds == old(diamonds) && diamondsCollected == old(diamondsCollected) && coins == old(coins)
        && distanceCounter == old(distanceCounter) && score == old(score)
        && lastCoinDistance == old(lastCoinDistance) && level == old(level) && platformGap == old(platformGap)
        && gameSpeed == old(gameSpeed) && gameState == old(gameState) && highScore == old(highScore)
      ensures old(gameState) == Playing ==> gameState in {Playing, OnScreen(GameOverScreen)}
      ensures old(gameState) == Playing ==>
        && level >= old(level) && coins >= old(coins) && highScore >= old(highScore)
        && (forall p :: p in platforms ==> p.y < canvasHeight + OffscreenMargin)
        && (forall d :: d in diamonds ==> d.y < canvasHeight + OffscreenMargin && !d.collected)
        && (exists p :: p in platforms && p.y <= platformGap as real)
    {
      if gameState != Playing {
        return;
      }
      Tick(deltaTime, left, right, draw);
    }

    /** The body of `updateGame` while playing (game.js:489-589): the
        composition of its sub-steps, in the source's order. Game over does not
        stop this tick's generation. */
    method Tick(deltaTime: real, left: bool, right: bool, draw: PlatformDraw)
      requires Valid() && ValidDraw(draw) && gameState == Playing
      modifies this`player, this`powerUps, this`platforms, this`diamonds, this`diamondsCollected,
               this`coins, this`distanceCounter, this`score, this`lastCoinDistance, this`level,
               this`platformGap, this`gameSpeed, this`gameState, this`highScore
      ensures Valid()
      ensures var moved := Physics.Move(old(player), left, right, canvasWidth);
        var landed := Physics.Land(moved, old(powerUps), old(platforms));
        var delta := Progression.DistanceDelta(old(gameSpeed), deltaTime);
        && player == landed.0.(y := landed.0.y - delta)
        && powerUps == landed.1
        && distanceCounter == old(distanceCounter) + delta
        && diamondsCollected == old(diamondsCollected) + Physics.CountPicked(old(diamonds), landed.0)
        && coins == old(coins) + Physics.DiamondReward * Physics.CountPicked(old(diamonds), landed.0)
                    + Progression.MilestoneCoins(score.Floor, old(lastCoinDistance))
        && (platforms, diamonds) == Generation.PruneAndSpawn(
             Generation.ShiftPlatforms(old(platforms), delta),
             Generation.ShiftDiamonds(Physics.CollectAll(old(diamonds), landed.0), delta),
             canvasHeight + OffscreenMargin, platformGap, draw, canvasWidth)
      ensures lastCoinDistance == Progression.NextWatermark(score.Floor, old(lastCoinDistance))
      ensures level == Progression.NextLevel(old(level), score)
      ensures level != old(level) ==> platformGap == Progression.GapFor(level) && gameSpeed == Progression.SpeedFor(level)
      ensures level == old(level) ==> platformGap == old(platformGap) && gameSpeed == old(gameSpeed)
      ensures gameState == if player.y > canvasHeight + OffscreenMargin then OnScreen(GameOverScreen) else Playing
      ensures highScore == if gameState != Playing && score > old(highScore) then score else old(highScore)
      ensures coins >= old(coins) && highScore >= old(highScore)
      // what the prune-and-spawn leaves behind
      ensures forall p :: p in platforms ==> p.y < canvasHeight + OffscreenMargin
      ensures forall d :: d in diamonds ==> d.y < canvasHeight + OffscreenMargin && !d.collected
      ensures exists p :: p in platforms && p.y <= platformGap as real
      ensures |platforms| <= |old(platforms)| + 1
    {
      MoveAndCollide(left, right);
      var distanceDelta := Advance(deltaTime);
      ScrollAndGenerate(distanceDelta, draw);
    }

    /** Steps 1-5 of a tick (game.js:489-560): move, land, collect. */
    method MoveAndCollide(left: bool, right: bool)
      requires Valid()
      modifies this`player, this`powerUps, this`diamonds, this`diamondsCollected, this`coins
      ensures Valid()
      ensures var landed := Physics.Land(Physics.Move(old(player), left, right, canvasWidth), old(powerUps), platforms);
        player == landed.0 && powerUps == landed.1
      ensures diamonds == Physics.CollectAll(old(diamonds), player)
      ensures diamondsCollected == old(diamondsCollected) + Physics.CountPicked(old(diamonds), player)
      ensures coins == old(coins) + Physics.DiamondReward * Physics.CountPicked(old(diamonds), player)
    {
      ApplyControls(left, right);
      ResolveLanding();
      CollectDiamonds();
    }

    /** Steps 6-7 of a tick (game.js:562-578): distance, score, milestone
        coins and the level. */
    method Advance(deltaTime: real) returns (distanceDelta: real)
      requires Valid()
      modifies this`distanceCounter, this`score, this`coins, this`lastCoinDistance,
               this`level, this`platformGap, this`gameSpeed
      ensures Valid()
      ensures distanceDelta == Progression.DistanceDelta(old(gameSpeed), deltaTime)
      ensures distanceCounter == old(distanceCounter) + distanceDelta
      ensures coins == old(coins) + Progression.MilestoneCoins(score.Floor, old(lastCoinDistance))
      ensures coins >= old(coins)
      ensures lastCoinDistance == Progression.NextWatermark(score.Floor, old(lastCoinDistance))
      ensures level == Progression.NextLevel(old(level), score)
      ensures level != old(level) ==> platformGap == Progression.GapFor(level) && gameSpeed == Progression.SpeedFor(level)
      ensures level == old(level) ==> platformGap == old(platformGap) && gameSpeed == old(gameSpeed)
    {
      distanceDelta := AdvanceDistance(deltaTime);
      UpdateLevel();
      Progression.GapAndSpeedBounds(level);
    }

    /** The game-over test of a tick (game.js:584-587): the run ends once the
        player is more than OffscreenMargin below the bottom edge. */
    method CheckFall()
      requires gameState == Playing
      modifies this`gameState, this`highScore
      ensures gameState == if player.y > canvasHeight + OffscreenMargin then OnScreen(GameOverScreen) else Playing
      ensures highScore == if gameState != Playing && score > old(highScore) then score else old(highScore)
      ensures highScore >= old(highScore)
    {
      if player.y > canvasHeight + OffscreenMargin {
        GameOver();
      }
    }

    /** Steps 8-10 of a tick (game.js:580-589): scroll by the distance, end
        the run when the player has fallen off the bottom, then prune and
        spawn (which happens even on the tick the run ends). */
    method ScrollAndGenerate(deltaY: real, draw: PlatformDraw)
      requires Valid() && ValidDraw(draw) && gameState == Playing
      modifies this`platforms, this`diamonds, this`player, this`gameState, this`highScore
      ensures Valid()
      ensures player == old(player).(y := old(player).y - deltaY)
      ensures (platforms, diamonds) == Generation.PruneAndSpawn(
        Generation.ShiftPlatforms(old(platforms), deltaY), Generation.ShiftDiamonds(old(diamonds), deltaY),
        canvasHeight + OffscreenMargin, platformGap, draw, canvasWidth)
      ensures gameState == if player.y > canvasHeight + OffscreenMargin then OnScreen(GameOverScreen) else Playing
      ensures highScore == if gameState != Playing && score > old(highScore) then score else old(highScore)
      ensures highScore >= old(highScore)
      ensures forall p :: p in platforms ==> p.y < canvasHeight + OffscreenMargin
      ensures forall d :: d in diamonds ==> d.y < canvasHeight + OffscreenMargin && !d.collected
      ensures exists p :: p in platforms && p.y <= platformGap as real
      ensures |platforms| <= |old(platforms)| + 1
    {
      ScrollPlatforms(deltaY);
      CheckFall();
      GeneratePlatforms(draw);
    }
  }

  /** Pausing a run and then resuming it leaves the game on the pause screen:
      `resumeGame` waits for a state `pauseGame` never leaves behind. */
  method PauseThenResume(g: InfiniteJumpGame)
    requires g.Valid() && g.gameState == Playing
    modifies g
    ensures g.gameState == OnScreen(PauseScreen)
  {
    g.PauseGame();
    g.ResumeGame();
  }
}
