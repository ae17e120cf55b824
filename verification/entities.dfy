/** The passive records of the game: the player, the power-ups, platforms,
    diamonds, the screens and the run state tag, with the fixed sizes and tuning
    constants of `InfiniteJumpGame` (game.js). Coordinates are exact reals with
    y growing downwards, as on the canvas. */
module Entities {

  datatype Option<T> = None | Some(value: T)

  // Player geometry and control (game.js, constructor).
  const PlayerWidth: real := 35.0
  const PlayerHeight: real := 50.0
  const PlayerSpeed: real := 7.0
  const DefaultJumpForce: real := -13.0
  const BootsJumpForce: real := -16.9

  // Platforms and diamonds. Every platform is created with these sizes, so the
  // records below keep only what varies.
  const PlatformWidth: real := 90.0
  const PlatformHeight: real := 18.0
  const DiamondSize: real := 22.0
  const InitialPlatformGap: int := 180
  const MinPlatformGap: int := 140
  const MaxPlatformGap: int := 350

  // World tuning.
  const Gravity: real := 0.4
  const ScrollSpeed: real := 2.8
  const Damping: real := 0.9
  const LandingTolerance: real := 5.0
  /** How far below the bottom edge things may go before they are dropped. */
  const OffscreenMargin: real := 100.0
  /** Where a platform spawned during play is placed. */
  const SpawnY: real := -40.0
  /** Inset of platforms from both side walls. */
  const PlatformInset: real := 40.0

  /** The five platform colours; a platform stores an index into this palette. */
  const Palette: seq<string> := ["#00ffff", "#0080ff", "#00ff80", "#ff00ff", "#ff8000"]
  type PaletteIndex = i: nat | i < 5

  datatype Player = Player(x: real, y: real, velocityX: real, velocityY: real, jumpForce: real)

  datatype PowerUps = PowerUps(boots: bool, jetpack: bool, jetpackCounter: int)

  /** A platform of size PlatformWidth x PlatformHeight at (x, y). */
  datatype Platform = Platform(x: real, y: real, color: PaletteIndex)

  /** A diamond of size DiamondSize x DiamondSize at (x, y). */
  datatype Diamond = Diamond(x: real, y: real, collected: bool)

  /** The three `Math.random()` results one platform creation consumes:
      its x, its colour and whether it carries a diamond. */
  datatype PlatformDraw = PlatformDraw(xDraw: real, colorDraw: real, diamondDraw: real)

  predicate IsUnitDraw(r: real) { 0.0 <= r < 1.0 }

  predicate ValidDraw(d: PlatformDraw) {
    IsUnitDraw(d.xDraw) && IsUnitDraw(d.colorDraw) && IsUnitDraw(d.diamondDraw)
  }

  predicate ValidDraws(ds: seq<PlatformDraw>) {
    forall k :: 0 <= k < |ds| ==> ValidDraw(ds[k])
  }

  /** The screens of the page; showing one also stores its name as the game state. */
  datatype Screen = StartScreen | ShopScreen | RedeemScreen | TutorialScreen
                  | GameScreen | PauseScreen | GameOverScreen

  /** The `gameState` string: a screen name, or one of the two run tags. */
  datatype GameState = OnScreen(screen: Screen) | Playing | Paused
}
