/** Progression rules of a tick (game.js:562-578, 604-616): distance and score,
    the milestone coin reward with its watermark, and the level with the gap and
    speed it sets. */
module Progression {
  import opened Entities

  /** Frame duration, in milliseconds, that one unit of scroll is tuned to. */
  const ReferenceFrameMs: real := 16.0
  /** Distance units per metre of score. */
  const UnitsPerMeter: real := 10.0
  const MilestoneMeters: int := 100
  const CoinsPerMilestone: int := 2
  const MetersPerLevel: real := 500.0
  const GapStepPerLevel: int := 18
  const SpeedStepPerLevel: real := 0.08

  // ------------------------------------------------------------- distance

  /** Distance scrolled in one tick of `deltaTime` milliseconds (game.js:563). */
  function DistanceDelta(gameSpeed: real, deltaTime: real): (r: real)
    // time running forward never scrolls backwards
    ensures 0.0 <= gameSpeed && 0.0 <= deltaTime ==> 0.0 <= r
    // one reference frame at the base speed scrolls exactly the scroll speed
    ensures gameSpeed == 1.0 && deltaTime == ReferenceFrameMs ==> r == ScrollSpeed
  {
    var frames := deltaTime / ReferenceFrameMs;
    assert 0.0 <= gameSpeed && 0.0 <= frames ==> 0.0 <= gameSpeed * frames;
    ScrollSpeed * gameSpeed * frames
  }

  function Sum(xs: seq<real>): real {
    if |xs| == 0 then 0.0 else xs[0] + Sum(xs[1..])
  }

  /** Distance scrolled by a run of ticks at a fixed game speed. */
  function DistanceOver(gameSpeed: real, deltaTimes: seq<real>): real {
    if |deltaTimes| == 0 then 0.0
    else DistanceDelta(gameSpeed, deltaTimes[0]) + DistanceOver(gameSpeed, deltaTimes[1..])
  }

  /** In exact arithmetic the scroll is frame-rate independent: while the game
      speed stays fixed, any split of the same elapsed time scrolls the same
      distance. */
  lemma {:induction false} FrameRateIndependent(gameSpeed: real, deltaTimes: seq<real>)
    ensures DistanceOver(gameSpeed, deltaTimes) == DistanceDelta(gameSpeed, Sum(deltaTimes))
  {
    if |deltaTimes| > 0 {
      FrameRateIndependent(gameSpeed, deltaTimes[1..]);
      var s := ScrollSpeed * gameSpeed;
      var a, b := deltaTimes[0], Sum(deltaTimes[1..]);
      assert s * (a / ReferenceFrameMs) + s * (b / ReferenceFrameMs) == s * ((a + b) / ReferenceFrameMs);
    }
  }

  // ------------------------------------------------------ milestone coins

  /** JavaScript's `%` on integers: the remainder takes the sign of the
      dividend, and the dividend minus it is a multiple of the divisor. */
  function TruncRem(a: int, d: int): (r: int)
    requires d > 0
    ensures a >= 0 ==> 0 <= r < d
    ensures a < 0 ==> -d < r <= 0
    ensures (a - r) % d == 0
  {
    if a >= 0 then
      var r := a % d;
      DivModUnique(a - r, a / d, 0, d);
      r
    else
      var r := -((-a) % d);
      DivModUnique(a - r, -((-a) / d), 0, d);
      r
  }

  /** A nonzero multiple of a positive d is at least d away from zero. */
  lemma MultipleBounds(m: int, d: int)
    requires d > 0
    ensures m >= 1 ==> m * d >= d
    ensures m <= -1 ==> m * d <= -d
  {
    if m >= 1 {
      assert m * d == d + (m - 1) * d;
    } else if m <= -1 {
      assert m * d == -d - (-m - 1) * d;
    }
  }

  /** Euclidean division is unique: x = k*d + r with r in [0, d) is the
      decomposition `/` and `%` give. */
  lemma DivModUnique(x: int, k: int, r: int, d: int)
    requires d > 0 && 0 <= r < d && x == k * d + r
    ensures x % d == r && x / d == k
  {
    var m := k - x / d;
    assert m * d == x % d - r;
    MultipleBounds(m, d);
  }

  /** Coins awarded when the whole metres `m` reach the watermark `last` plus 100
      (game.js:569-571). Integer `/` with a positive divisor rounds down, as
      `Math.floor` of the quotient does. */
  function MilestoneCoins(m: int, last: int): (r: int)
    // coins come in whole milestones, and only once a boundary is passed
    ensures 0 <= r && r % CoinsPerMilestone == 0
    ensures 0 < r <==> m >= last + MilestoneMeters
  {
    if m >= last + MilestoneMeters then (m - last) / MilestoneMeters * CoinsPerMilestone else 0
  }

  /** The watermark after the reward check (game.js:572). */
  function NextWatermark(m: int, last: int): (r: int)
    // the watermark never moves back, and never past a non-negative metre count
    ensures last <= r
    ensures 0 <= m && r != last ==> r <= m
  {
    if m >= last + MilestoneMeters then m - TruncRem(m, MilestoneMeters) else last
  }

  /** The milestone rule: below the next boundary nothing changes; past it the
      reward is two coins per 100 metres since the watermark, the watermark
      becomes the largest multiple of 100 not above `m`, and the coins awarded
      are exactly those of the boundaries the watermark moved over. */
  lemma MilestoneRule(m: int, last: int)
    requires 0 <= last && last % MilestoneMeters == 0
    ensures m < last + MilestoneMeters ==> MilestoneCoins(m, last) == 0 && NextWatermark(m, last) == last
    ensures m >= last + MilestoneMeters ==>
      && MilestoneCoins(m, last) == 2 * ((m - last) / 100)
      && NextWatermark(m, last) % 100 == 0
      && m - 100 < NextWatermark(m, last) <= m
    ensures MilestoneCoins(m, last) * 50 == NextWatermark(m, last) - last
    ensures 0 <= NextWatermark(m, last) && NextWatermark(m, last) % MilestoneMeters == 0
    ensures NextWatermark(m, last) >= last
  {
    if m >= last + MilestoneMeters {
      var k := (m - last) / 100;
      assert m - last == k * 100 + (m - last) % 100;
      assert m % 100 == (m - last) % 100 by {
        assert m == (last / 100 + k) * 100 + (m - last) % 100;
      }
    }
  }

  /** Crossing from 250 to 460 metres with the watermark at 200 passes the 300
      and 400 boundaries: four coins, watermark 400. */
  lemma MilestoneExample()
    ensures MilestoneCoins(460, 200) == 4 && NextWatermark(460, 200) == 400
  {
  }

  // ---------------------------------------------------------------- level

  /** The level the score reaches (game.js:605). */
  function LevelFor(score: real): (r: int)
    // level r spans the scores [500 (r - 1), 500 r)
    ensures (r - 1) as real * MetersPerLevel <= score < r as real * MetersPerLevel
  {
    (score / MetersPerLevel).Floor + 1
  }

  /** `updateLevel`: the level moves only up (game.js:607-608). */
  function NextLevel(level: int, score: real): (r: int)
    ensures r >= level
    ensures r != level ==> r == LevelFor(score) && LevelFor(score) > level
    ensures r == level ==> LevelFor(score) <= level
  {
    if LevelFor(score) > level then LevelFor(score) else level
  }

  /** Platform gap set on reaching a level (game.js:609-612). */
  function GapFor(level: int): int {
    var g := MinPlatformGap + (level - 1) * GapStepPerLevel;
    if g < MaxPlatformGap then g else MaxPlatformGap
  }

  /** Game speed set on reaching a level (game.js:613). */
  function SpeedFor(level: int): real {
    1.0 + (level - 1) as real * SpeedStepPerLevel
  }

  /** A higher score never means a lower level. */
  lemma LevelMonotone(s1: real, s2: real)
    requires s1 <= s2
    ensures LevelFor(s1) <= LevelFor(s2)
  {
    assert s1 / MetersPerLevel <= s2 / MetersPerLevel;
  }

  /** From level 1 on, the gap lies in [140, 350], grows by 18 per level and is
      capped at 350 from level 13; the speed grows with the level. */
  lemma GapAndSpeedBounds(level: int)
    requires level >= 1
    ensures MinPlatformGap <= GapFor(level) <= MaxPlatformGap
    ensures GapFor(level) <= GapFor(level + 1)
    ensures level >= 13 <==> GapFor(level) == MaxPlatformGap
    ensures 1.0 <= SpeedFor(level) < SpeedFor(level + 1)
  {
  }
}
