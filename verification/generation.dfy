/** Level generation rules (game.js:306-357, 592-602, 618-628): where a new
    platform and its diamond go, the seeding of a run, the camera scroll, and
    the prune-and-spawn step with its empty-collection case. */
module Generation {
  import opened Entities
  import Progression

  /** Chance, per platform, that it carries a diamond. */
  const DiamondChance: real := 0.3
  /** Gap between a diamond's bottom edge and its platform's top. */
  const DiamondLift: real := 8.0

  // ---------------------------------------------------------- new entities

  /** The x of a new platform (game.js:323-325): a uniform draw between the two
      insets. On a canvas too narrow for both insets the range runs backwards. */
  function PlatformX(r: real, width: real): (x: real)
    requires IsUnitDraw(r)
    ensures 2.0 * PlatformInset + PlatformWidth <= width ==>
      PlatformInset <= x <= width - PlatformWidth - PlatformInset
    ensures width < 2.0 * PlatformInset + PlatformWidth ==>
      width - PlatformWidth - PlatformInset <= x <= PlatformInset
  {
    var minX := PlatformInset;
    var maxX := width - PlatformWidth - PlatformInset;
    ScaleBetween(r, minX, maxX);
    r * (maxX - minX) + minX
  }

  /** A unit draw scales a range to a point between its two ends, whichever
      way round they are. */
  lemma ScaleBetween(r: real, lo: real, hi: real)
    requires IsUnitDraw(r)
    ensures lo <= hi ==> lo <= r * (hi - lo) + lo <= hi
    ensures hi < lo ==> hi <= r * (hi - lo) + lo <= lo
  {
    var span := hi - lo;
    if 0.0 <= span {
      NonNegativeProduct(r, span);
      NonNegativeProduct(1.0 - r, span);
    } else {
      NonNegativeProduct(r, -span);
      NonNegativeProduct(1.0 - r, -span);
    }
  }

  lemma NonNegativeProduct(a: real, b: real)
    requires 0.0 <= a && 0.0 <= b
    ensures 0.0 <= a * b
  {
  }

  /** The palette index a colour draw picks (game.js:356). */
  function ColorIndex(r: real): (i: int)
    requires IsUnitDraw(r)
    ensures 0 <= i < |Palette|
  {
    (r * 5.0).Floor
  }

  /** The platform `createPlatform(y)` pushes (game.js:327-333). */
  function NewPlatform(y: real, draw: PlatformDraw, width: real): (r: Platform)
    requires ValidDraw(draw)
    ensures r.y == y
    ensures 2.0 * PlatformInset + PlatformWidth <= width ==>
      PlatformInset <= r.x <= width - PlatformWidth - PlatformInset
  {
    Platform(PlatformX(draw.xDraw, width), y, ColorIndex(draw.colorDraw))
  }

  /** The diamond `createDiamond(platform)` pushes (game.js:344-350). */
  function DiamondFor(plat: Platform): (d: Diamond)
    // centred over its platform, inside its width, and entirely above its top
    ensures d.x + DiamondSize / 2.0 == plat.x + PlatformWidth / 2.0
    ensures plat.x < d.x && d.x + DiamondSize < plat.x + PlatformWidth
    ensures d.y + DiamondSize + DiamondLift == plat.y
    ensures !d.collected
  {
    Diamond(plat.x + PlatformWidth / 2.0 - DiamondSize / 2.0, plat.y - DiamondSize - DiamondLift, false)
  }

  /** The diamonds a new platform brings: one on a draw below 0.3 (game.js:338-340). */
  function SpawnedDiamonds(plat: Platform, draw: PlatformDraw): (r: seq<Diamond>)
    // at most one diamond, on the new platform, exactly when the draw is below the chance
    ensures |r| <= 1
    ensures |r| == 1 <==> draw.diamondDraw < DiamondChance
    ensures forall d :: d in r ==> d == DiamondFor(plat)
  {
    if draw.diamondDraw < DiamondChance then [DiamondFor(plat)] else []
  }

  /** The platform placed under the player at the start of a run (game.js:307-313). */
  function InitialPlatform(p: Player): (r: Platform)
    // centred under the player, its top at the player's feet, in the first palette colour
    ensures r.x + PlatformWidth / 2.0 == p.x + PlayerWidth / 2.0
    ensures r.y == p.y + PlayerHeight
    ensures r.color == 0
  {
    Platform(p.x + PlayerWidth / 2.0 - PlatformWidth / 2.0, p.y + PlayerHeight, 0)
  }

  /** The first platform catches the player: its top is the player's bottom edge
      and it spans the player, so the first downward tick lands on it. */
  lemma InitialPlatformCatchesPlayer(p: Player)
    ensures InitialPlatform(p).y == p.y + PlayerHeight
    ensures InitialPlatform(p).x < p.x && p.x + PlayerWidth < InitialPlatform(p).x + PlatformWidth
  {
  }

  /** The platforms and diamonds `createInitialPlatform` adds (game.js:306-320)
      after its first `n` draws: `first`, then one new platform per draw, each
      `gap` above the previous one. */
  function SeedRun(first: Platform, gap: int, draws: seq<PlatformDraw>, n: nat, width: real): (r: (seq<Platform>, seq<Diamond>))
    requires n <= |draws| && ValidDraws(draws)
    ensures |r.0| == n + 1 && r.0[0] == first
    ensures |r.1| <= n
  {
    if n == 0 then ([first], [])
    else
      var prev := SeedRun(first, gap, draws, n - 1, width);
      var plat := NewPlatform(prev.0[n - 1].y - gap as real, draws[n - 1], width);
      (prev.0 + [plat], prev.1 + SpawnedDiamonds(plat, draws[n - 1]))
  }

  /** The seeded platforms form a ladder: platform k is k gaps above the first. */
  lemma {:induction false} SeedRunLadder(first: Platform, gap: int, draws: seq<PlatformDraw>, n: nat, width: real)
    requires n <= |draws| && ValidDraws(draws)
    ensures forall k :: 0 <= k <= n ==> SeedRun(first, gap, draws, n, width).0[k].y == first.y - (k * gap) as real
  {
    if n > 0 {
      SeedRunLadder(first, gap, draws, n - 1, width);
      var prev := SeedRun(first, gap, draws, n - 1, width);
      var r := SeedRun(first, gap, draws, n, width);
      forall k | 0 <= k <= n
        ensures r.0[k].y == first.y - (k * gap) as real
      {
        if k < n {
          assert r.0[k] == prev.0[k];
        } else {
          assert prev.0[n - 1].y == first.y - ((n - 1) * gap) as real;
          assert n * gap == (n - 1) * gap + gap;
        }
      }
    }
  }

  /** Every diamond of the seeding is uncollected and sits on one of the new
      platforms (never on the first one) whose draw was below the chance. */
  lemma {:induction false} SeedRunDiamonds(first: Platform, gap: int, draws: seq<PlatformDraw>, n: nat, width: real)
    requires n <= |draws| && ValidDraws(draws)
    ensures forall d :: d in SeedRun(first, gap, draws, n, width).1 ==>
      !d.collected && (exists k :: 1 <= k <= n && draws[k - 1].diamondDraw < DiamondChance &&
                        d == DiamondFor(SeedRun(first, gap, draws, n, width).0[k]))
  {
    if n > 0 {
      SeedRunDiamonds(first, gap, draws, n - 1, width);
      var prev := SeedRun(first, gap, draws, n - 1, width);
      var r := SeedRun(first, gap, draws, n, width);
      forall d | d in r.1
        ensures !d.collected && (exists k :: 1 <= k <= n && draws[k - 1].diamondDraw < DiamondChance &&
                                  d == DiamondFor(r.0[k]))
      {
        if d in prev.1 {
          var k :| 1 <= k <= n - 1 && draws[k - 1].diamondDraw < DiamondChance && d == DiamondFor(prev.0[k]);
          assert r.0[k] == prev.0[k];
        } else {
          assert d == DiamondFor(r.0[n]);
        }
      }
    }
  }

  /** Every seeded platform whose draw is below the chance carries its diamond. */
  lemma {:induction false} SeedRunDiamondsPresent(first: Platform, gap: int, draws: seq<PlatformDraw>, n: nat, width: real)
    requires n <= |draws| && ValidDraws(draws)
    ensures forall k :: 1 <= k <= n && draws[k - 1].diamondDraw < DiamondChance ==>
      DiamondFor(SeedRun(first, gap, draws, n, width).0[k]) in SeedRun(first, gap, draws, n, width).1
  {
    if n > 0 {
      SeedRunDiamondsPresent(first, gap, draws, n - 1, width);
      var prev := SeedRun(first, gap, draws, n - 1, width);
      var r := SeedRun(first, gap, draws, n, width);
      forall k | 1 <= k <= n && draws[k - 1].diamondDraw < DiamondChance
        ensures DiamondFor(r.0[k]) in r.1
      {
        if k < n {
          assert r.0[k] == prev.0[k];
        }
      }
    }
  }

  /** With a positive gap, a seeded platform carries a diamond exactly when
      its draw is below the chance (game.js:338-340). */
  lemma SeedRunDiamondExactly(first: Platform, gap: int, draws: seq<PlatformDraw>, n: nat, width: real)
    requires n <= |draws| && ValidDraws(draws) && gap > 0
    ensures forall k :: 1 <= k <= n ==>
      ((DiamondFor(SeedRun(first, gap, draws, n, width).0[k]) in SeedRun(first, gap, draws, n, width).1) <==>
       (draws[k - 1].diamondDraw < DiamondChance))
  {
    SeedRunDiamonds(first, gap, draws, n, width);
    SeedRunDiamondsPresent(first, gap, draws, n, width);
    SeedRunLadder(first, gap, draws, n, width);
    var r := SeedRun(first, gap, draws, n, width);
    forall j, k | 1 <= j <= n && 1 <= k <= n && j != k
      ensures r.0[j].y != r.0[k].y
    {
      Progression.MultipleBounds(k - j, gap);
      assert (k - j) * gap == k * gap - j * gap;
    }
  }

  /** The number of the first n draws that bring a diamond. */
  function DiamondDraws(draws: seq<PlatformDraw>, n: nat): nat
    requires n <= |draws|
  {
    if n == 0 then 0
    else DiamondDraws(draws, n - 1) + (if draws[n - 1].diamondDraw < DiamondChance then 1 else 0)
  }

  /** The seeding brings one diamond per draw below the chance, and no more. */
  lemma {:induction false} SeedRunDiamondCount(first: Platform, gap: int, draws: seq<PlatformDraw>, n: nat, width: real)
    requires n <= |draws| && ValidDraws(draws)
    ensures |SeedRun(first, gap, draws, n, width).1| == DiamondDraws(draws, n)
  {
    if n > 0 {
      SeedRunDiamondCount(first, gap, draws, n - 1, width);
    }
  }

  // ---------------------------------------------------------------- scroll

  /** Platforms after the camera scroll (game.js:593-595). */
  function ShiftPlatforms(ps: seq<Platform>, deltaY: real): seq<Platform> {
    seq(|ps|, i requires 0 <= i < |ps| => ps[i].(y := ps[i].y + deltaY))
  }

  /** Diamonds after the camera scroll (game.js:597-599). */
  function ShiftDiamonds(ds: seq<Diamond>, deltaY: real): seq<Diamond> {
    seq(|ds|, i requires 0 <= i < |ds| => ds[i].(y := ds[i].y + deltaY))
  }

  /** The scroll moves platforms and diamonds down by the same amount, so every
      diamond keeps its offset to every platform; nothing moves sideways and
      nothing is added, dropped or reordered. */
  lemma ScrollKeepsLayout(ps: seq<Platform>, ds: seq<Diamond>, deltaY: real)
    ensures |ShiftPlatforms(ps, deltaY)| == |ps| && |ShiftDiamonds(ds, deltaY)| == |ds|
    ensures forall i :: 0 <= i < |ps| ==>
      ShiftPlatforms(ps, deltaY)[i].x == ps[i].x && ShiftPlatforms(ps, deltaY)[i].color == ps[i].color
    ensures forall j :: 0 <= j < |ds| ==>
      ShiftDiamonds(ds, deltaY)[j].x == ds[j].x && ShiftDiamonds(ds, deltaY)[j].collected == ds[j].collected
    ensures forall i, j :: 0 <= i < |ps| && 0 <= j < |ds| ==>
      ShiftDiamonds(ds, deltaY)[j].y - ShiftPlatforms(ps, deltaY)[i].y == ds[j].y - ps[i].y
  {
  }

  /** Two scrolls are one scroll by the sum. */
  lemma ScrollComposes(ps: seq<Platform>, ds: seq<Diamond>, a: real, b: real)
    ensures ShiftPlatforms(ShiftPlatforms(ps, a), b) == ShiftPlatforms(ps, a + b)
    ensures ShiftDiamonds(ShiftDiamonds(ds, a), b) == ShiftDiamonds(ds, a + b)
  {
  }

  // --------------------------------------------------------- prune & spawn

  /** The platforms the prune keeps (game.js:620). */
  function KeepPlatforms(ps: seq<Platform>, limit: real): (r: seq<Platform>)
    ensures |r| <= |ps|
  {
    if |ps| == 0 then []
    else (if ps[0].y < limit then [ps[0]] else []) + KeepPlatforms(ps[1..], limit)
  }

  /** The prune keeps exactly the platforms above the limit. */
  lemma {:induction false} KeepPlatformsFilters(ps: seq<Platform>, limit: real)
    ensures forall p :: p in KeepPlatforms(ps, limit) <==> p in ps && p.y < limit
  {
    if |ps| > 0 {
      KeepPlatformsFilters(ps[1..], limit);
      assert ps == [ps[0]] + ps[1..];
    }
  }

  /** The diamonds the prune keeps: on screen and not collected (game.js:621). */
  function KeepDiamonds(ds: seq<Diamond>, limit: real): (r: seq<Diamond>)
    ensures |r| <= |ds|
  {
    if |ds| == 0 then []
    else (if ds[0].y < limit && !ds[0].collected then [ds[0]] else []) + KeepDiamonds(ds[1..], limit)
  }

  /** The prune keeps exactly the uncollected diamonds above the limit. */
  lemma {:induction false} KeepDiamondsFilters(ds: seq<Diamond>, limit: real)
    ensures forall d :: d in KeepDiamonds(ds, limit) <==> d in ds && d.y < limit && !d.collected
  {
    if |ds| > 0 {
      KeepDiamondsFilters(ds[1..], limit);
      assert ds == [ds[0]] + ds[1..];
    }
  }

  /** The prune keeps relative order: filtering a concatenation concatenates
      the filtered parts. */
  lemma {:induction false} KeepPlatformsPreservesOrder(ps: seq<Platform>, qs: seq<Platform>, limit: real)
    ensures KeepPlatforms(ps + qs, limit) == KeepPlatforms(ps, limit) + KeepPlatforms(qs, limit)
  {
    if |ps| > 0 {
      KeepPlatformsPreservesOrder(ps[1..], qs, limit);
      assert (ps + qs)[1..] == ps[1..] + qs;
    } else {
      assert ps + qs == qs;
    }
  }

  /** The same for the diamonds. */
  lemma {:induction false} KeepDiamondsPreservesOrder(ds: seq<Diamond>, es: seq<Diamond>, limit: real)
    ensures KeepDiamonds(ds + es, limit) == KeepDiamonds(ds, limit) + KeepDiamonds(es, limit)
  {
    if |ds| > 0 {
      KeepDiamondsPreservesOrder(ds[1..], es, limit);
      assert (ds + es)[1..] == ds[1..] + es;
    } else {
      assert ds + es == es;
    }
  }

  /** `Math.min` of the platforms' y, with None for no platforms (where
      `Math.min()` gives +Infinity). */
  function LowestY(ps: seq<Platform>): (r: Option<real>)
    ensures r.None? <==> |ps| == 0
  {
    if |ps| == 0 then None
    else match LowestY(ps[1..])
      case None => Some(ps[0].y)
      case Some(m) => Some(if ps[0].y < m then ps[0].y else m)
  }

  /** LowestY is the minimum: some platform has that y and none is higher up. */
  lemma {:induction false} LowestYIsMinimum(ps: seq<Platform>)
    requires |ps| > 0
    ensures exists i :: 0 <= i < |ps| && ps[i].y == LowestY(ps).value
    ensures forall i :: 0 <= i < |ps| ==> LowestY(ps).value <= ps[i].y
  {
    if |ps| > 1 {
      LowestYIsMinimum(ps[1..]);
      var j :| 0 <= j < |ps| - 1 && ps[1..][j].y == LowestY(ps[1..]).value;
      if ps[0].y >= LowestY(ps[1..]).value {
        assert ps[j + 1].y == LowestY(ps).value;
      }
      forall i | 0 <= i < |ps|
        ensures LowestY(ps).value <= ps[i].y
      {
        if i > 0 {
          assert ps[i] == ps[1..][i - 1];
        }
      }
    } else {
      assert ps[0].y == LowestY(ps).value;
    }
  }

  /** The spawn test of game.js:624-625: the topmost platform is further down
      than the gap; with no platforms, +Infinity exceeds any gap. */
  predicate NeedsPlatform(ps: seq<Platform>, gap: int) {
    match LowestY(ps)
    case None => true
    case Some(m) => m > gap as real
  }

  /** A platform is spawned exactly when every platform lies below the gap line,
      which includes the empty collection. */
  lemma NeedsPlatformIff(ps: seq<Platform>, gap: int)
    ensures NeedsPlatform(ps, gap) <==> forall i :: 0 <= i < |ps| ==> ps[i].y > gap as real
  {
    if |ps| > 0 {
      LowestYIsMinimum(ps);
    }
    if !NeedsPlatform(ps, gap) {
      var i :| 0 <= i < |ps| && ps[i].y == LowestY(ps).value;
      assert ps[i].y <= gap as real;
    }
  }

  /** `generatePlatforms` (game.js:618-628): prune below `limit`, then spawn one
      platform at SpawnY when the topmost survivor is below the gap line. */
  function PruneAndSpawn(ps: seq<Platform>, ds: seq<Diamond>, limit: real, gap: int,
                         draw: PlatformDraw, width: real): (seq<Platform>, seq<Diamond>)
    requires ValidDraw(draw)
  {
    var kept := KeepPlatforms(ps, limit);
    var keptDiamonds := KeepDiamonds(ds, limit);
    if NeedsPlatform(kept, gap) then
      var plat := NewPlatform(SpawnY, draw, width);
      (kept + [plat], keptDiamonds + SpawnedDiamonds(plat, draw))
    else (kept, keptDiamonds)
  }

  /** The spawn rule: the survivors come first, in their order, and one platform
      follows exactly when every survivor lies below the gap line (so always
      when none survived); it sits at SpawnY between the two insets. */
  lemma SpawnRule(ps: seq<Platform>, ds: seq<Diamond>, limit: real, gap: int,
                  draw: PlatformDraw, width: real)
    requires ValidDraw(draw)
    ensures var kept := KeepPlatforms(ps, limit);
      var qs := PruneAndSpawn(ps, ds, limit, gap, draw, width).0;
      && qs[..|kept|] == kept
      && (|qs| == |kept| + 1 <==> forall i :: 0 <= i < |kept| ==> kept[i].y > gap as real)
      && (|qs| != |kept| + 1 ==> |qs| == |kept|)
      && (|qs| == |kept| + 1 ==> qs[|kept|].y == SpawnY)
      && (|qs| == |kept| + 1 && 2.0 * PlatformInset + PlatformWidth <= width ==>
            PlatformInset <= qs[|kept|].x <= width - PlatformWidth - PlatformInset)
  {
    var kept := KeepPlatforms(ps, limit);
    NeedsPlatformIff(kept, gap);
    if NeedsPlatform(kept, gap) {
      assert (kept + [NewPlatform(SpawnY, draw, width)])[..|kept|] == kept;
    } else {
      assert kept[..|kept|] == kept;
    }
  }

  /** After prune and spawn, with the bottom limit below the spawn row and a
      non-negative gap: everything left is above the limit, no collected diamond
      is left, at most one platform was added, and some platform lies at or
      above the gap line; in particular the collection is never empty. */
  lemma PruneAndSpawnFacts(ps: seq<Platform>, ds: seq<Diamond>, limit: real, gap: int,
                           draw: PlatformDraw, width: real)
    requires ValidDraw(draw)
    requires SpawnY < limit && 0 <= gap
    ensures forall p :: p in PruneAndSpawn(ps, ds, limit, gap, draw, width).0 ==> p.y < limit
    ensures forall d :: d in PruneAndSpawn(ps, ds, limit, gap, draw, width).1 ==> d.y < limit && !d.collected
    ensures |PruneAndSpawn(ps, ds, limit, gap, draw, width).0| <= |ps| + 1
    ensures exists p :: p in PruneAndSpawn(ps, ds, limit, gap, draw, width).0 && p.y <= gap as real
  {
    var kept := KeepPlatforms(ps, limit);
    var keptDiamonds := KeepDiamonds(ds, limit);
    var qs := PruneAndSpawn(ps, ds, limit, gap, draw, width).0;
    KeepPlatformsFilters(ps, limit);
    KeepDiamondsFilters(ds, limit);
    NeedsPlatformIff(kept, gap);
    if NeedsPlatform(kept, gap) {
      var plat := NewPlatform(SpawnY, draw, width);
      assert qs == kept + [plat];
      assert plat in qs;
    } else {
      assert qs == kept;
      var i :| 0 <= i < |kept| && kept[i].y <= gap as real;
      assert kept[i] in qs;
    }
  }
}
