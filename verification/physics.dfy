/** Physics and collision rules of one tick of `updateGame` (game.js:489-560):
    player motion, the first-match platform landing with the jetpack cadence,
    and the diamond pickup. */
module Physics {
  import opened Entities

  // ---------------------------------------------------------------- motion

  /** The horizontal speed the keys ask for before the walls act
      (game.js:490-497): a held key sets it, left winning over right, and
      otherwise the old speed decays. */
  function Steer(p: Player, left: bool, right: bool): real {
    if left then -PlayerSpeed else if right then PlayerSpeed else p.velocityX * Damping
  }

  /** Steps 1-4 of a tick: horizontal control and damping, gravity, Euler
      integration and the wall clamp (game.js:490-513). */
  function Move(p: Player, left: bool, right: bool, width: real): (r: Player)
    // gravity acts unconditionally and the new velocity moves the player
    ensures r.velocityY == p.velocityY + Gravity
    ensures r.y == p.y + r.velocityY
    ensures r.jumpForce == p.jumpForce
    // a held key sets the horizontal speed, otherwise it only decays
    ensures left ==> r.velocityX == -PlayerSpeed || r.velocityX == 0.0
    ensures !left && right ==> r.velocityX == PlayerSpeed || r.velocityX == 0.0
    ensures !left && !right ==> r.velocityX == p.velocityX * Damping || r.velocityX == 0.0
    // a step that stays inside the canvas is taken at the requested speed
    ensures var vx := Steer(p, left, right);
      0.0 <= p.x + vx && p.x + vx + PlayerWidth <= width ==> r.x == p.x + vx && r.velocityX == vx
    // a step past the left wall stops the player against it
    ensures var vx := Steer(p, left, right);
      p.x + vx < 0.0 && PlayerWidth <= width ==> r.x == 0.0 && r.velocityX == 0.0
    // a step past the right wall stops the player against it
    ensures var vx := Steer(p, left, right);
      0.0 <= p.x + vx && width < p.x + vx + PlayerWidth ==> r.x == width - PlayerWidth && r.velocityX == 0.0
    // either the player moved by its velocity, or a wall stopped it against
    // that wall
    ensures r.x == p.x + r.velocityX || (r.velocityX == 0.0 && (r.x == 0.0 || r.x == width - PlayerWidth))
    // when the canvas is wider than the player, the player ends inside it
    ensures PlayerWidth <= width ==> 0.0 <= r.x <= width - PlayerWidth
  {
    var vx := Steer(p, left, right);
    var vy := p.velocityY + Gravity;
    var x := p.x + vx;
    var y := p.y + vy;
    var (x1, vx1) := if x < 0.0 then (0.0, 0.0) else (x, vx);
    var (x2, vx2) := if x1 + PlayerWidth > width then (width - PlayerWidth, 0.0) else (x1, vx1);
    p.(x := x2, y := y, velocityX := vx2, velocityY := vy)
  }

  // --------------------------------------------------------------- landing

  /** The landing test of game.js:521-525: the player's bottom edge within
      LandingTolerance of the platform's top, strict horizontal overlap, and
      moving downwards. */
  predicate LandsOn(p: Player, plat: Platform) {
    && p.y + PlayerHeight <= plat.y + LandingTolerance
    && p.y + PlayerHeight >= plat.y - LandingTolerance
    && p.x + PlayerWidth > plat.x
    && p.x < plat.x + PlatformWidth
    && p.velocityY > 0.0
  }

  /** The platform that responds to the player this tick: the lowest index that
      passes the landing test (the scan stops at the first match, game.js:540). */
  function FirstLanding(ps: seq<Platform>, p: Player): (r: Option<nat>)
    ensures r.Some? ==> r.value < |ps| && LandsOn(p, ps[r.value])
    ensures r.Some? ==> forall j :: 0 <= j < r.value ==> !LandsOn(p, ps[j])
    ensures r.None? <==> forall j :: 0 <= j < |ps| ==> !LandsOn(p, ps[j])
  {
    if |ps| == 0 then None
    else if LandsOn(p, ps[0]) then Some(0)
    else match FirstLanding(ps[1..], p)
      case None => None
      case Some(i) => Some(i + 1)
  }

  /** Jetpack bookkeeping for one landing (game.js:532-538): the new counter and
      whether this landing is boosted. */
  function JetpackStep(owned: bool, counter: int): (int, bool) {
    if !owned then (counter, false)
    else if counter + 1 >= 3 then (0, true)
    else (counter + 1, false)
  }

  /** The response to landing on `plat` (game.js:527-538): the player's bottom
      edge snaps to the platform's top and the jump impulse is applied, boosted
      by half on a jetpack landing. */
  function LandingResponse(p: Player, pu: PowerUps, plat: Platform): (Player, PowerUps) {
    var (counter, boost) := JetpackStep(pu.jetpack, pu.jetpackCounter);
    var vy := if boost then p.jumpForce * 1.5 else p.jumpForce;
    (p.(y := plat.y - PlayerHeight, velocityY := vy), pu.(jetpackCounter := counter))
  }

  /** Step 4 of a tick: at most one landing, on the first qualifying platform. */
  function Land(p: Player, pu: PowerUps, ps: seq<Platform>): (r: (Player, PowerUps))
    // no qualifying platform: neither the player nor the power-ups change
    ensures FirstLanding(ps, p).None? ==> r == (p, pu)
    // otherwise the player stands on the first qualifying platform and jumps
    ensures FirstLanding(ps, p).Some? ==>
      var plat := ps[FirstLanding(ps, p).value];
      && r.0.y + PlayerHeight == plat.y
      && (r.0.velocityY == p.jumpForce || r.0.velocityY == p.jumpForce * 1.5)
    // only a jetpack landing can be boosted
    ensures FirstLanding(ps, p).Some? && !pu.jetpack ==> r.0.velocityY == p.jumpForce
    // nothing but y and velocityY of the player moves
    ensures r.0.x == p.x && r.0.velocityX == p.velocityX && r.0.jumpForce == p.jumpForce
    // ownership never changes; the counter moves only with the jetpack owned
    ensures r.1.boots == pu.boots && r.1.jetpack == pu.jetpack
    ensures !pu.jetpack ==> r.1.jetpackCounter == pu.jetpackCounter
    ensures 0 <= pu.jetpackCounter <= 2 ==> 0 <= r.1.jetpackCounter <= 2
  {
    match FirstLanding(ps, p)
    case None => (p, pu)
    case Some(i) => LandingResponse(p, pu, ps[i])
  }

  /** The jetpack counter after `n` landings with the jetpack owned. */
  function CounterAfter(start: int, n: nat): int {
    if n == 0 then start else JetpackStep(true, CounterAfter(start, n - 1)).0
  }

  /** From the reset value 0, the counter after n landings is n mod 3, so it
      stays in 0..2. */
  lemma {:induction false} CounterFromReset(n: nat)
    ensures CounterAfter(0, n) == n % 3
    ensures 0 <= CounterAfter(0, n) <= 2
  {
    if n > 0 {
      CounterFromReset(n - 1);
    }
  }

  /** Exactly every third landing of a run is boosted, never two in a row. */
  lemma {:induction false} EveryThirdLandingBoosted(n: nat)
    requires n >= 1
    ensures JetpackStep(true, CounterAfter(0, n - 1)).1 <==> n % 3 == 0
    ensures JetpackStep(true, CounterAfter(0, n - 1)).1 ==> CounterAfter(0, n) == 0
  {
    CounterFromReset(n - 1);
  }

  /** With the jetpack owned, a landing is boosted exactly when the counter
      reaches 3, and then the impulse is 1.5 times the jump force. */
  lemma JetpackLanding(p: Player, pu: PowerUps, ps: seq<Platform>, i: nat)
    requires FirstLanding(ps, p) == Some(i)
    requires pu.jetpack && 0 <= pu.jetpackCounter <= 2
    ensures Land(p, pu, ps).1.jetpackCounter == (pu.jetpackCounter + 1) % 3
    ensures pu.jetpackCounter == 2 ==> Land(p, pu, ps).0.velocityY == p.jumpForce * 1.5
    ensures pu.jetpackCounter < 2 ==> Land(p, pu, ps).0.velocityY == p.jumpForce
  {
  }

  /** Order decides ties: when platform i qualifies, no later platform can be the
      one that responds, whatever it looks like. */
  lemma {:induction false} EarlierPlatformWins(ps: seq<Platform>, p: Player, i: nat, rest: seq<Platform>)
    requires i < |ps| && LandsOn(p, ps[i])
    ensures FirstLanding(ps, p).Some? && FirstLanding(ps, p).value <= i
    ensures FirstLanding(ps[..i + 1] + rest, p) == FirstLanding(ps, p)
  {
    var q := ps[..i + 1] + rest;
    assert q[i] == ps[i];
    var k := FirstLanding(ps, p).value;
    assert forall j :: 0 <= j <= i ==> q[j] == ps[j];
    var kq := FirstLanding(q, p).value;
    assert kq <= i;
  }

  // --------------------------------------------------------------- diamonds

  /** Coins a diamond awards when picked up. */
  const DiamondReward: int := 5

  /** Strict rectangle overlap of player and diamond (game.js:549-552). */
  predicate Touches(p: Player, d: Diamond) {
    && p.x < d.x + DiamondSize
    && p.x + PlayerWidth > d.x
    && p.y < d.y + DiamondSize
    && p.y + PlayerHeight > d.y
  }

  /** A diamond is picked up when it is not collected yet and touches the player. */
  predicate Picks(p: Player, d: Diamond) {
    !d.collected && Touches(p, d)
  }

  /** The diamonds after the pickup scan of game.js:545-560. */
  function CollectAll(ds: seq<Diamond>, p: Player): (r: seq<Diamond>)
    ensures |r| == |ds|
    ensures forall i :: 0 <= i < |ds| ==>
      r[i].x == ds[i].x && r[i].y == ds[i].y && r[i].collected == (ds[i].collected || Touches(p, ds[i]))
    // each diamond is marked on its own, independently of the others
    ensures forall i :: 0 <= i < |ds| ==> r[i] == Mark(p, ds[i])
  {
    if |ds| == 0 then []
    else [Mark(p, ds[0])] + CollectAll(ds[1..], p)
  }

  /** A diamond as the scan leaves it: marked collected when picked up. */
  function Mark(p: Player, d: Diamond): (r: Diamond)
    // the diamond stays put, and its flag is set once the player touches it
    ensures r.x == d.x && r.y == d.y
    ensures r.collected <==> d.collected || Touches(p, d)
  {
    if Picks(p, d) then d.(collected := true) else d
  }

  /** Counting from position i: the diamond at i, then the rest. */
  lemma CountStep(ds: seq<Diamond>, i: nat, p: Player)
    requires i < |ds|
    ensures CountPicked(ds[i..], p) == (if Picks(p, ds[i]) then 1 else 0) + CountPicked(ds[i + 1..], p)
  {
    assert ds[i..][1..] == ds[i + 1..];
  }

  /** The number of diamonds a scan picks up; each awards one diamond and 5 coins. */
  function CountPicked(ds: seq<Diamond>, p: Player): (n: nat)
    ensures n <= |ds|
  {
    if |ds| == 0 then 0
    else (if Picks(p, ds[0]) then 1 else 0) + CountPicked(ds[1..], p)
  }

  /** The number of diamonds not yet collected. */
  function Uncollected(ds: seq<Diamond>): nat {
    if |ds| == 0 then 0
    else (if ds[0].collected then 0 else 1) + Uncollected(ds[1..])
  }

  /** Every award corresponds to exactly one diamond turning collected. */
  lemma {:induction false} PickupConservation(ds: seq<Diamond>, p: Player)
    ensures Uncollected(CollectAll(ds, p)) + CountPicked(ds, p) == Uncollected(ds)
  {
    if |ds| > 0 {
      PickupConservation(ds[1..], p);
      assert CollectAll(ds, p)[1..] == CollectAll(ds[1..], p);
    }
  }

  /** Collected diamonds never award again: a second scan, from any position,
      picks up no more than it would have before, and from the same position
      picks up nothing. */
  lemma {:induction false} NoDoubleAward(ds: seq<Diamond>, p: Player, q: Player)
    ensures CountPicked(CollectAll(ds, p), q) <= CountPicked(ds, q)
    ensures CountPicked(CollectAll(ds, p), p) == 0
  {
    if |ds| > 0 {
      NoDoubleAward(ds[1..], p, q);
      assert CollectAll(ds, p)[1..] == CollectAll(ds[1..], p);
    }
  }
}
