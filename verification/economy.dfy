/** The shop and the prize guard (game.js:371-418): coins are only ever spent
    when the balance covers the price, so a non-negative balance stays so. */
module Economy {
  import opened Entities

  const BootsCost: int := 100
  const JetpackCost: int := 250
  const RedeemCost: int := 1000

  /** Which of `buyItem`'s branches was taken (its alerts, game.js:377-398). */
  datatype Purchase = Bought | AlreadyOwned | CannotAfford(cost: int) | UnknownItem

  /** Balance, power-ups and outcome after `buyItem(item)` (game.js:371-399). */
  datatype Sale = Sale(coins: int, powerUps: PowerUps, outcome: Purchase)

  function BuyItem(item: string, coins: int, pu: PowerUps): (r: Sale)
    // bought exactly when the item is known, not owned, and affordable
    ensures r.outcome == Bought <==>
      || (item == "boots" && !pu.boots && coins >= BootsCost)
      || (item == "jetpack" && !pu.jetpack && coins >= JetpackCost)
    // a purchase deducts the item's price and unlocks just that item
    ensures r.outcome == Bought && item == "boots" ==>
      r.coins == coins - BootsCost && r.powerUps == pu.(boots := true)
    ensures r.outcome == Bought && item == "jetpack" ==>
      r.coins == coins - JetpackCost && r.powerUps == pu.(jetpack := true)
    // every other branch changes nothing
    ensures r.outcome != Bought ==> r.coins == coins && r.powerUps == pu
    ensures r.outcome == UnknownItem <==> item != "boots" && item != "jetpack"
    // the balance never goes negative and never grows
    ensures 0 <= coins ==> 0 <= r.coins
    ensures r.coins <= coins
  {
    if item == "boots" then
      if pu.boots then Sale(coins, pu, AlreadyOwned)
      else if coins >= BootsCost then Sale(coins - BootsCost, pu.(boots := true), Bought)
      else Sale(coins, pu, CannotAfford(BootsCost))
    else if item == "jetpack" then
      if pu.jetpack then Sale(coins, pu, AlreadyOwned)
      else if coins >= JetpackCost then Sale(coins - JetpackCost, pu.(jetpack := true), Bought)
      else Sale(coins, pu, CannotAfford(JetpackCost))
    else Sale(coins, pu, UnknownItem)
  }

  /** A purchase is never repeated: once bought, buying the same item again
      changes nothing. */
  lemma BuyOnce(item: string, coins: int, pu: PowerUps)
    requires BuyItem(item, coins, pu).outcome == Bought
    ensures var s := BuyItem(item, coins, pu);
      BuyItem(item, s.coins, s.powerUps) == Sale(s.coins, s.powerUps, AlreadyOwned)
  {
  }
}
