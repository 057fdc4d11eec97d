/**
 * Model of Domain/Models/GameResources.cs: the single gold balance. `Spend`
 * has no guard of its own; callers check `CanAfford` first.
 */
module Resources {
  import opened Costs

  /** The constructor's default starting balance. */
  const DefaultInitialGold: int := 1000

  class GameResources {
    var Gold: int

    constructor (initialGold: int := DefaultInitialGold)
      ensures Gold == initialGold
    {
      Gold := initialGold;
    }

    /** A cost is affordable exactly when paying it leaves a non-negative balance. */
    function CanAfford(cost: Cost): (r: bool)
      reads this
      ensures r <==> Gold - cost.Gold >= 0
    {
      Gold >= cost.Gold
    }

    /**
     * Subtracts the cost unconditionally; only a prior `CanAfford` keeps the
     * balance from going negative.
     */
    method Spend(cost: Cost)
      modifies this
      ensures Gold == old(Gold) - cost.Gold
      ensures old(CanAfford(cost)) ==> Gold >= 0
      ensures !old(CanAfford(cost)) ==> Gold < 0
    {
      Gold := Gold - cost.Gold;
    }

    /** Credits `gold`. */
    method Add(gold: int)
      modifies this
      ensures Gold == old(Gold) + gold
    {
      Gold := Gold + gold;
    }

    /** Overwrites the balance whatever it was. */
    method SetGold(gold: int)
      modifies this
      ensures Gold == gold
    {
      Gold := gold;
    }
  }
}
