/** Model of Domain/Models/Cost.cs: an immutable amount of gold to pay. */
module Costs {

  datatype Cost = Cost(Gold: int)

  /** `Cost.Zero`. */
  function ZeroCost(): (c: Cost)
    ensures c.Gold == 0
  {
    Cost(0)
  }

  /** A one-field struct: two costs are equal exactly when their gold is. */
  lemma CostEquality(a: Cost, b: Cost)
    ensures a == b <==> a.Gold == b.Gold
  {
  }
}
