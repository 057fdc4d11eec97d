/** Model of Domain/Models/Income.cs: an immutable amount of gold earned per tick. */
module Incomes {

  datatype Income = Income(GoldPerTick: int)

  /** `Income.Zero`. */
  function ZeroIncome(): (i: Income)
    ensures i.GoldPerTick == 0
  {
    Income(0)
  }

  /** A one-field struct: two incomes are equal exactly when their gold per tick is. */
  lemma IncomeEquality(a: Income, b: Income)
    ensures a == b <==> a.GoldPerTick == b.GoldPerTick
  {
  }
}
