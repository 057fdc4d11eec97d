/**
 * Model of Domain/Models/BuildingConfig.cs: the immutable economic parameters
 * of one building type. Cost and income at a level above 1 are the base value
 * scaled by the multiplier once per level above 1 and cut to an integer.
 *
 * The C# multipliers are single-precision floats; here they are exact reals,
 * and the `(int)` cast is truncation toward zero.
 */
module Configs {
  import opened Costs
  import opened Incomes
  import opened Buildings

  /** `m` multiplied into 1, `n` times, in the loop's order. */
  function Power(m: real, n: nat): real
  {
    if n == 0 then 1.0 else Power(m, n - 1) * m
  }

  /** The C# `(int)` conversion of a real: drop the fraction, toward zero. */
  function Truncate(r: real): (i: int)
    ensures 0.0 <= r ==> i as real <= r < i as real + 1.0
    ensures r < 0.0 ==> i as real - 1.0 < r <= i as real
  {
    if r >= 0.0 then r.Floor else -((-r).Floor)
  }

  /** `base` times the multiplier accumulated over `n` multiplications, before truncation. */
  function ScaledReal(base: int, multiplier: real, n: nat): real
  {
    base as real * Power(multiplier, n)
  }

  /** The value of `base` at `level`: `base` up to level 1, scaled `level - 1` times above it. */
  function Scaled(base: int, multiplier: real, level: int): int
  {
    if level <= 1 then base else Truncate(ScaledReal(base, multiplier, level - 1))
  }

  datatype BuildingConfig = BuildingConfig(
    Type: BuildingType,
    BaseCost: Cost,
    BaseIncome: Income,
    MaxLevel: int := 3,
    UpgradeCostMultiplier: real := 1.5,
    UpgradeIncomeMultiplier: real := 2.0)
  {
    /** The price of the building at `level`. */
    function CostForLevel(level: int): Cost
    {
      if level <= 1 then BaseCost else Cost(Scaled(BaseCost.Gold, UpgradeCostMultiplier, level))
    }

    /** The gold per tick the building earns at `level`. */
    function IncomeForLevel(level: int): Income
    {
      if level <= 1 then BaseIncome else Income(Scaled(BaseIncome.GoldPerTick, UpgradeIncomeMultiplier, level))
    }

    /** `GetCostForLevel`: the multiplier accumulated by the source's loop. */
    method GetCostForLevel(level: int) returns (cost: Cost)
      ensures cost == CostForLevel(level)
    {
      if level <= 1 {
        return BaseCost;
      }
      var multiplier := 1.0;
      var i := 1;
      while i < level
        invariant 1 <= i <= level
        invariant multiplier == Power(UpgradeCostMultiplier, i - 1)
      {
        multiplier := multiplier * UpgradeCostMultiplier;
        i := i + 1;
      }
      assert BaseCost.Gold as real * multiplier == ScaledReal(BaseCost.Gold, UpgradeCostMultiplier, level - 1);
      cost := Cost(Truncate(BaseCost.Gold as real * multiplier));
    }

    /** `GetIncomeForLevel`: the same loop over the income multiplier. */
    method GetIncomeForLevel(level: int) returns (income: Income)
      ensures income == IncomeForLevel(level)
    {
      if level <= 1 {
        return BaseIncome;
      }
      var multiplier := 1.0;
      var i := 1;
      while i < level
        invariant 1 <= i <= level
        invariant multiplier == Power(UpgradeIncomeMultiplier, i - 1)
      {
        multiplier := multiplier * UpgradeIncomeMultiplier;
        i := i + 1;
      }
      assert BaseIncome.GoldPerTick as real * multiplier == ScaledReal(BaseIncome.GoldPerTick, UpgradeIncomeMultiplier, level - 1);
      income := Income(Truncate(BaseIncome.GoldPerTick as real * multiplier));
    }
  }

  /** A config built with only type, cost and income takes the defaults 3, 1.5 and 2. */
  lemma ConstructorDefaults(t: BuildingType, cost: Cost, income: Income)
    ensures BuildingConfig(t, cost, income).MaxLevel == 3
    ensures BuildingConfig(t, cost, income).UpgradeCostMultiplier == 1.5
    ensures BuildingConfig(t, cost, income).UpgradeIncomeMultiplier == 2.0
  {
  }

  /** Level 1 and every level below it, 0 and negatives included, cost exactly the base. */
  lemma CostAtOrBelowOne(config: BuildingConfig, level: int)
    requires level <= 1
    ensures config.CostForLevel(level) == config.BaseCost
    ensures config.IncomeForLevel(level) == config.BaseIncome
  {
  }

  /** Each further multiplication keeps a multiplier of at least 1 at least 1. */
  lemma {:induction false} PowerAtLeastOne(m: real, n: nat)
    requires m >= 1.0
    ensures Power(m, n) >= 1.0
  {
    if n > 0 {
      PowerAtLeastOne(m, n - 1);
      var p := Power(m, n - 1);
      assert p * m - p == p * (m - 1.0);
      assert p * (m - 1.0) >= 0.0;
    }
  }

  /** With a multiplier of at least 1, more multiplications never give less. */
  lemma {:induction false} PowerMonotone(m: real, a: nat, b: nat)
    requires m >= 1.0 && a <= b
    ensures Power(m, a) <= Power(m, b)
  {
    if a < b {
      PowerMonotone(m, a, b - 1);
      PowerAtLeastOne(m, b - 1);
      var p := Power(m, b - 1);
      assert p * m - p == p * (m - 1.0);
      assert p * (m - 1.0) >= 0.0;
    }
  }

  /** A non-negative multiplier never makes the accumulated multiplier negative. */
  lemma {:induction false} PowerNonNegative(m: real, n: nat)
    requires m >= 0.0
    ensures Power(m, n) >= 0.0
  {
    if n > 0 {
      PowerNonNegative(m, n - 1);
      var p := Power(m, n - 1);
      assert p * m >= 0.0;
    }
  }

  /** Truncation keeps the order of non-negative reals. */
  lemma TruncateMonotone(x: real, y: real)
    requires 0.0 <= x <= y
    ensures 0 <= Truncate(x) <= Truncate(y)
  {
    assert Truncate(x) as real <= x <= y < Truncate(y) as real + 1.0;
  }

  /** A product of two non-negative reals is non-negative. */
  lemma ProductNonNegative(b: real, d: real)
    requires b >= 0.0 && d >= 0.0
    ensures b * d >= 0.0
  {
  }

  /** Truncating three ordered non-negative reals keeps their order. */
  lemma TruncateChain(a: real, c: real, d: real)
    requires 0.0 <= a <= c <= d
    ensures Truncate(a) <= Truncate(c) <= Truncate(d)
  {
    TruncateMonotone(a, c);
    TruncateMonotone(c, d);
  }

  /** Scaling a non-negative base keeps the order of the factors. */
  lemma ScaleMonotone(b: real, x: real, y: real)
    requires b >= 0.0 && x <= y
    ensures b * x <= b * y
  {
    ProductNonNegative(b, y - x);
    assert b * y == b * x + b * (y - x);
  }

  /** An integer converts to itself. */
  lemma TruncateInteger(n: int)
    ensures Truncate(n as real) == n
  {
    assert (n as real).Floor == n;
    assert (-(n as real)).Floor == -n;
  }

  /** Every level, at or below 1 too, is the base scaled by `max(level - 1, 0)` multiplications. */
  lemma ScaledIsPower(base: int, m: real, level: int)
    ensures Scaled(base, m, level) == Truncate(ScaledReal(base, m, if level <= 1 then 0 else level - 1))
  {
    if level <= 1 {
      assert Power(m, 0) == 1.0;
      assert ScaledReal(base, m, 0) == base as real;
      TruncateInteger(base);
    }
  }

  /** Scaling a non-negative real by factors `1 <= x <= y` keeps it and their order. */
  lemma ScaledBounds(b: real, x: real, y: real)
    requires b >= 0.0 && 1.0 <= x <= y
    ensures 0.0 <= b <= b * x <= b * y
  {
    ScaleMonotone(b, 1.0, x);
    ScaleMonotone(b, x, y);
  }

  /** Scaling a non-negative real by factors `1 <= x <= y` and truncating keeps their order. */
  lemma TruncatedScaleMonotone(b: real, x: real, y: real)
    requires b >= 0.0 && 1.0 <= x <= y
    ensures Truncate(b) <= Truncate(b * x) <= Truncate(b * y)
  {
    ScaledBounds(b, x, y);
    TruncateChain(b, b * x, b * y);
  }

  /** Scaling a non-negative base by more multiplications never gives less, nor less than the base. */
  lemma ScaledRealMonotone(base: int, m: real, a1: nat, a2: nat)
    requires base >= 0 && m >= 1.0 && a1 <= a2
    ensures base <= Truncate(ScaledReal(base, m, a1)) <= Truncate(ScaledReal(base, m, a2))
  {
    var b, p1, p2 := base as real, Power(m, a1), Power(m, a2);
    PowerAtLeastOne(m, a1);
    PowerMonotone(m, a1, a2);
    TruncatedScaleMonotone(b, p1, p2);
    TruncateInteger(base);
    assert ScaledReal(base, m, a1) == b * p1;
    assert ScaledReal(base, m, a2) == b * p2;
  }

  /**
   * With a non-negative base and a multiplier of at least 1, a higher level is
   * never cheaper (nor, for income, less profitable) than a lower one.
   */
  lemma ScaledMonotone(base: int, m: real, l1: int, l2: int)
    requires base >= 0 && m >= 1.0 && l1 <= l2
    ensures base <= Scaled(base, m, l1) <= Scaled(base, m, l2)
  {
    var a1: nat := if l1 <= 1 then 0 else l1 - 1;
    var a2: nat := if l2 <= 1 then 0 else l2 - 1;
    ScaledIsPower(base, m, l1);
    ScaledIsPower(base, m, l2);
    ScaledRealMonotone(base, m, a1, a2);
  }

  /** Upgrade prices never fall as the level rises (for a non-negative base and a multiplier of at least 1). */
  lemma CostMonotone(config: BuildingConfig, l1: int, l2: int)
    requires config.BaseCost.Gold >= 0 && config.UpgradeCostMultiplier >= 1.0 && l1 <= l2
    ensures config.BaseCost.Gold <= config.CostForLevel(l1).Gold <= config.CostForLevel(l2).Gold
  {
    ScaledMonotone(config.BaseCost.Gold, config.UpgradeCostMultiplier, l1, l2);
  }

  /** Income never falls as the level rises (for a non-negative base and a multiplier of at least 1). */
  lemma IncomeMonotone(config: BuildingConfig, l1: int, l2: int)
    requires config.BaseIncome.GoldPerTick >= 0 && config.UpgradeIncomeMultiplier >= 1.0 && l1 <= l2
    ensures config.BaseIncome.GoldPerTick <= config.IncomeForLevel(l1).GoldPerTick <= config.IncomeForLevel(l2).GoldPerTick
  {
    ScaledMonotone(config.BaseIncome.GoldPerTick, config.UpgradeIncomeMultiplier, l1, l2);
  }

  /** A non-negative base with a non-negative multiplier gives a non-negative value at every level. */
  lemma ScaledNonNegative(base: int, m: real, level: int)
    requires base >= 0 && m >= 0.0
    ensures Scaled(base, m, level) >= 0
  {
    if level > 1 {
      PowerNonNegative(m, level - 1);
      assert ScaledReal(base, m, level - 1) >= 0.0;
    }
  }

  /**
   * A house with base cost 100 and the default multiplier 1.5: the upgrade to
   * level 2 costs 150 and the upgrade to level 3 costs 225.
   */
  lemma HouseUpgradePrices(income: Income)
    ensures BuildingConfig(House, Cost(100), income).CostForLevel(2) == Cost(150)
    ensures BuildingConfig(House, Cost(100), income).CostForLevel(3) == Cost(225)
  {
    assert Power(1.5, 1) == 1.5;
    assert Power(1.5, 2) == 2.25;
  }
}
