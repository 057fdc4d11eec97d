/**
 * Model of Application/Services/EconomyService.cs: on every tick the service
 * sums the income of every building on the grid at its current level, credits
 * the sum and announces the new balance.
 */
module Economy {
  import opened GridPositions
  import opened Incomes
  import opened Buildings
  import opened Resources
  import opened Grids
  import opened Configs
  import opened Events

  /** Every building in `view` has a config for its type. */
  ghost predicate Configured(configs: map<BuildingType, BuildingConfig>, view: map<GridPosition, BuildingState>)
  {
    forall p :: p in view ==> view[p].Type in configs
  }

  /** The gold per tick one building earns at its level. */
  function IncomeOf(configs: map<BuildingType, BuildingConfig>, s: BuildingState): int
    requires s.Type in configs
  {
    configs[s.Type].IncomeForLevel(s.Level).GoldPerTick
  }

  /** The income of every building in `view`, each counted once, in no particular order. */
  ghost function TotalIncome(configs: map<BuildingType, BuildingConfig>, view: map<GridPosition, BuildingState>): int
    requires Configured(configs, view)
    decreases |view|
  {
    if view == map[] then 0
    else
      var p :| p in view;
      IncomeOf(configs, view[p]) + TotalIncome(configs, view - {p})
  }

  /** The total is any one building's income plus the total of the others: the order does not matter. */
  lemma {:induction false} TotalIncomeRemove(configs: map<BuildingType, BuildingConfig>, view: map<GridPosition, BuildingState>, p: GridPosition)
    requires Configured(configs, view) && p in view
    ensures TotalIncome(configs, view) == IncomeOf(configs, view[p]) + TotalIncome(configs, view - {p})
    decreases |view|
  {
    var q :| q in view && TotalIncome(configs, view) == IncomeOf(configs, view[q]) + TotalIncome(configs, view - {q});
    if q != p {
      var rest := view - {q};
      assert p in rest && rest[p] == view[p];
      TotalIncomeRemove(configs, rest, p);
      assert rest - {p} == (view - {p}) - {q};
      assert q in view - {p} && (view - {p})[q] == view[q];
      TotalIncomeRemove(configs, view - {p}, q);
    }
  }

  /** Every state in `states` has a config for its type. */
  ghost predicate AllConfigured(configs: map<BuildingType, BuildingConfig>, states: seq<BuildingState>)
  {
    forall k :: 0 <= k < |states| ==> states[k].Type in configs
  }

  /** The income of the first `n` of `states`, added up in the order given. */
  function SumIncome(configs: map<BuildingType, BuildingConfig>, states: seq<BuildingState>, n: nat): int
    requires n <= |states| && AllConfigured(configs, states)
  {
    if n == 0 then 0
    else SumIncome(configs, states, n - 1) + IncomeOf(configs, states[n - 1])
  }

  /**
   * Adding up the first `n` of `states`, which list every building of `view`
   * exactly once, gives the total: the order of the listing does not matter.
   */
  lemma {:induction false} SumIncomeIsTotal(configs: map<BuildingType, BuildingConfig>, view: map<GridPosition, BuildingState>,
                                            states: seq<BuildingState>, n: nat)
    requires n <= |states| && AllConfigured(configs, states) && Configured(configs, view)
    requires forall k :: 0 <= k < n ==> states[k].Position in view && view[states[k].Position] == states[k]
    requires forall j, k :: 0 <= j < k < n ==> states[j].Position != states[k].Position
    requires n == |view|
    ensures SumIncome(configs, states, n) == TotalIncome(configs, view)
  {
    if n > 0 {
      var p := states[n - 1].Position;
      SumIncomeIsTotal(configs, view - {p}, states, n - 1);
      TotalIncomeRemove(configs, view, p);
    } else {
      assert view == map[];
    }
  }

  /** With no buildings there is no income. */
  lemma NoBuildingsNoIncome(configs: map<BuildingType, BuildingConfig>)
    ensures TotalIncome(configs, map[]) == 0
  {
  }

  /** A building stored in a free cell adds exactly its own income to the total. */
  lemma TotalIncomeAdd(configs: map<BuildingType, BuildingConfig>, view: map<GridPosition, BuildingState>, p: GridPosition, s: BuildingState)
    requires Configured(configs, view) && s.Type in configs && p !in view
    ensures Configured(configs, view[p := s])
    ensures TotalIncome(configs, view[p := s]) == TotalIncome(configs, view) + IncomeOf(configs, s)
  {
    TotalIncomeRemove(configs, view[p := s], p);
    assert view[p := s] - {p} == view;
  }

  /** Taking a building off the grid takes exactly its own income off the total. */
  lemma TotalIncomeDrop(configs: map<BuildingType, BuildingConfig>, view: map<GridPosition, BuildingState>, p: GridPosition)
    requires Configured(configs, view) && p in view
    ensures TotalIncome(configs, view - {p}) == TotalIncome(configs, view) - IncomeOf(configs, view[p])
  {
    TotalIncomeRemove(configs, view, p);
  }

  /**
   * Raising one building's level never lowers the total, when that type's base
   * income is non-negative and its multiplier at least 1.
   */
  lemma TotalIncomeUpgrade(configs: map<BuildingType, BuildingConfig>, view: map<GridPosition, BuildingState>, p: GridPosition, level: int)
    requires Configured(configs, view) && p in view && view[p].Level <= level
    requires configs[view[p].Type].BaseIncome.GoldPerTick >= 0
    requires configs[view[p].Type].UpgradeIncomeMultiplier >= 1.0
    ensures Configured(configs, view[p := view[p].(Level := level)])
    ensures TotalIncome(configs, view) <= TotalIncome(configs, view[p := view[p].(Level := level)])
  {
    var s := view[p];
    var raised := view[p := s.(Level := level)];
    TotalIncomeRemove(configs, view, p);
    TotalIncomeRemove(configs, raised, p);
    assert raised - {p} == view - {p};
    IncomeMonotone(configs[s.Type], s.Level, level);
  }

  /** Under configs with non-negative base incomes and multipliers, the total is never negative. */
  lemma {:induction false} TotalIncomeNonNegative(configs: map<BuildingType, BuildingConfig>, view: map<GridPosition, BuildingState>)
    requires Configured(configs, view)
    requires forall t :: t in configs ==> configs[t].BaseIncome.GoldPerTick >= 0 && configs[t].UpgradeIncomeMultiplier >= 0.0
    ensures TotalIncome(configs, view) >= 0
    decreases |view|
  {
    if view != map[] {
      var p :| p in view;
      TotalIncomeRemove(configs, view, p);
      TotalIncomeNonNegative(configs, view - {p});
      var c := configs[view[p].Type];
      ScaledNonNegative(c.BaseIncome.GoldPerTick, c.UpgradeIncomeMultiplier, view[p].Level);
    }
  }

  /** A level-1 house earning 5 and a level-1 farm earning 10 bring in 15 per tick. */
  lemma HouseAndFarmIncome(houseCost: int, farmCost: int)
    ensures
      var configs := map[House := BuildingConfig(House, Costs.Cost(houseCost), Income(5)),
                         Farm := BuildingConfig(Farm, Costs.Cost(farmCost), Income(10))];
      var view := map[GridPosition(0, 0) := BuildingState("h", House, GridPosition(0, 0), 1),
                      GridPosition(1, 0) := BuildingState("f", Farm, GridPosition(1, 0), 1)];
      Configured(configs, view) && TotalIncome(configs, view) == 15
  {
    var configs := map[House := BuildingConfig(House, Costs.Cost(houseCost), Income(5)),
                       Farm := BuildingConfig(Farm, Costs.Cost(farmCost), Income(10))];
    var h, f := GridPosition(0, 0), GridPosition(1, 0);
    var house, farm := BuildingState("h", House, h, 1), BuildingState("f", Farm, f, 1);
    TotalIncomeAdd(configs, map[], h, house);
    TotalIncomeAdd(configs, map[h := house], f, farm);
    assert map[h := house][f := farm] == map[h := house, f := farm];
  }

  /** The current state of each building in `all`, in the same order. */
  ghost function StatesOf(all: seq<Building>): (states: seq<BuildingState>)
    reads all
    ensures |states| == |all| && forall k :: 0 <= k < |all| ==> states[k] == all[k].State()
  {
    seq(|all|, k requires 0 <= k < |all| reads all => all[k].State())
  }

  /** Adding up a listing of the grid's buildings gives the grid's total income. */
  lemma SnapshotIncome(configs: map<BuildingType, BuildingConfig>, grid: BuildingGrid, all: seq<Building>, states: seq<BuildingState>)
    requires grid.Valid() && Configured(configs, grid.View())
    requires forall b :: b in all ==> b in grid.cells.Values
    requires forall j, k :: 0 <= j < k < |all| ==> all[j].Position != all[k].Position
    requires |all| == |grid.cells|
    requires |states| == |all| && forall k :: 0 <= k < |all| ==> states[k] == all[k].State()
    ensures AllConfigured(configs, states)
    ensures SumIncome(configs, states, |states|) == TotalIncome(configs, grid.View())
  {
    grid.SnapshotInView(all, states);
    SumIncomeIsTotal(configs, grid.View(), states, |states|);
  }

  class EconomyService {
    const grid: BuildingGrid
    const resources: GameResources
    /** The config lookup, as a table from type to config. */
    const configs: map<BuildingType, BuildingConfig>
    const bus: EventBus
    /** Seconds between ticks; the timer itself is not part of this model. */
    const tickInterval: real

    constructor (grid: BuildingGrid, resources: GameResources, configs: map<BuildingType, BuildingConfig>,
                 bus: EventBus, tickInterval: real := 2.0)
      ensures this.grid == grid && this.resources == resources && this.configs == configs
      ensures this.bus == bus && this.tickInterval == tickInterval
    {
      this.grid := grid;
      this.resources := resources;
      this.configs := configs;
      this.bus := bus;
      this.tickInterval := tickInterval;
    }

    /**
     * `CalculateTotalIncome`: the loop over the grid's buildings, in the grid's
     * order, adds up each one's income at its level. The config is read without
     * a null check, so every building's type must have one.
     */
    method CalculateTotalIncome() returns (total: int)
      requires grid.Valid() && Configured(configs, grid.View())
      ensures total == TotalIncome(configs, grid.View())
    {
      var all := grid.GetAllBuildings();
      forall b | b in all
        ensures b.Type in configs
      {
        grid.StoredAtPosition(b);
      }
      total := SumBuildingIncomes(all);
      SnapshotIncome(configs, grid, all, StatesOf(all));
    }

    /** The loop of `CalculateTotalIncome`: each building's income at its level, added up in order. */
    method SumBuildingIncomes(all: seq<Building>) returns (total: int)
      requires forall b :: b in all ==> b.Type in configs
      ensures total == SumIncome(configs, StatesOf(all), |all|)
    {
      ghost var states := StatesOf(all);
      assert AllConfigured(configs, states);
      total := 0;
      for i := 0 to |all|
        invariant forall k :: 0 <= k < |all| ==> all[k].State() == states[k]
        invariant AllConfigured(configs, states)
        invariant total == SumIncome(configs, states, i)
      {
        var building := all[i];
        var config := configs[building.Type];
        var income := config.GetIncomeForLevel(building.Level);
        total := total + income.GoldPerTick;
      }
    }

    /**
     * One pass of `IncomeLoopAsync` once its delay has elapsed: when
     * cancellation has been requested the pass stops without touching
     * anything; otherwise it credits the total income and announces the new
     * balance. The grid is never changed.
     */
    method Tick(cancellationRequested: bool)
      requires grid.Valid() && Configured(configs, grid.View())
      modifies resources, bus
      ensures cancellationRequested ==> resources.Gold == old(resources.Gold) && bus.log == old(bus.log)
      ensures !cancellationRequested ==>
        && resources.Gold == old(resources.Gold) + TotalIncome(configs, grid.View())
        && bus.log == old(bus.log) + [ResourcesChanged(resources.Gold)]
    {
      if cancellationRequested {
        return;
      }
      var totalIncome := CalculateTotalIncome();
      resources.Add(totalIncome);
      bus.Publish(ResourcesChanged(resources.Gold));
    }
  }
}
