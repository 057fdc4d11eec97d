/**
 * Model of Application/UseCases/UpgradeBuildingUseCase.cs: find the building
 * by id, check its level cap, price the next level, check the balance, then
 * pay, raise the level and announce.
 */
module UpgradeUseCase {
  import opened Costs
  import opened Buildings
  import opened Resources
  import opened Grids
  import opened Configs
  import opened Events
  import opened Dtos
  import opened Lookup

  class UpgradeBuildingUseCase {
    const grid: BuildingGrid
    const resources: GameResources
    /** The config lookup, as a table from type to config. */
    const configs: map<BuildingType, BuildingConfig>
    const bus: EventBus

    constructor (grid: BuildingGrid, resources: GameResources, configs: map<BuildingType, BuildingConfig>, bus: EventBus)
      ensures this.grid == grid && this.resources == resources
      ensures this.configs == configs && this.bus == bus
    {
      this.grid := grid;
      this.resources := resources;
      this.configs := configs;
      this.bus := bus;
    }

    /** The price `Execute` asks for raising `b` one level. */
    ghost function NextLevelPrice(b: Building): Cost
      requires b.Type in configs
      reads b
    {
      configs[b.Type].CostForLevel(b.Level + 1)
    }

    /**
     * `Execute`. `target` names the building the lookup found (null when no
     * building has the id). Its config is read without a null check, so a
     * found building's type must have one.
     */
    method Execute(dto: UpgradeBuildingDto) returns (ghost target: Building?)
      requires grid.Valid()
      requires forall b :: b in grid.cells.Values && b.Id == dto.BuildingId ==> b.Type in configs
      modifies resources, bus, set b | b in grid.cells.Values && b.Id == dto.BuildingId
      ensures grid.Valid()
      ensures target == null <==> forall b :: b in grid.cells.Values ==> b.Id != dto.BuildingId
      ensures target != null ==> target in grid.cells.Values && target.Id == dto.BuildingId && target.Type in configs
      // every other building, one sharing the id included, is left as it was
      ensures forall b :: b in grid.cells.Values && b != target ==> unchanged(b)
      // unknown id, or already at the config's maximum level: nothing changes
      ensures target == null || !old(target.CanUpgrade(configs[target.Type].MaxLevel)) ==>
        && resources.Gold == old(resources.Gold)
        && (target != null ==> target.State() == old(target.State()))
        && bus.log == old(bus.log)
      // too poor for the next level: one InsufficientResources with the price and the balance
      ensures target != null && old(target.CanUpgrade(configs[target.Type].MaxLevel))
              && !old(resources.CanAfford(NextLevelPrice(target))) ==>
        && resources.Gold == old(resources.Gold)
        && target.State() == old(target.State())
        && bus.log == old(bus.log) + [InsufficientResources(old(NextLevelPrice(target)), old(resources.Gold))]
      // success: pay the next level's price, one level up, upgraded then balance
      ensures target != null && old(target.CanUpgrade(configs[target.Type].MaxLevel))
              && old(resources.CanAfford(NextLevelPrice(target))) ==>
        && resources.Gold == old(resources.Gold) - old(NextLevelPrice(target)).Gold
        && resources.Gold >= 0
        && target.State() == old(target.State()).(Level := old(target.Level) + 1)
        && target.Level <= configs[target.Type].MaxLevel
        && bus.log == old(bus.log) + [BuildingUpgraded(target), ResourcesChanged(resources.Gold)]
    {
      var building := FindBuildingById(grid, dto.BuildingId);
      target := building;
      if building == null {
        return;
      }

      var config := configs[building.Type];

      if !building.CanUpgrade(config.MaxLevel) {
        return;
      }

      var upgradeCost := config.GetCostForLevel(building.Level + 1);

      if !resources.CanAfford(upgradeCost) {
        bus.Publish(InsufficientResources(upgradeCost, resources.Gold));
        return;
      }

      resources.Spend(upgradeCost);
      building.Upgrade();

      bus.Publish(BuildingUpgraded(building));
      bus.Publish(ResourcesChanged(resources.Gold));
    }
  }
}
