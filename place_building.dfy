/**
 * Model of Application/UseCases/PlaceBuildingUseCase.cs: check the cell, look
 * up the price, check the balance, then pay, build and announce.
 */
module PlaceUseCase {
  import opened GridPositions
  import opened Costs
  import opened Buildings
  import opened Resources
  import opened Grids
  import opened Configs
  import opened Events
  import opened Dtos

  class PlaceBuildingUseCase {
    const grid: BuildingGrid
    const resources: GameResources
    /** The config lookup, as a table from type to config. */
    const configs: map<BuildingType, BuildingConfig>
    const bus: EventBus

    constructor (grid: BuildingGrid, resources: GameResources, configs: map<BuildingType, BuildingConfig>, bus: EventBus)
      ensures this.grid == grid && this.resources == resources
      ensures this.configs == configs && this.bus == bus
    {
      this.grid := grid;
      this.resources := resources;
      this.configs := configs;
      this.bus := bus;
    }

    /**
     * `Execute`. `newId` is what the id generator returns: an id no building on
     * the grid carries. The config is read without a null check once the cell
     * has passed, so the type must have one there.
     */
    method Execute(dto: PlaceBuildingDto, newId: string)
      requires grid.Valid()
      requires grid.CanPlaceBuilding(dto.Position) ==> dto.Type in configs
      requires forall b :: b in grid.cells.Values ==> b.Id != newId
      modifies grid, resources, bus
      ensures grid.Valid()
      ensures old(grid.UniqueIds()) ==> grid.UniqueIds()
      // an occupied or out-of-bounds cell: nothing happens, nothing is published
      ensures !old(grid.CanPlaceBuilding(dto.Position)) ==>
        && grid.cells == old(grid.cells)
        && resources.Gold == old(resources.Gold)
        && bus.log == old(bus.log)
      // too poor: one InsufficientResources with the price and the balance
      ensures old(grid.CanPlaceBuilding(dto.Position)) && !old(resources.CanAfford(configs[dto.Type].BaseCost)) ==>
        && grid.cells == old(grid.cells)
        && resources.Gold == old(resources.Gold)
        && bus.log == old(bus.log) + [InsufficientResources(configs[dto.Type].BaseCost, old(resources.Gold))]
      // success: pay the base cost, a new level-1 building stands in the cell, placed then balance
      ensures old(grid.CanPlaceBuilding(dto.Position)) && old(resources.CanAfford(configs[dto.Type].BaseCost)) ==>
        && resources.Gold == old(resources.Gold) - configs[dto.Type].BaseCost.Gold
        && resources.Gold >= 0
        && dto.Position in grid.cells
        && fresh(grid.cells[dto.Position])
        && grid.cells == old(grid.cells)[dto.Position := grid.cells[dto.Position]]
        && grid.cells[dto.Position].State() == BuildingState(newId, dto.Type, dto.Position, 1)
        && bus.log == old(bus.log) + [BuildingPlaced(grid.cells[dto.Position]), ResourcesChanged(resources.Gold)]
    {
      if !grid.CanPlaceBuilding(dto.Position) {
        return;
      }

      var config := configs[dto.Type];
      var cost := config.BaseCost;

      if !resources.CanAfford(cost) {
        bus.Publish(InsufficientResources(cost, resources.Gold));
        return;
      }

      Commit(dto, newId, cost);
    }

    /** The paying half of `Execute`: spend, build, place, then announce placement and balance. */
    method Commit(dto: PlaceBuildingDto, newId: string, cost: Cost)
      requires grid.Valid()
      requires dto.Position !in grid.cells && resources.Gold >= cost.Gold
      requires forall p :: p in grid.cells ==> grid.cells[p].Id != newId
      modifies grid, resources, bus
      ensures grid.Valid()
      ensures old(grid.UniqueIds()) ==> grid.UniqueIds()
      ensures resources.Gold == old(resources.Gold) - cost.Gold >= 0
      ensures dto.Position in grid.cells && fresh(grid.cells[dto.Position])
      ensures grid.cells == old(grid.cells)[dto.Position := grid.cells[dto.Position]]
      ensures grid.cells[dto.Position].State() == BuildingState(newId, dto.Type, dto.Position, 1)
      ensures bus.log == old(bus.log) + [BuildingPlaced(grid.cells[dto.Position]), ResourcesChanged(resources.Gold)]
    {
      resources.Spend(cost);

      var building := new Building(newId, dto.Type, dto.Position);
      grid.PlaceBuilding(building);
      if old(grid.UniqueIds()) {
        DistinctIdsAfterStore(old(grid.cells), dto.Position, building);
      }

      ghost var log0 := bus.log;
      bus.Publish(BuildingPlaced(building));
      bus.Publish(ResourcesChanged(resources.Gold));
      assert bus.log == log0 + [BuildingPlaced(building), ResourcesChanged(resources.Gold)];
    }
  }
}
