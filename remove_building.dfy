/**
 * Model of Application/UseCases/RemoveBuildingUseCase.cs: find the building by
 * id, empty its cell and announce its id and position.
 */
module RemoveUseCase {
  import opened Buildings
  import opened Grids
  import opened Events
  import opened Dtos
  import opened Lookup

  class RemoveBuildingUseCase {
    const grid: BuildingGrid
    const bus: EventBus

    constructor (grid: BuildingGrid, bus: EventBus)
      ensures this.grid == grid && this.bus == bus
    {
      this.grid := grid;
      this.bus := bus;
    }

    /**
     * `Execute`. `removed` names the building the lookup found (null when no
     * building has the id). With unique ids, no building with the id is left.
     */
    method Execute(dto: RemoveBuildingDto) returns (ghost removed: Building?)
      requires grid.Valid()
      modifies grid, bus
      ensures grid.Valid()
      ensures old(grid.UniqueIds()) ==> grid.UniqueIds()
      ensures removed == null <==> forall b :: b in old(grid.cells.Values) ==> b.Id != dto.BuildingId
      // unknown id: nothing changes, nothing is published
      ensures removed == null ==> grid.cells == old(grid.cells) && bus.log == old(bus.log)
      // found: its cell is emptied, every other cell kept, and its id and position announced
      ensures removed != null ==>
        && removed in old(grid.cells.Values) && removed.Id == dto.BuildingId
        && grid.cells == old(grid.cells) - {removed.Position}
        && bus.log == old(bus.log) + [BuildingRemoved(dto.BuildingId, removed.Position)]
      ensures old(grid.UniqueIds()) ==> forall b :: b in grid.cells.Values ==> b.Id != dto.BuildingId
    {
      var building := FindBuildingById(grid, dto.BuildingId);
      removed := building;
      if building == null {
        return;
      }

      grid.RemoveBuilding(building.Position);
      if old(grid.UniqueIds()) {
        DistinctIdsAfterRemove(old(grid.cells), building.Position);
      }
      bus.Publish(BuildingRemoved(building.Id, building.Position));
    }
  }

  /**
   * Removing the same id twice: with unique ids the second removal finds
   * nothing, so the pair has exactly the effect of the first removal alone.
   */
  method RemoveTwice(useCase: RemoveBuildingUseCase, dto: RemoveBuildingDto) returns (ghost first: Building?)
    requires useCase.grid.Valid() && useCase.grid.UniqueIds()
    modifies useCase.grid, useCase.bus
    ensures useCase.grid.Valid() && useCase.grid.UniqueIds()
    ensures first == null ==>
      useCase.grid.cells == old(useCase.grid.cells) && useCase.bus.log == old(useCase.bus.log)
    ensures first != null ==>
      && useCase.grid.cells == old(useCase.grid.cells) - {first.Position}
      && useCase.bus.log == old(useCase.bus.log) + [BuildingRemoved(dto.BuildingId, first.Position)]
  {
    first := useCase.Execute(dto);
    var second := useCase.Execute(dto);
  }
}
