/**
 * Model of Application/UseCases/MoveBuildingUseCase.cs: find the building by
 * id, check the target cell, take it out of its old cell, move it and store it
 * in the new one.
 */
module MoveUseCase {
  import opened GridPositions
  import opened Buildings
  import opened Grids
  import opened Events
  import opened Dtos
  import opened Lookup

  class MoveBuildingUseCase {
    const grid: BuildingGrid
    const bus: EventBus

    constructor (grid: BuildingGrid, bus: EventBus)
      ensures this.grid == grid && this.bus == bus
    {
      this.grid := grid;
      this.bus := bus;
    }

    /**
     * `Execute`. `moved` names the building the lookup found (null when no
     * building has the id); only a building with the id may change.
     */
    method Execute(dto: MoveBuildingDto) returns (ghost moved: Building?)
      requires grid.Valid()
      modifies grid, bus, set b | b in grid.cells.Values && b.Id == dto.BuildingId
      ensures grid.Valid()
      ensures old(grid.UniqueIds()) ==> grid.UniqueIds()
      ensures moved == null <==> forall b :: b in old(grid.cells.Values) ==> b.Id != dto.BuildingId
      ensures moved != null ==> moved in old(grid.cells.Values) && moved.Id == dto.BuildingId
      // every other building, one sharing the id included, is left as it was
      ensures forall b :: b in old(grid.cells.Values) && b != moved ==> unchanged(b)
      // unknown id, or a target cell off the board or taken: nothing changes
      ensures moved == null || !old(grid.CanPlaceBuilding(dto.NewPosition)) ==>
        && grid.cells == old(grid.cells)
        && grid.View() == old(grid.View())
        && bus.log == old(bus.log)
      // success: the building leaves its old cell for the new one, keeping id, type and level
      ensures moved != null && old(grid.CanPlaceBuilding(dto.NewPosition)) ==>
        && grid.cells == (old(grid.cells) - {old(moved.Position)})[dto.NewPosition := moved]
        && moved.State() == old(moved.State()).(Position := dto.NewPosition)
        && bus.log == old(bus.log) + [BuildingMoved(moved, old(moved.Position))]
    {
      var building := FindBuildingById(grid, dto.BuildingId);
      moved := building;
      if building == null {
        return;
      }

      if !grid.CanPlaceBuilding(dto.NewPosition) {
        return;
      }

      var oldPosition := building.Position;
      grid.RemoveBuilding(oldPosition);

      building.SetPosition(dto.NewPosition);
      grid.PlaceBuilding(building);
      if old(grid.UniqueIds()) {
        DistinctIdsAfterRemove(old(grid.cells), oldPosition);
        DistinctIdsAfterStore(old(grid.cells) - {oldPosition}, dto.NewPosition, building);
      }

      bus.Publish(BuildingMoved(building, oldPosition));
    }
  }
}
