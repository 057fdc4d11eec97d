/**
 * The `FindBuildingById` scan that the move, upgrade and remove use cases each
 * carry as an identical private copy: walk the grid's buildings and stop at the
 * first one with the id.
 */
module Lookup {
  import opened Buildings
  import opened Grids

  method FindBuildingById(grid: BuildingGrid, id: string) returns (found: Building?)
    requires grid.Valid()
    ensures found == null <==> forall b :: b in grid.cells.Values ==> b.Id != id
    ensures found != null ==> found in grid.cells.Values && found.Id == id
    ensures found != null && grid.UniqueIds() ==> forall b :: b in grid.cells.Values && b.Id == id ==> b == found
  {
    var all := grid.GetAllBuildings();
    for i := 0 to |all|
      invariant forall k :: 0 <= k < i ==> all[k].Id != id
    {
      if all[i].Id == id {
        found := all[i];
        grid.StoredAtPosition(found);
        forall b | b in grid.cells.Values && b.Id == id && grid.UniqueIds()
          ensures b == found
        {
          grid.StoredAtPosition(b);
        }
        return;
      }
    }
    found := null;
  }
}
