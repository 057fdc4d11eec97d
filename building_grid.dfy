/**
 * Model of Domain/Models/BuildingGrid.cs: a width-by-height board holding at
 * most one building per cell. The dictionary becomes a map field; the
 * buildings it holds are shared objects that the use cases change in place.
 */
module Grids {
  import opened GridPositions
  import opened Buildings

  /** No two cells hold buildings with the same id (ids are constant, so no heap is read). */
  ghost predicate DistinctIds(cells: map<GridPosition, Building>)
  {
    forall p, q :: p in cells && q in cells && cells[p].Id == cells[q].Id ==> p == q
  }

  /** Storing a building whose id no stored building has keeps the ids distinct. */
  lemma DistinctIdsAfterStore(cells: map<GridPosition, Building>, at: GridPosition, b: Building)
    requires DistinctIds(cells)
    requires forall p :: p in cells ==> cells[p].Id != b.Id
    ensures DistinctIds(cells[at := b])
  {
  }

  /** Removing a cell keeps the ids distinct. */
  lemma DistinctIdsAfterRemove(cells: map<GridPosition, Building>, at: GridPosition)
    requires DistinctIds(cells)
    ensures DistinctIds(cells - {at})
  {
  }

  class BuildingGrid {
    const Width: int
    const Height: int
    var cells: map<GridPosition, Building>

    /** Every key is the position of the building stored under it. */
    ghost predicate Valid()
      reads this, cells.Values
    {
      forall p :: p in cells ==> cells[p].Position == p
    }

    /** The value of every cell: position to building state. */
    ghost function View(): (v: map<GridPosition, BuildingState>)
      reads this, cells.Values
      ensures v.Keys == cells.Keys
    {
      map p | p in cells :: cells[p].State()
    }

    /** No two buildings on the grid share an id. */
    ghost predicate UniqueIds()
      reads this
    {
      DistinctIds(cells)
    }

    /** A building held by the grid is stored under its own position. */
    lemma StoredAtPosition(b: Building)
      requires Valid() && b in cells.Values
      ensures b.Position in cells && cells[b.Position] == b
    {
      var p :| p in cells && cells[p] == b;
    }

    /**
     * The states of buildings listed from the grid, at distinct positions, are
     * the grid's own cells, still at distinct positions.
     */
    lemma SnapshotInView(all: seq<Building>, states: seq<BuildingState>)
      requires Valid()
      requires forall b :: b in all ==> b in cells.Values
      requires forall j, k :: 0 <= j < k < |all| ==> all[j].Position != all[k].Position
      requires |states| == |all| && forall k :: 0 <= k < |all| ==> states[k] == all[k].State()
      ensures forall k :: 0 <= k < |states| ==> states[k].Position in View() && View()[states[k].Position] == states[k]
      ensures forall j, k :: 0 <= j < k < |states| ==> states[j].Position != states[k].Position
    {
      forall k | 0 <= k < |states|
        ensures states[k].Position in View() && View()[states[k].Position] == states[k]
      {
        StoredAtPosition(all[k]);
      }
    }

    /** A map with the grid's keys and each building's state is the view. */
    lemma ViewIs(m: map<GridPosition, BuildingState>)
      requires cells.Keys == m.Keys
      requires forall p :: p in cells ==> cells[p].State() == m[p]
      ensures View() == m
    {
    }

    constructor (width: int, height: int)
      ensures Width == width && Height == height
      ensures cells == map[]
      ensures Valid()
    {
      Width := width;
      Height := height;
      cells := map[];
    }

    /** Inside `[0, Width) x [0, Height)`. */
    function IsValidPosition(position: GridPosition): (r: bool)
      ensures r ==> 0 <= position.X < Width && 0 <= position.Y < Height
      ensures position.X < 0 || position.Y < 0 || Width <= position.X || Height <= position.Y ==> !r
    {
      position.X >= 0 && position.X < Width &&
      position.Y >= 0 && position.Y < Height
    }

    /** Occupied exactly when some building on the grid stands at `position`. */
    function IsOccupied(position: GridPosition): (r: bool)
      requires Valid()
      reads this, cells.Values
      ensures r <==> exists b :: b in cells.Values && b.Position == position
    {
      assert position in cells ==> cells[position] in cells.Values;
      position in cells
    }

    /** A building may go to `position` when it is on the board and nobody stands there. */
    function CanPlaceBuilding(position: GridPosition): (r: bool)
      requires Valid()
      reads this, cells.Values
      ensures r <==> IsValidPosition(position) && forall b :: b in cells.Values ==> b.Position != position
    {
      IsValidPosition(position) && !IsOccupied(position)
    }

    /**
     * Stores `building` under its own position, silently replacing whatever
     * stood there; every other cell keeps its building.
     */
    method PlaceBuilding(building: Building)
      requires Valid()
      modifies this
      ensures Valid()
      ensures cells == old(cells)[building.Position := building]
    {
      cells := cells[building.Position := building];
    }

    /** Empties `position` (nothing happens if it was empty); other cells keep their building. */
    method RemoveBuilding(position: GridPosition)
      requires Valid()
      modifies this
      ensures Valid()
      ensures cells == old(cells) - {position}
      ensures position !in cells
    {
      cells := cells - {position};
    }

    /** The building at `position`, or null exactly when the cell is empty. */
    function GetBuilding(position: GridPosition): (b: Building?)
      requires Valid()
      reads this, cells.Values
      ensures b == null <==> !IsOccupied(position)
      ensures b != null ==> b in cells.Values && b.Position == position
    {
      if position in cells then cells[position] else null
    }

    /**
     * Every building on the grid, once each, in an order the dictionary does
     * not specify (modelled as an arbitrary choice).
     */
    method GetAllBuildings() returns (all: seq<Building>)
      requires Valid()
      ensures forall b :: b in all <==> b in cells.Values
      ensures forall i, j :: 0 <= i < j < |all| ==> all[i].Position != all[j].Position
      ensures |all| == |cells|
    {
      all := [];
      var rest := cells.Keys;
      while rest != {}
        invariant rest <= cells.Keys
        invariant forall i :: 0 <= i < |all| ==> all[i] in cells.Values && all[i].Position !in rest
        invariant forall p :: p in cells && p !in rest ==> cells[p] in all
        invariant forall i, j :: 0 <= i < j < |all| ==> all[i].Position != all[j].Position
        invariant |all| + |rest| == |cells|
        decreases rest
      {
        var p :| p in rest;
        all := all + [cells[p]];
        rest := rest - {p};
      }
      assert cells.Keys - rest == cells.Keys;
    }

    /** Removes every building. */
    method Clear()
      modifies this
      ensures cells == map[]
      ensures Valid()
    {
      cells := map[];
    }
  }
}
