/**
 * Model of Infrastructure/Services/SaveLoadService.cs: `Save` writes the gold
 * balance and one record per building to a single save slot; `Load` clears the
 * grid, restores the balance and rebuilds every recorded building in its cell.
 *
 * The slot stands for the PlayerPrefs key; the JSON text between the records
 * and the slot is not modelled, so a slot holds the records themselves.
 */
module SaveLoad {
  import opened Wrappers
  import opened GridPositions
  import opened Buildings
  import opened Resources
  import opened Grids
  import opened Events
  import opened Economy

  /** One saved building: the grid position is flattened to `X` and `Y`. */
  datatype BuildingSaveData = BuildingSaveData(Id: string, Type: BuildingType, X: int, Y: int, Level: int)

  /** The whole save: balance and buildings. */
  datatype SaveData = SaveData(Gold: int, Buildings: seq<BuildingSaveData>)

  /** The record `Save` writes for a building in state `s`. */
  function RecordOf(s: BuildingState): (r: BuildingSaveData)
    ensures StateOf(r) == s
  {
    BuildingSaveData(s.Id, s.Type, s.Position.X, s.Position.Y, s.Level)
  }

  /** The cell `Load` puts a record's building in. */
  function PositionOf(r: BuildingSaveData): GridPosition
  {
    GridPosition(r.X, r.Y)
  }

  /** The state of the building `Load` rebuilds from a record. */
  function StateOf(r: BuildingSaveData): (s: BuildingState)
    ensures s.Position == PositionOf(r)
  {
    BuildingState(r.Id, r.Type, PositionOf(r), r.Level)
  }

  /** A record read back and written again is the same record. */
  lemma RecordRoundTrip(r: BuildingSaveData)
    ensures RecordOf(StateOf(r)) == r
  {
  }

  /** The grid `Load` builds from `records`: placed in order, a later record replacing an earlier one in the same cell. */
  function LoadedView(records: seq<BuildingSaveData>): map<GridPosition, BuildingState>
  {
    if records == [] then map[]
    else
      var last := records[|records| - 1];
      LoadedView(records[..|records| - 1])[PositionOf(last) := StateOf(last)]
  }

  /** The index of the last record for cell `p`, or -1 when no record names it. */
  function LastRecordAt(records: seq<BuildingSaveData>, p: GridPosition): (k: int)
    ensures -1 <= k < |records|
    ensures k >= 0 ==> PositionOf(records[k]) == p && forall j :: k < j < |records| ==> PositionOf(records[j]) != p
    ensures k == -1 ==> forall j :: 0 <= j < |records| ==> PositionOf(records[j]) != p
  {
    if records == [] then -1
    else if PositionOf(records[|records| - 1]) == p then |records| - 1
    else LastRecordAt(records[..|records| - 1], p)
  }

  /**
   * A cell is loaded exactly when some record names it, and it holds the
   * building of the last record that does.
   */
  lemma {:induction false} LoadedViewLastWins(records: seq<BuildingSaveData>, p: GridPosition)
    ensures p in LoadedView(records) <==> LastRecordAt(records, p) >= 0
    ensures p in LoadedView(records) ==> LoadedView(records)[p] == StateOf(records[LastRecordAt(records, p)])
  {
    if records != [] {
      var prefix := records[..|records| - 1];
      LoadedViewLastWins(prefix, p);
      if PositionOf(records[|records| - 1]) != p {
        var k := LastRecordAt(prefix, p);
        if k >= 0 {
          assert prefix[k] == records[k];
        }
      }
    }
  }

  /** `records` lists every building of `view` once, each in its own cell. */
  ghost predicate IsSnapshotOf(records: seq<BuildingSaveData>, view: map<GridPosition, BuildingState>)
  {
    && |records| == |view|
    && (forall k :: 0 <= k < |records| ==> PositionOf(records[k]) in view && view[PositionOf(records[k])] == StateOf(records[k]))
    && (forall j, k :: 0 <= j < k < |records| ==> PositionOf(records[j]) != PositionOf(records[k]))
  }

  /** Loading a snapshot of a grid rebuilds exactly that grid. */
  lemma {:induction false} LoadSnapshot(records: seq<BuildingSaveData>, view: map<GridPosition, BuildingState>)
    requires IsSnapshotOf(records, view)
    ensures LoadedView(records) == view
  {
    if records == [] {
      assert view == map[];
    } else {
      var n := |records| - 1;
      var p := PositionOf(records[n]);
      var prefix := records[..n];
      forall k | 0 <= k < n
        ensures PositionOf(prefix[k]) in view - {p}
      {
        assert prefix[k] == records[k];
      }
      LoadSnapshot(prefix, view - {p});
      assert view == (view - {p})[p := StateOf(records[n])];
    }
  }

  /** A grid with unique ids rebuilds with unique ids. */
  lemma SnapshotKeepsIds(records: seq<BuildingSaveData>, view: map<GridPosition, BuildingState>)
    requires IsSnapshotOf(records, view)
    requires forall p, q :: p in view && q in view && view[p].Id == view[q].Id ==> p == q
    ensures forall j, k :: 0 <= j < k < |records| ==> records[j].Id != records[k].Id
  {
    forall j, k | 0 <= j < k < |records|
      ensures records[j].Id != records[k].Id
    {
      assert StateOf(records[j]).Id == records[j].Id && StateOf(records[k]).Id == records[k].Id;
    }
  }

  class SaveLoadService {
    const grid: BuildingGrid
    const resources: GameResources
    const bus: EventBus
    /** Seconds between automatic saves; the timer itself is not part of this model. */
    const autoSaveInterval: real
    /** The save slot: `None` while nothing has been saved under the key. */
    var slot: Option<SaveData>

    /**
     * The slot outlives the service: `storedSave` is whatever an earlier
     * session left under the key (`None` on a first run).
     */
    constructor (grid: BuildingGrid, resources: GameResources, bus: EventBus,
                 storedSave: Option<SaveData>, autoSaveInterval: real := 30.0)
      ensures this.grid == grid && this.resources == resources && this.bus == bus
      ensures this.autoSaveInterval == autoSaveInterval
      ensures slot == storedSave
    {
      this.grid := grid;
      this.resources := resources;
      this.bus := bus;
      this.autoSaveInterval := autoSaveInterval;
      slot := storedSave;
    }

    /** The loop of `Save`: one record per listed building, in the listing's order. */
    method RecordAll(all: seq<Building>) returns (records: seq<BuildingSaveData>)
      ensures |records| == |all|
      ensures forall k :: 0 <= k < |all| ==> records[k] == RecordOf(all[k].State())
    {
      records := [];
      for i := 0 to |all|
        invariant |records| == i
        invariant forall k :: 0 <= k < i ==> records[k] == RecordOf(all[k].State())
      {
        var building := all[i];
        records := records + [BuildingSaveData(building.Id, building.Type, building.Position.X, building.Position.Y, building.Level)];
      }
    }

    /** `Save`: the slot now holds the balance and a snapshot of the grid, then one GameSaved. */
    method Save()
      requires grid.Valid()
      modifies this, bus
      ensures slot.Some? && slot.value.Gold == resources.Gold
      ensures IsSnapshotOf(slot.value.Buildings, grid.View())
      ensures bus.log == old(bus.log) + [GameSaved]
    {
      var all := grid.GetAllBuildings();
      var records := RecordAll(all);
      slot := Some(SaveData(resources.Gold, records));
      bus.Publish(GameSaved);
      SnapshotOfListing(all, records);
    }

    /** The records of a listing of the grid's buildings are a snapshot of the grid. */
    lemma SnapshotOfListing(all: seq<Building>, records: seq<BuildingSaveData>)
      requires grid.Valid()
      requires forall b :: b in all ==> b in grid.cells.Values
      requires forall j, k :: 0 <= j < k < |all| ==> all[j].Position != all[k].Position
      requires |all| == |grid.cells|
      requires |records| == |all| && forall k :: 0 <= k < |all| ==> records[k] == RecordOf(all[k].State())
      ensures IsSnapshotOf(records, grid.View())
    {
      var states := StatesOf(all);
      grid.SnapshotInView(all, states);
      forall k | 0 <= k < |records|
        ensures PositionOf(records[k]) == states[k].Position && StateOf(records[k]) == states[k]
      {
      }
    }

    /**
     * `Load`: with nothing saved, nothing changes. Otherwise the grid is
     * cleared, the balance restored, and a new building made for every
     * record, in order; then one GameLoaded.
     */
    method Load()
      requires grid.Valid()
      modifies grid, resources, bus
      ensures grid.Valid()
      ensures slot.None? ==>
        && grid.cells == old(grid.cells)
        && resources.Gold == old(resources.Gold)
        && bus.log == old(bus.log)
      ensures slot.Some? ==>
        && resources.Gold == slot.value.Gold
        && grid.View() == LoadedView(slot.value.Buildings)
        && (forall p :: p in grid.cells ==> fresh(grid.cells[p]))
        && bus.log == old(bus.log) + [GameLoaded]
    {
      if slot.None? {
        return;
      }
      var saveData := slot.value;

      grid.Clear();
      resources.SetGold(saveData.Gold);

      var records := saveData.Buildings;
      ghost var loaded := map[];
      for i := 0 to |records|
        invariant grid.Valid()
        invariant forall p :: p in grid.cells ==> fresh(grid.cells[p])
        invariant loaded == LoadedView(records[..i])
        invariant grid.cells.Keys == loaded.Keys
        invariant forall p :: p in grid.cells ==> grid.cells[p].State() == loaded[p]
        invariant resources.Gold == saveData.Gold
        invariant bus.log == old(bus.log)
      {
        var buildingData := records[i];
        var position := GridPosition(buildingData.X, buildingData.Y);
        var building := new Building(buildingData.Id, buildingData.Type, position, buildingData.Level);
        grid.PlaceBuilding(building);
        assert records[..i + 1][..i] == records[..i];
        loaded := loaded[position := StateOf(buildingData)];
      }
      assert records[..|records|] == records;

      bus.Publish(GameLoaded);
      grid.ViewIs(loaded);
    }
  }

  /** Saving and then loading gives back the same balance and the same grid, in new building objects. */
  method SaveThenLoad(service: SaveLoadService)
    requires service.grid.Valid()
    modifies service, service.grid, service.resources, service.bus
    ensures service.grid.Valid()
    ensures service.resources.Gold == old(service.resources.Gold)
    ensures service.grid.View() == old(service.grid.View())
    ensures service.bus.log == old(service.bus.log) + [GameSaved, GameLoaded]
  {
    service.Save();
    ghost var saved, data := service.grid.View(), service.slot.value;
    assert data.Gold == old(service.resources.Gold) && saved == old(service.grid.View());
    service.Load();
    assert service.slot == Some(data);
    LoadSnapshot(data.Buildings, saved);
    assert service.grid.View() == LoadedView(data.Buildings);
  }
}
