/**
 * Model of Application/Events/BuildingPlacedEvent.cs and of the message broker
 * that carries the events. Each event class becomes a constructor; building
 * events carry the building object itself, as the C# payload does.
 */
module Events {
  import opened GridPositions
  import opened Costs
  import opened Buildings

  datatype Event =
    | BuildingPlaced(building: Building)
    | BuildingRemoved(buildingId: string, position: GridPosition)
    | BuildingMoved(building: Building, oldPosition: GridPosition)
    | BuildingUpgraded(building: Building)
    | ResourcesChanged(gold: int)
    | InsufficientResources(required: Cost, available: int)
    | GameSaved
    | GameLoaded

  /**
   * The publishers of every event kind, seen as one log: `Publish` appends,
   * so the log is the order in which the core published.
   */
  class EventBus {
    var log: seq<Event>

    constructor ()
      ensures log == []
    {
      log := [];
    }

    method Publish(e: Event)
      modifies this
      ensures log == old(log) + [e]
    {
      log := log + [e];
    }
  }
}
