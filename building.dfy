/**
 * Model of Domain/Models/Building.cs: a placed structure. Its id and type are
 * fixed at construction; its position and level are changed in place.
 */
module Buildings {
  import opened GridPositions

  /**
   * The building types. The enumeration's own file is not part of this model;
   * these are the three types the game's interface offers.
   */
  datatype BuildingType = House | Farm | Mine

  /** The value of a building at one moment: what the grid view and a save record see. */
  datatype BuildingState = BuildingState(Id: string, Type: BuildingType, Position: GridPosition, Level: int)

  class Building {
    const Id: string
    const Type: BuildingType
    var Position: GridPosition
    var Level: int

    /** The level defaults to 1 when the caller gives none. */
    constructor (id: string, buildingType: BuildingType, position: GridPosition, level: int := 1)
      ensures Id == id && Type == buildingType
      ensures Position == position && Level == level
    {
      Id := id;
      Type := buildingType;
      Position := position;
      Level := level;
    }

    /** The building's current value. */
    function State(): BuildingState
      reads this
    {
      BuildingState(Id, Type, Position, Level)
    }

    /** Moves the building; its level (and its const id and type) stay as they were. */
    method SetPosition(newPosition: GridPosition)
      modifies this
      ensures Position == newPosition
      ensures Level == old(Level)
      ensures State() == old(State()).(Position := newPosition)
    {
      Position := newPosition;
    }

    /** Raises the level by exactly one; the position stays as it was. */
    method Upgrade()
      modifies this
      ensures Level == old(Level) + 1
      ensures Position == old(Position)
      ensures State() == old(State()).(Level := old(Level) + 1)
    {
      Level := Level + 1;
    }

    /**
     * `CanUpgrade(maxLevel)`: one more level still stays within `maxLevel`.
     */
    function CanUpgrade(maxLevel: int): (r: bool)
      reads this
      ensures r <==> Level + 1 <= maxLevel
    {
      Level < maxLevel
    }
  }
}
