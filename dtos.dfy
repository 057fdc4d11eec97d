/** Model of Application/DTOs/PlaceBuildingDto.cs: the command payloads. */
module Dtos {
  import opened GridPositions
  import opened Buildings

  datatype PlaceBuildingDto = PlaceBuildingDto(Type: BuildingType, Position: GridPosition)
  datatype MoveBuildingDto = MoveBuildingDto(BuildingId: string, NewPosition: GridPosition)
  datatype UpgradeBuildingDto = UpgradeBuildingDto(BuildingId: string)
  datatype RemoveBuildingDto = RemoveBuildingDto(BuildingId: string)
  datatype SaveGameDto = SaveGameDto
  datatype LoadGameDto = LoadGameDto
}
