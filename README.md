# City builder core, modelled in Dafny

This project models the core of a small grid-based city builder. The player
places houses, farms and mines on a rectangular grid of cells. Each building
costs gold. The player can also move, upgrade and remove buildings. An economy
service credits every building's income on each tick. A save service writes the
balance and the buildings to one save slot and can restore them from it.

The model follows the program's layers:

- **Domain values.** These are `GridPosition`, `Cost` and `Income` (datatypes),
  plus `BuildingConfig` with its level-scaled cost and income.
- **Mutable domain objects.** These are classes that update their fields in place:
  - `Building`: its position and level change.
  - `GameResources`: the gold balance.
  - `BuildingGrid`: a `map` from position to building that the methods reassign.
- **The config provider.** It turns a list of serialised entries into a
  type-to-config table, which it builds the first time it is used.
- **The events and command records.** Events are published to an `EventBus`
  whose `log` records every publication in order.
- **The four use cases** (place, move, upgrade, remove). Each is a class whose
  `Execute` method follows the source's branches and event order.
- **The economy service.** It adds up the income of every building at its level.
  `Tick` models one pass of the income loop.
- **The save/load service.** `Save` snapshots the balance and the buildings.
  `Load` clears the grid and rebuilds it from the snapshot.

The main properties proved are these:

- The grid stays keyed by each building's own position.
- Building ids stay unique under every use case.
- Each use case's outcome is exact, failure branches included:
  - the balance;
  - the cells;
  - the events published, in order.
- Price and income never fall as the level rises, for a config whose base value is
  non-negative and whose multiplier is at least 1. A multiplier below 1 makes them fall.
- The order-independent total income equals the loop's in-order sum.
- Saving and then loading restores the same balance and grid.
- The config table keeps the last entry of each type.

## Model

| member | source | states |
|---|---|---|
| GridPositions.EqualsIsIdentity | Assets/CityBuilder/Domain/Models/GridPosition.cs:14-19 | `Equals` holds exactly when both coordinates match, i.e. for the same value, so dictionary keys and map keys agree |
| GridPositions.OperatorsAgree | Assets/CityBuilder/Domain/Models/GridPosition.cs:26-34 | `==` agrees with `Equals`, `!=` is its negation, and exactly one of the two holds |
| GridPositions.EqualsIsEquivalence | Assets/CityBuilder/Domain/Models/GridPosition.cs:14-19 | `Equals` is reflexive, symmetric and transitive |
| Costs.ZeroCost | Assets/CityBuilder/Domain/Models/Cost.cs:12 | `Cost.Zero` is a cost of 0 gold |
| Costs.CostEquality | Assets/CityBuilder/Domain/Models/Cost.cs:3-13 | two costs are equal exactly when their gold is |
| Incomes.ZeroIncome | Assets/CityBuilder/Domain/Models/Income.cs:12 | `Income.Zero` earns 0 gold per tick |
| Incomes.IncomeEquality | Assets/CityBuilder/Domain/Models/Income.cs:3-13 | two incomes are equal exactly when their gold per tick is |
| Buildings.Building.constructor | Assets/CityBuilder/Domain/Models/Building.cs:10-16 | id, type, position and level are as given, and the level defaults to 1 |
| Buildings.Building.SetPosition | Assets/CityBuilder/Domain/Models/Building.cs:18-21 | the position becomes the new one and nothing else about the building changes |
| Buildings.Building.Upgrade | Assets/CityBuilder/Domain/Models/Building.cs:23-26 | the level rises by exactly one and nothing else changes |
| Buildings.Building.CanUpgrade | Assets/CityBuilder/Domain/Models/Building.cs:28-31 | true exactly when one more level stays within the maximum |
| Resources.GameResources.constructor | Assets/CityBuilder/Domain/Models/GameResources.cs:7-10 | the balance starts at the given gold, which defaults to 1000 |
| Resources.GameResources.CanAfford | Assets/CityBuilder/Domain/Models/GameResources.cs:12-15 | true exactly when paying the cost leaves a non-negative balance |
| Resources.GameResources.Spend | Assets/CityBuilder/Domain/Models/GameResources.cs:17-20 | subtracts the cost without a guard: the balance stays non-negative exactly when the cost was affordable |
| Resources.GameResources.Add | Assets/CityBuilder/Domain/Models/GameResources.cs:22-25 | the balance grows by the amount |
| Resources.GameResources.SetGold | Assets/CityBuilder/Domain/Models/GameResources.cs:27-30 | the balance becomes the given gold, whatever it was |
| Grids.DistinctIdsAfterStore | Assets/CityBuilder/Domain/Models/BuildingGrid.cs:35-38 | storing a building whose id is new keeps the grid's ids distinct |
| Grids.DistinctIdsAfterRemove | Assets/CityBuilder/Domain/Models/BuildingGrid.cs:40-43 | removing a cell keeps the grid's ids distinct |
| Grids.BuildingGrid.constructor | Assets/CityBuilder/Domain/Models/BuildingGrid.cs:12-17 | the grid has the given size, starts empty, and its invariant holds |
| Grids.BuildingGrid.StoredAtPosition | Assets/CityBuilder/Domain/Models/BuildingGrid.cs:35-38 | every building on the grid is stored under its own position |
| Grids.BuildingGrid.SnapshotInView | Assets/CityBuilder/Domain/Models/BuildingGrid.cs:50-53 | the states of a listing of the grid's buildings are cells of the grid's view, at distinct positions |
| Grids.BuildingGrid.IsValidPosition | Assets/CityBuilder/Domain/Models/BuildingGrid.cs:19-23 | true exactly for the positions inside `[0, Width) x [0, Height)` |
| Grids.BuildingGrid.IsOccupied | Assets/CityBuilder/Domain/Models/BuildingGrid.cs:25-28 | true exactly when some building on the grid stands at the position |
| Grids.BuildingGrid.CanPlaceBuilding | Assets/CityBuilder/Domain/Models/BuildingGrid.cs:30-33 | true exactly when the position is on the board and no building stands there |
| Grids.BuildingGrid.PlaceBuilding | Assets/CityBuilder/Domain/Models/BuildingGrid.cs:35-38 | the building is stored under its own position, replacing any occupant; the other cells are kept and the invariant holds |
| Grids.BuildingGrid.RemoveBuilding | Assets/CityBuilder/Domain/Models/BuildingGrid.cs:40-43 | the cell is emptied (a no-op when it was empty), the other cells are kept, and the invariant holds |
| Grids.BuildingGrid.GetBuilding | Assets/CityBuilder/Domain/Models/BuildingGrid.cs:45-48 | null exactly when the cell is empty; otherwise it is a building on the grid standing there |
| Grids.BuildingGrid.GetAllBuildings | Assets/CityBuilder/Domain/Models/BuildingGrid.cs:50-53 | lists exactly the grid's buildings, each once, at distinct positions |
| Grids.BuildingGrid.Clear | Assets/CityBuilder/Domain/Models/BuildingGrid.cs:55-58 | the grid becomes empty |
| Configs.Truncate | Assets/CityBuilder/Domain/Models/BuildingConfig.cs:38 | the `(int)` cast drops the fraction toward zero, for both signs |
| Configs.BuildingConfig.GetCostForLevel | Assets/CityBuilder/Domain/Models/BuildingConfig.cs:28-39 | the loop's accumulated multiplier gives exactly the price at the level: the base up to level 1, and above it the base scaled once per extra level and truncated |
| Configs.BuildingConfig.GetIncomeForLevel | Assets/CityBuilder/Domain/Models/BuildingConfig.cs:41-52 | the same for income at the level |
| Configs.ConstructorDefaults | Assets/CityBuilder/Domain/Models/BuildingConfig.cs:12-26 | a config built from type, cost and income has max level 3 and multipliers 1.5 and 2 |
| Configs.CostAtOrBelowOne | Assets/CityBuilder/Domain/Models/BuildingConfig.cs:28-43 | at level 1 and below, zero and negative levels included, cost and income are the base values |
| Configs.ScaledIsPower | Assets/CityBuilder/Domain/Models/BuildingConfig.cs:28-39 | every level's value is the base scaled by `max(level - 1, 0)` multiplications and truncated |
| Configs.ScaledMonotone | Assets/CityBuilder/Domain/Models/BuildingConfig.cs:28-39 | for a non-negative base and a multiplier of at least 1, the scaled value is at least the base and never falls as the level rises |
| Configs.CostMonotone | Assets/CityBuilder/Domain/Models/BuildingConfig.cs:28-39 | under those conditions, upgrade prices never fall as the level rises and are never below the base cost |
| Configs.IncomeMonotone | Assets/CityBuilder/Domain/Models/BuildingConfig.cs:41-52 | under those conditions, income never falls as the level rises and is never below the base income |
| Configs.ScaledNonNegative | Assets/CityBuilder/Domain/Models/BuildingConfig.cs:28-52 | a non-negative base with a non-negative multiplier is non-negative at every level |
| Configs.HouseUpgradePrices | Assets/CityBuilder/Domain/Models/BuildingConfig.cs:28-39 | with base cost 100 and the default multiplier, level 2 costs 150 and level 3 costs 225 |
| ConfigProviders.ToConfig | Assets/CityBuilder/Infrastructure/Services/BuildingConfigProvider.cs:26-33 | every field of the entry is copied unchanged into the config |
| ConfigProviders.LastIndexOfType | Assets/CityBuilder/Infrastructure/Services/BuildingConfigProvider.cs:24-35 | the last entry of the type, and no later entry has it; -1 when none does |
| ConfigProviders.ConfigMapLastWins | Assets/CityBuilder/Infrastructure/Services/BuildingConfigProvider.cs:20-36 | the built table has a type exactly when some entry has it, and it maps that type to the config of the LAST such entry |
| ConfigProviders.TableLookup | Assets/CityBuilder/Infrastructure/Services/BuildingConfigProvider.cs:38-46 | looking a type up in the built table gives the last entry's config, or nothing |
| ConfigProviders.BuildingConfigProvider.constructor | Assets/CityBuilder/Infrastructure/Services/BuildingConfigProvider.cs:11-13 | a deserialised provider holds its entries and no table yet |
| ConfigProviders.BuildingConfigProvider.InitializeConfigs | Assets/CityBuilder/Infrastructure/Services/BuildingConfigProvider.cs:20-36 | the table is rebuilt from all the entries, in order |
| ConfigProviders.BuildingConfigProvider.OnEnable | Assets/CityBuilder/Infrastructure/Services/BuildingConfigProvider.cs:15-18 | enabling builds the table |
| ConfigProviders.BuildingConfigProvider.GetConfig | Assets/CityBuilder/Infrastructure/Services/BuildingConfigProvider.cs:38-46 | builds the table if it is missing, then answers with the last entry's config for the type, or nothing (the C# null) |
| ConfigProviders.EntryDefaults | Assets/CityBuilder/Infrastructure/Services/BuildingConfigProvider.cs:48-57 | an entry left at its defaults gives cost 100, income 10, max level 3, a level-2 price of 150 and a level-2 income of 20 |
| Events.EventBus.constructor | Assets/CityBuilder/Application/UseCases/PlaceBuildingUseCase.cs:19-35 | the publishers a use case is given have published nothing yet: the log starts empty |
| Events.EventBus.Publish | Assets/CityBuilder/Application/UseCases/PlaceBuildingUseCase.cs:58-59 | a publication appends exactly its event to the log, after every earlier one |
| Lookup.FindBuildingById | Assets/CityBuilder/Application/UseCases/MoveBuildingUseCase.cs:37-44 | null exactly when no building on the grid has the id; otherwise a building on the grid with that id, and the only one when ids are unique |
| PlaceUseCase.PlaceBuildingUseCase.constructor | Assets/CityBuilder/Application/UseCases/PlaceBuildingUseCase.cs:19-35 | the use case works on the given grid, resources, configs and publishers |
| PlaceUseCase.PlaceBuildingUseCase.Execute | Assets/CityBuilder/Application/UseCases/PlaceBuildingUseCase.cs:37-60 | an unplaceable cell changes nothing; an unaffordable base cost changes only the log, by one InsufficientResources carrying the cost and the balance; otherwise it pays exactly the base cost, never going below 0, stores a new level-1 building with the new id in that cell alone, keeps ids unique, and publishes BuildingPlaced then ResourcesChanged with the new balance |
| PlaceUseCase.PlaceBuildingUseCase.Commit | Assets/CityBuilder/Application/UseCases/PlaceBuildingUseCase.cs:53-59 | the success branch: pay, store the new building, publish the two events |
| MoveUseCase.MoveBuildingUseCase.constructor | Assets/CityBuilder/Application/UseCases/MoveBuildingUseCase.cs:13-19 | the use case works on the given grid and publisher |
| MoveUseCase.MoveBuildingUseCase.Execute | Assets/CityBuilder/Application/UseCases/MoveBuildingUseCase.cs:21-35 | an unknown id or an unplaceable target changes nothing; every building other than the moved one, including another with the same id, is left untouched; otherwise the building leaves its old cell, takes the new position (and keeps its id, type and level) and is the only other change to the grid; ids stay unique; one BuildingMoved with the old position is published |
| UpgradeUseCase.UpgradeBuildingUseCase.constructor | Assets/CityBuilder/Application/UseCases/UpgradeBuildingUseCase.cs:18-32 | the use case works on the given grid, resources, configs and publishers |
| UpgradeUseCase.UpgradeBuildingUseCase.Execute | Assets/CityBuilder/Application/UseCases/UpgradeBuildingUseCase.cs:34-56 | an unknown id or a building at its max level changes nothing; every building other than the upgraded one, including another with the same id, is left untouched; an unaffordable next-level price changes only the log, by one InsufficientResources carrying the price and the balance; otherwise it pays exactly the next-level price, never going below 0, raises the level by one within the max level, and publishes BuildingUpgraded then ResourcesChanged |
| RemoveUseCase.RemoveBuildingUseCase.constructor | Assets/CityBuilder/Application/UseCases/RemoveBuildingUseCase.cs:13-19 | the use case works on the given grid and publisher |
| RemoveUseCase.RemoveBuildingUseCase.Execute | Assets/CityBuilder/Application/UseCases/RemoveBuildingUseCase.cs:21-28 | an unknown id changes nothing; otherwise exactly the building's cell is emptied, and no building with that id remains when ids were unique; one BuildingRemoved with its id and position is published |
| RemoveUseCase.RemoveTwice | Assets/CityBuilder/Application/UseCases/RemoveBuildingUseCase.cs:21-28 | with unique ids, removing the same id twice has exactly the effect of removing it once |
| Economy.TotalIncomeRemove | Assets/CityBuilder/Application/Services/EconomyService.cs:61-71 | the total is any one building's income plus the total of the others, so the order of the sum does not matter |
| Economy.SumIncomeIsTotal | Assets/CityBuilder/Application/Services/EconomyService.cs:61-71 | adding up a listing of every building once, in any order, gives the total |
| Economy.NoBuildingsNoIncome | Assets/CityBuilder/Application/Services/EconomyService.cs:61-71 | an empty grid earns nothing |
| Economy.TotalIncomeAdd | Assets/CityBuilder/Application/Services/EconomyService.cs:61-71 | a building stored in a free cell adds exactly its own income to the total |
| Economy.TotalIncomeDrop | Assets/CityBuilder/Application/Services/EconomyService.cs:61-71 | taking a building off takes exactly its own income off the total |
| Economy.TotalIncomeUpgrade | Assets/CityBuilder/Application/Services/EconomyService.cs:61-71 | raising one building's level never lowers the total, for a non-negative base income and a multiplier of at least 1 |
| Economy.TotalIncomeNonNegative | Assets/CityBuilder/Application/Services/EconomyService.cs:61-71 | with non-negative base incomes and multipliers, the total is never negative |
| Economy.HouseAndFarmIncome | Assets/CityBuilder/Application/Services/EconomyService.cs:61-71 | a level-1 house earning 5 and a level-1 farm earning 10 together bring in 15 |
| Economy.SnapshotIncome | Assets/CityBuilder/Application/Services/EconomyService.cs:61-71 | the in-order sum over a listing of the grid's buildings is the grid's total income |
| Economy.EconomyService.constructor | Assets/CityBuilder/Application/Services/EconomyService.cs:20-32 | the service works on the given grid, resources, configs and publisher, and the tick interval defaults to 2 |
| Economy.EconomyService.CalculateTotalIncome | Assets/CityBuilder/Application/Services/EconomyService.cs:61-71 | the loop's sum is the grid's total income: each building counted once at its level |
| Economy.EconomyService.SumBuildingIncomes | Assets/CityBuilder/Application/Services/EconomyService.cs:63-70 | the loop adds each listed building's income at its level, in order |
| Economy.EconomyService.Tick | Assets/CityBuilder/Application/Services/EconomyService.cs:49-58 | a cancelled pass changes nothing; otherwise the balance grows by exactly the total income and one ResourcesChanged with the new balance is published |
| SaveLoad.RecordOf | Assets/CityBuilder/Infrastructure/Services/SaveLoadService.cs:73-80 | the record written for a building reads back as the same building state |
| SaveLoad.StateOf | Assets/CityBuilder/Infrastructure/Services/SaveLoadService.cs:102-103 | the rebuilt building stands at the record's `X` and `Y` |
| SaveLoad.RecordRoundTrip | Assets/CityBuilder/Infrastructure/Services/SaveLoadService.cs:122-130 | a record read back and written again is the same record |
| SaveLoad.LastRecordAt | Assets/CityBuilder/Infrastructure/Services/SaveLoadService.cs:100-105 | the last record naming the cell, and no later record names it; -1 when none does |
| SaveLoad.LoadedViewLastWins | Assets/CityBuilder/Infrastructure/Services/SaveLoadService.cs:100-105 | after loading, a cell is occupied exactly when some record names it, and it holds the building of the last record that does |
| SaveLoad.LoadSnapshot | Assets/CityBuilder/Infrastructure/Services/SaveLoadService.cs:63-108 | loading a snapshot of a grid rebuilds exactly that grid |
| SaveLoad.SnapshotKeepsIds | Assets/CityBuilder/Infrastructure/Services/SaveLoadService.cs:71-81 | a snapshot of a grid with unique ids has unique ids |
| SaveLoad.SaveLoadService.constructor | Assets/CityBuilder/Infrastructure/Services/SaveLoadService.cs:24-36 | the service works on the given grid, resources and publishers, the autosave interval defaults to 30, and the slot holds whatever an earlier session saved under the key (nothing on a first run) |
| SaveLoad.SaveLoadService.RecordAll | Assets/CityBuilder/Infrastructure/Services/SaveLoadService.cs:71-81 | one record per listed building, in the listing's order |
| SaveLoad.SaveLoadService.SnapshotOfListing | Assets/CityBuilder/Infrastructure/Services/SaveLoadService.cs:71-81 | the records of a listing of the grid's buildings are a snapshot of the grid: one record per building, each in its own cell |
| SaveLoad.SaveLoadService.Save | Assets/CityBuilder/Infrastructure/Services/SaveLoadService.cs:63-88 | the slot holds the current balance and a snapshot of the grid, and one GameSaved is published |
| SaveLoad.SaveLoadService.Load | Assets/CityBuilder/Infrastructure/Services/SaveLoadService.cs:90-108 | an empty slot changes nothing; otherwise the balance is the saved one, the grid is exactly the one the records build (later records win a cell), every building is a new object, and one GameLoaded is published |
| SaveLoad.SaveThenLoad | Assets/CityBuilder/Infrastructure/Services/SaveLoadService.cs:63-108 | saving and then loading leaves the balance and the grid as they were, and publishes GameSaved then GameLoaded |

## Left out

- `GridPosition.GetHashCode` (GridPosition.cs:21-24) is not modelled. The map is keyed by value, which `EqualsIsIdentity` shows agrees with `Equals`.
- The multipliers are exact `real`s, not single-precision `float`s. The C# converts the base to `float` and multiplies in `float`, so its truncated result can differ from the exact one by an amount that grows with the base and the level. For example, a base cost of 100000003 at level 2 with multiplier 1.5 gives 150000000 in `float` and 150000004 exactly.
- The C# `int` is 32 bits; the model uses unbounded integers, so it does not wrap balances, prices or incomes that go past 2^31 - 1.
- The async loops are not modelled: `Start`/`Stop`, `StartAutoSave`/`StopAutoSave`, the `UniTask.Delay` waits, the cancellation tokens and `Dispose`. `Economy.EconomyService.Tick` models one pass of the income loop once its delay has elapsed. `Save` is the body of one autosave pass.
- JSON and PlayerPrefs are not modelled. The slot holds the `SaveData` value itself, so the text encoding and the key are absent. A slot that holds text that does not parse cannot arise in the model.
- MessagePipe's delivery to subscribers is not modelled. Each publisher is an append to one `EventBus.log`. `BuildingSelectedEvent` and `BuildingDeselectedEvent` (BuildingPlacedEvent.cs:60-66) belong to the presentation layer's selection and are not modelled.
- The GUID id generator is not modelled. `Execute` of the place use case takes the new id as a parameter, and the caller must supply an id that no building on the grid has.
- The composition root, dependency injection, input handling, views, presenters and the factory are not modelled.
- The `BuildingType` enumeration's file is not part of this model. The type is modelled as `House | Farm | Mine`.
- The three copies of the private `FindBuildingById` (in the move, upgrade and remove use cases) are identical and are modelled once, as `Lookup.FindBuildingById`.
- The `IBuildingConfigProvider` seen by the use cases and the economy service is modelled as a fixed `map` from type to config. `ConfigProviders.BuildingConfigProvider` models the provider that builds that table.
- A missing config gives a null dereference in the C#. The model does not reproduce that crash; callers must have configs instead:
  - `PlaceUseCase.PlaceBuildingUseCase.Execute` requires the type to have a config when the cell is placeable;
  - `UpgradeUseCase.UpgradeBuildingUseCase.Execute` requires the building's type to have a config;
  - `Economy.EconomyService.Tick` and `CalculateTotalIncome` require every building's type to have a config.
- A null `_configs` array in the provider is not modelled: an empty list stands for it.
- MoveUseCase.MoveBuildingUseCase.Execute: the success case is stated on the grid's cells and on the moved building's state. It is not restated as a single equation on the whole grid view.
- UpgradeUseCase.UpgradeBuildingUseCase.Execute: the result is stated on the upgraded building's state. The grid's cells are not touched, since `modifies` excludes the grid; this is not restated on the view.
