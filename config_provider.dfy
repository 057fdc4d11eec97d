/**
 * Model of Infrastructure/Services/BuildingConfigProvider.cs: a serialised list
 * of per-type entries turned into a type-to-config table, built on first use.
 */
module ConfigProviders {
  import opened Wrappers
  import opened Costs
  import opened Incomes
  import opened Buildings
  import opened Configs

  /** One serialised entry, with the field initialisers as defaults. */
  datatype BuildingConfigData = BuildingConfigData(
    Type: BuildingType,
    BaseCost: int := 100,
    BaseIncome: int := 10,
    MaxLevel: int := 3,
    UpgradeCostMultiplier: real := 1.5,
    UpgradeIncomeMultiplier: real := 2.0)

  /** The config an entry becomes: every field copied unchanged. */
  function ToConfig(data: BuildingConfigData): (config: BuildingConfig)
    ensures config.Type == data.Type
    ensures config.BaseCost.Gold == data.BaseCost && config.BaseIncome.GoldPerTick == data.BaseIncome
    ensures config.MaxLevel == data.MaxLevel
    ensures config.UpgradeCostMultiplier == data.UpgradeCostMultiplier
    ensures config.UpgradeIncomeMultiplier == data.UpgradeIncomeMultiplier
  {
    BuildingConfig(data.Type, Cost(data.BaseCost), Income(data.BaseIncome),
                   data.MaxLevel, data.UpgradeCostMultiplier, data.UpgradeIncomeMultiplier)
  }

  /** The table the `foreach` builds: each entry in turn assigned under its type. */
  function ConfigMapOf(entries: seq<BuildingConfigData>): map<BuildingType, BuildingConfig>
  {
    if entries == [] then map[]
    else ConfigMapOf(entries[..|entries| - 1])[entries[|entries| - 1].Type := ToConfig(entries[|entries| - 1])]
  }

  /** The index of the last entry of type `t`, or -1 when there is none. */
  function LastIndexOfType(entries: seq<BuildingConfigData>, t: BuildingType): (k: int)
    ensures -1 <= k < |entries|
    ensures k >= 0 ==> entries[k].Type == t
    ensures forall j :: k < j < |entries| ==> entries[j].Type != t
  {
    if entries == [] then -1
    else if entries[|entries| - 1].Type == t then |entries| - 1
    else LastIndexOfType(entries[..|entries| - 1], t)
  }

  /**
   * The table holds `t` exactly when some entry has type `t`, and then maps it
   * to the config of the LAST such entry: later duplicates win.
   */
  lemma {:induction false} ConfigMapLastWins(entries: seq<BuildingConfigData>, t: BuildingType)
    ensures t in ConfigMapOf(entries) <==> LastIndexOfType(entries, t) >= 0
    ensures t in ConfigMapOf(entries) ==> ConfigMapOf(entries)[t] == ToConfig(entries[LastIndexOfType(entries, t)])
  {
    if entries != [] {
      ConfigMapLastWins(entries[..|entries| - 1], t);
    }
  }

  /** The lookup `GetConfig` answers: the last entry's config, or null. */
  function Lookup(entries: seq<BuildingConfigData>, t: BuildingType): Option<BuildingConfig>
  {
    var k := LastIndexOfType(entries, t);
    if k < 0 then None else Some(ToConfig(entries[k]))
  }

  /** A lookup in the built table is the lookup of the last entry of that type. */
  lemma TableLookup(entries: seq<BuildingConfigData>, t: BuildingType)
    ensures (if t in ConfigMapOf(entries) then Some(ConfigMapOf(entries)[t]) else None) == Lookup(entries, t)
  {
    ConfigMapLastWins(entries, t);
  }

  class BuildingConfigProvider {
    /** The serialised entries, fixed once the asset is loaded. */
    const configs: seq<BuildingConfigData>
    /** The table, `None` while it has not been built. */
    var configMap: Option<map<BuildingType, BuildingConfig>>

    /** A built table is always the table of the entries. */
    ghost predicate Valid()
      reads this
    {
      configMap.Some? ==> configMap.value == ConfigMapOf(configs)
    }

    /** Deserialisation leaves the table unbuilt until `OnEnable` or the first lookup. */
    constructor (configs: seq<BuildingConfigData>)
      ensures this.configs == configs && configMap == None
      ensures Valid()
    {
      this.configs := configs;
      configMap := None;
    }

    /** `InitializeConfigs`: rebuilds the table from the entries, in order. */
    method InitializeConfigs()
      modifies this
      ensures configMap == Some(ConfigMapOf(configs))
    {
      var table := map[];
      var i := 0;
      while i < |configs|
        invariant 0 <= i <= |configs|
        invariant table == ConfigMapOf(configs[..i])
      {
        var data := configs[i];
        assert configs[..i + 1][..i] == configs[..i];
        table := table[data.Type := ToConfig(data)];
        i := i + 1;
      }
      assert configs[..i] == configs;
      configMap := Some(table);
    }

    /** `OnEnable`: the engine's enable hook builds the table. */
    method OnEnable()
      modifies this
      ensures configMap == Some(ConfigMapOf(configs))
    {
      InitializeConfigs();
    }

    /**
     * `GetConfig`: builds the table if it is missing, then answers with the
     * config of the last entry of type `t`, or `None` (the C# null).
     */
    method GetConfig(t: BuildingType) returns (config: Option<BuildingConfig>)
      requires Valid()
      modifies this
      ensures configMap == Some(ConfigMapOf(configs))
      ensures config == Lookup(configs, t)
    {
      if configMap == None {
        InitializeConfigs();
      }
      var table := configMap.value;
      TableLookup(configs, t);
      config := if t in table then Some(table[t]) else None;
    }
  }

  /** Entry defaults: cost 100, income 10, max level 3, multipliers 1.5 and 2. */
  lemma EntryDefaults(t: BuildingType)
    ensures ToConfig(BuildingConfigData(t)) == BuildingConfig(t, Cost(100), Income(10))
    ensures ToConfig(BuildingConfigData(t)).CostForLevel(2) == Cost(150)
    ensures ToConfig(BuildingConfigData(t)).IncomeForLevel(2) == Income(20)
  {
    assert Power(1.5, 1) == 1.5;
    assert Power(2.0, 1) == 2.0;
  }
}
