/**
 * The configuration loader (`src/data/loadData.js`): fetch `config.json`
 * once, fill in missing fields, cache a successful load, and fall back to a
 * built-in configuration (which is not cached) on any error.
 */
module LoadData {
  import opened Js
  import opened Quests

  /** One own property of `statTypes`: a stat key and its display name, in key order. */
  datatype StatType = StatType(key: string, name: string)

  /**
   * The parsed `config.json`. A field is `None` when it is missing or does not
   * have the shape the loader checks for (`quests` not an array, `statTypes`
   * or `defaultStats` falsy or not an object); `persistenceMode` is
   * `config.persistence?.mode`.
   */
  datatype Config = Config(
    appName: Option<string>,
    statTypes: Option<seq<StatType>>,
    defaultStats: Option<map<string, int>>,
    storageKey: Option<string>,
    persistenceMode: Option<string>,
    quests: Option<seq<Quest>>)

  /** How the fetch of `config.json` ends. */
  datatype Fetched =
    | NetworkError          // `fetch` rejects
    | NotOk                 // `response.ok` is false
    | InvalidJson           // `response.json()` rejects
    | NotAnObject           // the JSON is null or a primitive: reading or writing a field throws
    | Object(config: Config)

  const DefaultStatTypes: seq<StatType> := [
    StatType("goodness", "Goodness"),
    StatType("thoughtfulness", "Thoughtfulness"),
    StatType("kindness", "Kindness"),
    StatType("empathy", "Empathy")
  ]

  function StatKeysOf(types: seq<StatType>): (keys: seq<string>)
    ensures |keys| == |types|
    ensures forall i :: 0 <= i < |types| ==> keys[i] == types[i].key
  {
    if types == [] then [] else [types[0].key] + StatKeysOf(types[1..])
  }

  /** Every listed key at zero: the derived `defaultStats`. */
  function ZeroStats(keys: seq<string>): (stats: map<string, int>)
    ensures forall k :: k in stats <==> k in keys
    ensures forall k :: k in stats ==> stats[k] == 0
  {
    map k | k in keys :: 0
  }

  /** The configuration returned when loading fails. */
  const FallbackConfig := Config(
    Some("Skill Tree"),
    Some(DefaultStatTypes),
    Some(map["goodness" := 0, "thoughtfulness" := 0, "kindness" := 0, "empathy" := 0]),
    Some("skill_tree_progress"),
    None,
    Some([]))

  /** Every field the loader guarantees is present. */
  predicate Complete(c: Config) {
    c.quests.Some? && c.statTypes.Some? && c.defaultStats.Some?
  }

  /** The three repairs applied, in order, to a fetched configuration. */
  function Normalize(c: Config): (r: Config)
    ensures Complete(r)
    ensures r.appName == c.appName && r.storageKey == c.storageKey && r.persistenceMode == c.persistenceMode
  {
    var withQuests := c.(quests := Some(c.quests.OrElse([])));
    var withTypes := withQuests.(statTypes := Some(c.statTypes.OrElse(DefaultStatTypes)));
    var stats := if c.defaultStats.Some? then c.defaultStats
                 else Some(ZeroStats(StatKeysOf(withTypes.statTypes.value)));
    withTypes.(defaultStats := stats)
  }

  /**
   * What the loader keeps and what it repairs: present fields are left as
   * they are, a missing `quests` becomes empty, missing `statTypes` become the
   * four defaults, and missing `defaultStats` become zero for every stat key.
   */
  lemma NormalizeKeepsOrRepairs(c: Config)
    ensures c.quests.Some? ==> Normalize(c).quests == c.quests
    ensures c.quests.None? ==> Normalize(c).quests == Some([])
    ensures c.statTypes.Some? ==> Normalize(c).statTypes == c.statTypes
    ensures c.statTypes.None? ==> Normalize(c).statTypes == Some(DefaultStatTypes)
    ensures c.defaultStats.Some? ==> Normalize(c).defaultStats == c.defaultStats
    ensures c.defaultStats.None? ==>
      var r := Normalize(c);
      && (forall k :: k in r.defaultStats.value <==> exists i :: 0 <= i < |r.statTypes.value| && r.statTypes.value[i].key == k)
      && (forall k :: k in r.defaultStats.value ==> r.defaultStats.value[k] == 0)
  {
    var r := Normalize(c);
    if c.defaultStats.None? {
      var keys := StatKeysOf(r.statTypes.value);
      forall k | k in r.defaultStats.value
        ensures exists i :: 0 <= i < |r.statTypes.value| && r.statTypes.value[i].key == k
      {
        var i :| 0 <= i < |keys| && keys[i] == k;
      }
    }
  }

  /** A complete configuration passes through the loader's repairs untouched. */
  lemma NormalizeIdempotent(c: Config)
    ensures Normalize(Normalize(c)) == Normalize(c)
  {
  }

  /** The fallback configuration is complete and its default stats cover exactly its stat keys. */
  lemma FallbackConsistent()
    ensures Complete(FallbackConfig)
    ensures FallbackConfig.defaultStats.value == ZeroStats(StatKeysOf(DefaultStatTypes))
    ensures Normalize(FallbackConfig) == FallbackConfig
  {
    assert StatKeysOf(DefaultStatTypes) == ["goodness", "thoughtfulness", "kindness", "empathy"];
  }

  /** The `Object.keys(statTypes).forEach` loop that builds `defaultStats`. */
  method FillZeroStats(types: seq<StatType>) returns (stats: map<string, int>)
    ensures stats == ZeroStats(StatKeysOf(types))
  {
    stats := map[];
    var i := 0;
    while i < |types|
      invariant 0 <= i <= |types|
      invariant stats == ZeroStats(StatKeysOf(types)[..i])
    {
      assert StatKeysOf(types)[..i + 1] == StatKeysOf(types)[..i] + [types[i].key];
      stats := stats[types[i].key := 0];
      i := i + 1;
    }
    assert StatKeysOf(types)[..i] == StatKeysOf(types);
  }

  /** The module's `cachedConfig`. */
  class ConfigLoader {
    var cached: Option<Config>

    constructor ()
      ensures cached == None
    {
      cached := None;
    }

    /**
     * `loadConfig()`. `fetched` is how the fetch of `config.json` would end;
     * it is consulted only when nothing is cached.
     */
    method LoadConfig(fetched: Fetched) returns (config: Config)
      modifies this
      ensures old(cached).Some? ==> config == old(cached).value && cached == old(cached)
      ensures old(cached).None? && fetched.Object? ==>
        config == Normalize(fetched.config) && cached == Some(config)
      ensures old(cached).None? && !fetched.Object? ==> config == FallbackConfig && cached == None
      ensures old(cached).None? ==> Complete(config)
    {
      if cached.Some? {
        return cached.value;
      }
      if !fetched.Object? {
        return FallbackConfig;
      }
      config := fetched.config;
      if config.quests.None? {
        config := config.(quests := Some([]));
      }
      if config.statTypes.None? {
        config := config.(statTypes := Some(DefaultStatTypes));
      }
      if config.defaultStats.None? {
        var stats := FillZeroStats(config.statTypes.value);
        config := config.(defaultStats := Some(stats));
      }
      cached := Some(config);
    }

    /** `clearCache()` */
    method ClearCache()
      modifies this
      ensures cached == None
    {
      cached := None;
    }
  }
}
