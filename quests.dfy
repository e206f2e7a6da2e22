/**
 * The quest catalogue and the point table (`src/data/quests.js`).
 *
 * `AssignPoints` maps a tier and a category to a four-stat points record;
 * the stat keys it writes are given as parameters, because in the source
 * they are read from the store's `STAT_TYPES` table at the moment the
 * module is evaluated.
 */
module Quests {
  import opened Js
  import opened QuestCatalogue

  /** A quest as the views and the store see it. `points` may be missing in a loaded config. */
  datatype Quest = Quest(
    id: string,
    tier: int,
    category: string,
    title: string,
    description: string,
    emoji: string,
    points: Option<map<string, int>>)

  /** The four computed keys `STAT_TYPES.GOODNESS`, `.THOUGHTFULNESS`, `.KINDNESS`, `.EMPATHY`. */
  datatype StatKeys = StatKeys(goodness: string, thoughtfulness: string, kindness: string, empathy: string) {
    predicate Distinct() {
      && goodness != thoughtfulness && goodness != kindness && goodness != empathy
      && thoughtfulness != kindness && thoughtfulness != empathy
      && kindness != empathy
    }
    function Keys(): set<string> {
      {goodness, thoughtfulness, kindness, empathy}
    }
  }

  /** The keys once the store is initialised with the default stat vocabulary. */
  const ConfiguredKeys := StatKeys("goodness", "thoughtfulness", "kindness", "empathy")

  /**
   * The keys while `quests.js` is evaluated: `STAT_TYPES` is still `{}`, so each
   * computed key `[STAT_TYPES.X]` is `[undefined]`, the property name "undefined".
   */
  const LoadTimeKeys := StatKeys("undefined", "undefined", "undefined", "undefined")

  function BasePoints(tier: int): int {
    if tier == 1 then 1 else if tier == 2 then 2 else 3
  }

  /** Which of the six category branches of `assignPoints` is taken; the first match wins. */
  datatype Branch =
    | KindnessAndGoodness        // 'Social' or 'Kindness'
    | RelationshipOrCommunity    // thoughtfulness and empathy
    | Environmental              // goodness and thoughtfulness
    | SelfDevelopmentOrCivic     // thoughtfulness and empathy
    | VolunteeringOrLeadership   // goodness + 1 and kindness
    | Default                    // goodness and kindness

  function BranchOf(category: string): Branch {
    if Contains(category, "Social") || Contains(category, "Kindness") then KindnessAndGoodness
    else if Contains(category, "Relationship") || Contains(category, "Community") then RelationshipOrCommunity
    else if Contains(category, "Environment") || Contains(category, "Stewardship") then Environmental
    else if Contains(category, "Self-Development") || Contains(category, "Civic") then SelfDevelopmentOrCivic
    else if Contains(category, "Volunteering") || Contains(category, "Leadership") then VolunteeringOrLeadership
    else Default
  }

  /**
   * `assignPoints(tier, category)`: start from all four keys at 0, then the
   * taken branch overwrites two of them, in the source's order.
   */
  function AssignPoints(tier: int, category: string, keys: StatKeys): (points: map<string, int>)
    ensures points.Keys == keys.Keys()
    ensures keys.Distinct() ==> match BranchOf(category)
      case KindnessAndGoodness =>
        points[keys.kindness] == points[keys.goodness] == BasePoints(tier)
        && points[keys.thoughtfulness] == points[keys.empathy] == 0
      case RelationshipOrCommunity | SelfDevelopmentOrCivic =>
        points[keys.thoughtfulness] == points[keys.empathy] == BasePoints(tier)
        && points[keys.goodness] == points[keys.kindness] == 0
      case Environmental =>
        points[keys.goodness] == points[keys.thoughtfulness] == BasePoints(tier)
        && points[keys.kindness] == points[keys.empathy] == 0
      case VolunteeringOrLeadership =>
        points[keys.goodness] == BasePoints(tier) + 1 && points[keys.kindness] == BasePoints(tier)
        && points[keys.thoughtfulness] == points[keys.empathy] == 0
      case Default =>
        points[keys.goodness] == points[keys.kindness] == BasePoints(tier)
        && points[keys.thoughtfulness] == points[keys.empathy] == 0
  {
    var base := BasePoints(tier);
    var zero := map[keys.goodness := 0][keys.thoughtfulness := 0][keys.kindness := 0][keys.empathy := 0];
    if Contains(category, "Social") || Contains(category, "Kindness") then
      zero[keys.kindness := base][keys.goodness := base]
    else if Contains(category, "Relationship") || Contains(category, "Community") then
      zero[keys.thoughtfulness := base][keys.empathy := base]
    else if Contains(category, "Environment") || Contains(category, "Stewardship") then
      zero[keys.goodness := base][keys.thoughtfulness := base]
    else if Contains(category, "Self-Development") || Contains(category, "Civic") then
      zero[keys.thoughtfulness := base][keys.empathy := base]
    else if Contains(category, "Volunteering") || Contains(category, "Leadership") then
      zero[keys.goodness := base + 1][keys.kindness := base]
    else
      zero[keys.goodness := base][keys.kindness := base]
  }

  /** How many of the four stats a points record sets to a non-zero value. */
  function NonZeroCount(points: map<string, int>, keys: StatKeys): nat
    requires keys.Keys() <= points.Keys
  {
    (if points[keys.goodness] != 0 then 1 else 0) + (if points[keys.thoughtfulness] != 0 then 1 else 0)
    + (if points[keys.kindness] != 0 then 1 else 0) + (if points[keys.empathy] != 0 then 1 else 0)
  }

  /** Every branch awards points to exactly two of the four stats, and never a negative amount. */
  lemma TwoStatsPerQuest(tier: int, category: string, keys: StatKeys)
    requires keys.Distinct()
    ensures NonZeroCount(AssignPoints(tier, category, keys), keys) == 2
    ensures forall k :: k in AssignPoints(tier, category, keys) ==> AssignPoints(tier, category, keys)[k] >= 0
  {
    var points := AssignPoints(tier, category, keys);
    assert BasePoints(tier) >= 1;
  }

  /**
   * The runtime quirk: evaluated while `STAT_TYPES` is empty, all four keys
   * collapse to "undefined" and the last write of every branch is the base
   * amount, so each quest is worth its base amount on a single stat "undefined".
   */
  lemma LoadTimePoints(tier: int, category: string)
    ensures AssignPoints(tier, category, LoadTimeKeys) == map["undefined" := BasePoints(tier)]
  {
  }

  /**
   * Branches are tried in order: 'Environmental Stewardship' mentions none of
   * 'Social', 'Kindness', 'Relationship' or 'Community', so it takes the
   * Environment branch.
   */
  lemma EnvironmentalStewardshipBranch()
    ensures BranchOf("Environmental Stewardship") == Environmental
  {
    EnvironmentFirst("Environmental Stewardship");
  }

  /** A category that starts with 'Environment' and has none of the letters c, K, R, C misses the first two branches. */
  lemma EnvironmentFirst(category: string)
    requires 'c' !in category && 'K' !in category && 'R' !in category && 'C' !in category
    requires StartsWith(category, "Environment")
    ensures BranchOf(category) == Environmental
  {
    MissingCharExcludes(category, "Social", 'c');
    MissingCharExcludes(category, "Kindness", 'K');
    MissingCharExcludes(category, "Relationship", 'R');
    MissingCharExcludes(category, "Community", 'C');
  }

  // ---------------------------------------------------------------------------
  // The quest table

  /** A row of the literal with its points, `assignPoints(row.tier, row.category)`. */
  function ToQuest(e: Entry, keys: StatKeys): Quest {
    Quest(e.id, e.tier, e.category, e.title, e.description, e.emoji, Some(AssignPoints(e.tier, e.category, keys)))
  }

  /** The exported `quests` array, for a given reading of the four stat keys. */
  function QuestTable(keys: StatKeys): (qs: seq<Quest>)
    ensures |qs| == |Entries|
    ensures forall i :: 0 <= i < |qs| ==> qs[i] == ToQuest(Entries[i], keys)
  {
    seq(|Entries|, i requires 0 <= i < |Entries| => ToQuest(Entries[i], keys))
  }

  /**
   * The table is well formed: ids are distinct, every tier is 1, 2 or 3, and
   * every quest's points are `assignPoints` of its own tier and category.
   */
  lemma QuestTableWellFormed(keys: StatKeys)
    ensures forall i, j :: 0 <= i < j < |QuestTable(keys)| ==> QuestTable(keys)[i].id != QuestTable(keys)[j].id
    ensures forall i :: 0 <= i < |QuestTable(keys)| ==> 1 <= QuestTable(keys)[i].tier <= 3
    ensures forall q :: q in QuestTable(keys) ==> q.points == Some(AssignPoints(q.tier, q.category, keys))
  {
    EntriesWellFormed();
  }
}
