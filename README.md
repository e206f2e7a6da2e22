# Humanity Skill Tree — a verified model of its core

The Humanity Skill Tree is a browser app. It lists small acts of kindness ("quests") in three tiers, and lets a user tick them off. The user earns stat points for each one, writes reflections and records evidence. Progress is shown as a radial map, as a filterable list, as a milestone stepper and as a one-line summary.

This project models the app's logic in Dafny and proves what that logic promises. Building the DOM is not modelled. The model covers:

- **The progress store** (`ProgressStore`): the single mutable progress record and its point accounting.
  - `toggleQuest`, with points added on completing and removed, floored at zero, on un-completing.
  - Reflections, evidence patches and clearing.
  - Restoring from an injected or stored snapshot.
  - The `STAT_TYPES` table, subscribers, and a log of what was saved and notified.
- **The persistence adapter** (`Persistence`): the LOCAL/REMOTE mode, and save/load over local storage. Local storage is a map from key to the parsed snapshot.
- **The configuration loader** (`LoadData`): repairs to `config.json`, the cache, and the fallback configuration.
- **The point table and the quest catalogue** (`Quests`, `QuestCatalogue`): `assignPoints` for any four stat keys, and the 47-row quest table checked row by row.
- **The radial map** (`SkillMap`):
  - Distinct sorted tiers, rings, slots, node order, and the running minimum of the shared node radius.
  - Wheel zoom, `setZoom`, panning and the resize handler.
- **The list view** (`ListView`): grouping by tier, the all/active/completed filter, the active-first stable sort, section counts and separators, filter clicks and checkbox toggles.
- **The milestone stepper and the summary line** (`ProgressStepper`, `ProgressSummary`).
- **The fullscreen shell** (`SkillTree`): the tree/list view state machine with its full-render flag, the export record and its file name, and the tooltip clamp.

Shared JavaScript semantics live in `Js`:
- `x || fallback`;
- `includes`;
- ASCII case mapping;
- the `\s` character class;
- decimal printing of numbers;
- `Math.round` of a percentage.

Where the source changes state in place, the model is a class with `modifies` clauses. Each method is proved against a pure function, and the properties are lemmas about those functions.

## Model

| member | source | states |
|---|---|---|
| Js.ToUpper | skill-tree-app/src/state/progressStore.js:26 | `toUpperCase` keeps the length and maps each character on its own (ASCII letters). |
| Js.ToLower | skill-tree-app/src/components/SkillTree.js:44 | `toLowerCase` keeps the length and maps each character on its own (ASCII letters). |
| Js.ContainsAt | skill-tree-app/src/data/quests.js:18 | An occurrence at some position makes `includes` true. |
| Js.MissingCharExcludes | skill-tree-app/src/data/quests.js:18-30 | `includes(t)` is false when `t` holds a character the category lacks. |
| Js.NatToString | skill-tree-app/src/components/ProgressStepper.js:60 | A number prints as a non-empty string of decimal digits. |
| Js.NatToStringRoundTrip | skill-tree-app/src/components/ProgressStepper.js:35 | Reading a printed number back as decimal gives the number. |
| Js.NatToStringInjective | skill-tree-app/src/components/ProgressStepper.js:60 | Different numbers print differently. |
| Js.DigitsExclude | skill-tree-app/src/components/ProgressSummary.js:10 | A printed number holds no character other than a digit. |
| Js.SplitAtSeparator | skill-tree-app/src/components/ProgressStepper.js:60 | Two texts joined at a separator that neither left part holds split back uniquely. |
| Js.RoundedPercent | skill-tree-app/src/components/ProgressStepper.js:8 | `Math.round(part / whole * 100)` is the whole number within one half of the exact percentage, halves rounding up. |
| QuestCatalogue.Flatten | skill-tree-app/src/data/quests.js:42-103 | The table is its category groups concatenated in source order. |
| QuestCatalogue.ConsGroup | skill-tree-app/src/data/quests.js:42-103 | A group with its own distinct ids and in-range tiers, disjoint from the rest, keeps the table well formed. |
| QuestCatalogue.SocialKindnessRows | skill-tree-app/src/data/quests.js:44-50 | The Social Kindness rows have distinct ids and are all tier 1. |
| QuestCatalogue.PersonalConductRows | skill-tree-app/src/data/quests.js:52-56 | The Personal Conduct rows have distinct ids and are all tier 1. |
| QuestCatalogue.DigitalKindnessRows | skill-tree-app/src/data/quests.js:58-61 | The Digital Kindness rows have distinct ids and are all tier 1. |
| QuestCatalogue.RelationshipsRows | skill-tree-app/src/data/quests.js:64-68 | The Relationships rows have distinct ids and are all tier 2. |
| QuestCatalogue.CommunityRows | skill-tree-app/src/data/quests.js:70-74 | The Community rows have distinct ids and are all tier 2. |
| QuestCatalogue.EnvironmentRows | skill-tree-app/src/data/quests.js:76-79 | The Environment rows have distinct ids and are all tier 2. |
| QuestCatalogue.SelfDevelopmentRows | skill-tree-app/src/data/quests.js:81-83 | The Self-Development rows have distinct ids and are all tier 2. |
| QuestCatalogue.VolunteeringRows | skill-tree-app/src/data/quests.js:86-88 | The Volunteering rows have distinct ids and are all tier 3. |
| QuestCatalogue.LeadershipAndInitiativeRows | skill-tree-app/src/data/quests.js:90-93 | The Leadership & Initiative rows have distinct ids and are all tier 3. |
| QuestCatalogue.CivicEngagementRows | skill-tree-app/src/data/quests.js:95-98 | The Civic Engagement rows have distinct ids and are all tier 3. |
| QuestCatalogue.EnvironmentalStewardshipRows | skill-tree-app/src/data/quests.js:100-102 | The Environmental Stewardship rows have distinct ids and are all tier 3. |
| QuestCatalogue.EntriesWellFormed | skill-tree-app/src/data/quests.js:42-103 | Every quest id in the table is distinct and every tier is 1, 2 or 3. |
| Quests.AssignPoints | skill-tree-app/src/data/quests.js:8-40 | All four stats start at 0 and the first matching category branch sets its two stats to the tier's base (goodness base + 1 for Volunteering/Leadership). |
| Quests.BasePoints | skill-tree-app/src/data/quests.js:9 | The base points: 1 for tier 1, 2 for tier 2, 3 for any other tier. |
| Quests.BranchOf | skill-tree-app/src/data/quests.js:18-37 | The category branch `assignPoints` takes: the first of the five `includes` tests that holds, else the default. |
| Quests.TwoStatsPerQuest | skill-tree-app/src/data/quests.js:10-37 | With four distinct keys every branch awards exactly two non-zero stats, none negative. |
| Quests.LoadTimePoints | skill-tree-app/src/data/quests.js:11-14 | With `STAT_TYPES` still empty all four keys are "undefined", so the points are a single entry "undefined" worth the tier's base. |
| Quests.EnvironmentalStewardshipBranch | skill-tree-app/src/data/quests.js:18-26 | The first match wins: 'Environmental Stewardship' takes the Environment branch. |
| Quests.EnvironmentFirst | skill-tree-app/src/data/quests.js:18-26 | A category starting with 'Environment' that lacks the letters of 'Social', 'Kindness', 'Relationship' and 'Community' takes the Environment branch. |
| Quests.QuestTable | skill-tree-app/src/data/quests.js:42-103 | One quest per row, in order, each with `assignPoints` of its own tier and category. |
| Quests.QuestTableWellFormed | skill-tree-app/src/data/quests.js:42-103 | The exported quests have distinct ids, tiers in 1..3, and points equal to `assignPoints(tier, category)`. |
| Persistence.Encode | skill-tree-app/src/state/persistence.js:60 | A stored record reads back with every field present. |
| Persistence.ModeFor | skill-tree-app/src/state/persistence.js:15-22 | REMOTE exactly when `config.persistence?.mode` is 'remote', else LOCAL. |
| Persistence.Load | skill-tree-app/src/state/persistence.js:39-45 | null when the key is absent, blank or unreadable; otherwise the parsed snapshot. |
| Persistence.Save | skill-tree-app/src/state/persistence.js:59-63 | The key now holds the encoded record, other keys are untouched, and a failing write changes nothing. |
| Persistence.SaveThenLoad | skill-tree-app/src/state/persistence.js:40-42 | Loading what was just saved gives it back; other keys read as before. |
| Persistence.Adapter.constructor | skill-tree-app/src/state/persistence.js:10 | The mode starts as LOCAL. |
| Persistence.Adapter.Configure | skill-tree-app/src/state/persistence.js:15-22 | Each call overwrites the mode with `ModeFor` of the config's mode. |
| Persistence.Adapter.GetMode | skill-tree-app/src/state/persistence.js:24-26 | Returns the last configured mode. |
| Persistence.Adapter.LoadSnapshot | skill-tree-app/src/state/persistence.js:30-46 | Both modes read local storage and return null exactly when nothing readable is stored. |
| Persistence.Adapter.SaveSnapshot | skill-tree-app/src/state/persistence.js:50-64 | Both modes write local storage; write errors are swallowed. |
| LoadData.StatKeysOf | skill-tree-app/src/data/loadData.js:39 | The stat keys of `statTypes`, in order. |
| LoadData.ZeroStats | skill-tree-app/src/data/loadData.js:38-41 | Exactly the listed keys, each at 0. |
| LoadData.Normalize | skill-tree-app/src/data/loadData.js:21-42 | The repaired config always has quests, statTypes and defaultStats; appName, storageKey and persistence are left alone. |
| LoadData.NormalizeKeepsOrRepairs | skill-tree-app/src/data/loadData.js:21-42 | Valid fields are kept; missing quests become [], missing statTypes the four defaults, missing defaultStats zero for every stat key. |
| LoadData.NormalizeIdempotent | skill-tree-app/src/data/loadData.js:21-42 | Repairing a repaired config changes nothing. |
| LoadData.FallbackConsistent | skill-tree-app/src/data/loadData.js:49-65 | The fallback config is complete and its default stats are exactly its four stat keys at 0. |
| LoadData.FillZeroStats | skill-tree-app/src/data/loadData.js:38-41 | The `forEach` loop builds `ZeroStats` of the stat keys. |
| LoadData.ConfigLoader.constructor | skill-tree-app/src/data/loadData.js:4 | Nothing is cached at first. |
| LoadData.ConfigLoader.LoadConfig | skill-tree-app/src/data/loadData.js:8-67 | A cached config is returned as is; a fetched object is repaired and cached; any failure returns the fallback and caches nothing. |
| LoadData.ConfigLoader.ClearCache | skill-tree-app/src/data/loadData.js:70-72 | The cache is empty afterwards. |
| ProgressStore.DateStamp | skill-tree-app/src/state/progressStore.js:150 | `toISOString().slice(0, 10)`: the first ten characters of the timestamp. |
| ProgressStore.Initial | skill-tree-app/src/state/progressStore.js:36-42 | The fresh record: nothing completed, lastUpdated null, no reflections or evidence, and the default stats. |
| ProgressStore.Dedup | skill-tree-app/src/state/progressStore.js:137 | `new Set(completedQuests)` as an array: the same ids, no repeats. |
| ProgressStore.DedupOfDistinct | skill-tree-app/src/state/progressStore.js:137 | A list without repeats survives the Set unchanged. |
| ProgressStore.Without | skill-tree-app/src/state/progressStore.js:153 | `nextCompleted.delete(id)`: every other id stays. |
| ProgressStore.WithoutDistinct | skill-tree-app/src/state/progressStore.js:153 | Deleting an id keeps the list free of repeats. |
| ProgressStore.WithoutAbsent | skill-tree-app/src/state/progressStore.js:153 | Deleting an absent id changes nothing. |
| ProgressStore.AddPoints | skill-tree-app/src/state/progressStore.js:142-145 | Each stat the quest names grows by its points (a missing stat counts as 0); other stats are kept. |
| ProgressStore.DeductPoints | skill-tree-app/src/state/progressStore.js:155-158 | Each stat the quest names shrinks by its points but not below 0; other stats are kept. |
| ProgressStore.SumOverRemove | skill-tree-app/src/state/progressStore.js:234 | The sum of the stats can take any key first. |
| ProgressStore.SumOverAgree | skill-tree-app/src/state/progressStore.js:234 | The sum depends only on the values at the summed keys. |
| ProgressStore.TotalRemove | skill-tree-app/src/state/progressStore.js:234 | The total is one stat plus the total of the others. |
| ProgressStore.TotalUpdate | skill-tree-app/src/state/progressStore.js:234 | Overwriting one stat changes the total by the difference. |
| ProgressStore.AddPointsStep | skill-tree-app/src/state/progressStore.js:144 | Adding one stat's points is one update of the record. |
| ProgressStore.DeductPointsStep | skill-tree-app/src/state/progressStore.js:157 | Deducting one stat's points is one update of the record. |
| ProgressStore.AddPointsTotal | skill-tree-app/src/state/progressStore.js:139-151 | Completing a quest raises the total by exactly the sum of its points. |
| ProgressStore.DeductPointsTotal | skill-tree-app/src/state/progressStore.js:152-164 | Un-completing lowers the total by exactly the quest's points when no stat would drop below 0. |
| ProgressStore.Toggle | skill-tree-app/src/state/progressStore.js:135-165 | Completing an open quest appends its id to the de-duplicated list and adds its points stat by stat (`AddPoints`); un-completing a completed one removes the id from the de-duplicated list and deducts its points floored at 0 (`DeductPoints`); a transition keeps every other id, has no repeats and is dated; a no-op call leaves the record unchanged; reflections and evidence are kept. |
| ProgressStore.ToggleIdempotent | skill-tree-app/src/state/progressStore.js:135-165 | Repeating a toggle changes nothing. |
| ProgressStore.ToggleAccounting | skill-tree-app/src/state/progressStore.js:139-164 | Completing adds the quest's points to the total; un-completing keeps non-negative stats non-negative and lowers the total by the points when they are covered. |
| ProgressStore.CompleteThenUncomplete | skill-tree-app/src/state/progressStore.js:137-158 | Completing then un-completing a quest with non-negative points restores the completed list; stat by stat, a stat that was not negative comes back, a negative stat the quest names comes back as 0, a stat it does not name is untouched, and a stat it names that the record lacked reads 0. |
| ProgressStore.EvidenceOf | skill-tree-app/src/state/progressStore.js:201-203 | `getEvidence(id)`: the recorded evidence object, or note '' with status 'unsubmitted' and nothing else when none is recorded. |
| ProgressStore.Over | skill-tree-app/src/state/progressStore.js:211-214 | One field of an object spread: the later object's field when it carries one, else the earlier's. |
| ProgressStore.Merge | skill-tree-app/src/state/progressStore.js:211-214 | `{ ...existing, ...partial }`: each of note and status that the patch carries wins, otherwise the existing one is kept or stays absent; every other field of either object is carried along, the patch's value winning. |
| ProgressStore.MergeAssoc | skill-tree-app/src/state/progressStore.js:211-214 | Spreading one patch and then another is spreading, once, the spread of the two patches. |
| ProgressStore.WithEvidence | skill-tree-app/src/state/progressStore.js:205-217 | Only the evidence and the date change. |
| ProgressStore.EvidenceSetThenGet | skill-tree-app/src/state/progressStore.js:201-220 | After `setEvidence` the quest reads as its old evidence (or note '' with status 'unsubmitted') overlaid by the patch; other quests read as before; two patches act as the one patch that is their own spread. |
| ProgressStore.WithReflection | skill-tree-app/src/state/progressStore.js:175-183 | Only the reflections and the date change. |
| ProgressStore.ReflectionLastWriteWins | skill-tree-app/src/state/progressStore.js:175-183 | The last reflection written wins, and other quests keep theirs. |
| ProgressStore.Cleared | skill-tree-app/src/state/progressStore.js:188-195 | Nothing completed, no reflections or evidence, stats equal to the defaults, dated today. |
| ProgressStore.Restore | skill-tree-app/src/state/progressStore.js:104-110 | An accepted snapshot is taken verbatim; missing lastUpdated, reflections, evidence and stats become null, {}, {} and the defaults. |
| ProgressStore.RestoreEncode | skill-tree-app/src/state/progressStore.js:89-95 | Restoring a saved record gives it back, except that an empty lastUpdated comes back as null. |
| ProgressStore.Candidate | skill-tree-app/src/state/progressStore.js:74-84 | The injected snapshot when there is one, else what local storage holds under the key. |
| ProgressStore.AfterLoad | skill-tree-app/src/state/progressStore.js:72-117 | An accepted snapshot replaces the record; otherwise only the stats are reset to the defaults. |
| ProgressStore.LastMatch | skill-tree-app/src/state/progressStore.js:25-27 | The last stat key that upper-cases to a name, or none. |
| ProgressStore.KeyTableEntries | skill-tree-app/src/state/progressStore.js:24-27 | `STAT_TYPES` has an entry exactly for each upper-cased key, holding the last key that upper-cases to it. |
| ProgressStore.BuildKeyTable | skill-tree-app/src/state/progressStore.js:24-27 | The `forEach` loop builds that table. |
| ProgressStore.AccumulatePoints | skill-tree-app/src/state/progressStore.js:143-145 | The add-points loop, in any key order, computes `AddPoints`. |
| ProgressStore.DeductPointsLoop | skill-tree-app/src/state/progressStore.js:156-158 | The remove-points loop, in any key order, computes `DeductPoints`. |
| ProgressStore.SumStats | skill-tree-app/src/state/progressStore.js:233-235 | The `reduce` yields the sum of every stat value. |
| ProgressStore.Store.constructor | skill-tree-app/src/state/progressStore.js:7-12 | The built-in storage key, empty tables, an empty record and no listeners. |
| ProgressStore.Store.Initialize | skill-tree-app/src/state/progressStore.js:15-43 | Installs the key (or the default), the persistence mode, `STAT_TYPES`, the names, the defaults and a fresh record. |
| ProgressStore.Store.GetStatTypeNames | skill-tree-app/src/state/progressStore.js:49-51 | Returns the configured stat names. |
| ProgressStore.Store.GetStatTypes | skill-tree-app/src/state/progressStore.js:54-56 | Returns `STAT_TYPES`. |
| ProgressStore.Store.GetState | skill-tree-app/src/state/progressStore.js:171-173 | Returns the record. |
| ProgressStore.Store.GetStats | skill-tree-app/src/state/progressStore.js:228-230 | Returns the record's stats. |
| ProgressStore.Store.GetTotalPoints | skill-tree-app/src/state/progressStore.js:233-235 | Returns the sum of all stat values. |
| ProgressStore.Store.IsQuestCompleted | skill-tree-app/src/state/progressStore.js:129-131 | `isQuestCompleted(id)`: the id is in the completed list. |
| ProgressStore.Store.GetEvidence | skill-tree-app/src/state/progressStore.js:201-203 | `getEvidence(id)` on the current record, as `EvidenceOf`. |
| ProgressStore.Store.Notify | skill-tree-app/src/state/progressStore.js:68-70 | The listeners are told the current record once. |
| ProgressStore.Store.Save | skill-tree-app/src/state/progressStore.js:119-127 | The record is written under the storage key through the adapter. |
| ProgressStore.Store.LoadProgress | skill-tree-app/src/state/progressStore.js:72-117 | Accepts the candidate snapshot exactly when its completedQuests is an array, and then notifies once; otherwise only the stats are reset and nothing is notified. |
| ProgressStore.Store.ToggleQuest | skill-tree-app/src/state/progressStore.js:135-169 | The record becomes `Toggle` of the old one; it is saved and notified once even when nothing changed. |
| ProgressStore.Store.SetReflection | skill-tree-app/src/state/progressStore.js:175-186 | The record becomes `WithReflection`; saved and notified once. |
| ProgressStore.Store.SetEvidence | skill-tree-app/src/state/progressStore.js:205-220 | The record becomes `WithEvidence`; saved and notified once. |
| ProgressStore.Store.ClearProgress | skill-tree-app/src/state/progressStore.js:188-198 | The record becomes `Cleared`; saved and notified once. |
| ProgressStore.Store.Subscribe | skill-tree-app/src/state/progressStore.js:222-223 | Adds the listener. |
| ProgressStore.Store.Unsubscribe | skill-tree-app/src/state/progressStore.js:224 | The returned function removes the listener. |
| ProgressStore.ReloadAfterToggle | skill-tree-app/src/state/progressStore.js:79-97 | A completed quest and its points survive a reload from local storage. |
| ProgressStore.LoadCorruptStorage | skill-tree-app/src/state/progressStore.js:112-115 | Unparseable stored text leaves the default stats and notifies nobody. |
| SkillMap.ConsIncreasing | skill-tree-app/src/components/SkillMap.js:30-32 | A tier below every sorted tier can head the list. |
| SkillMap.InsertTier | skill-tree-app/src/components/SkillMap.js:30-32 | Inserting a tier keeps the list strictly ascending and adds exactly that tier. |
| SkillMap.SortedTiers | skill-tree-app/src/components/SkillMap.js:30-32 | The tiers are strictly ascending and are exactly the tiers the quests have. |
| SkillMap.AscendingIsUnique | skill-tree-app/src/components/SkillMap.js:30-32 | Only one strictly ascending list holds a given set of tiers. |
| SkillMap.TierQuests | skill-tree-app/src/components/SkillMap.js:53 | The filter keeps only quests of the tier. |
| SkillMap.TierQuestsNonEmpty | skill-tree-app/src/components/SkillMap.js:54 | A tier that occurs has a quest, so `length or 1` is the length. |
| SkillMap.Dimension | skill-tree-app/src/components/SkillMap.js:15-16 | The client size, else the window size, else the fallback. |
| SkillMap.GeometryOf | skill-tree-app/src/components/SkillMap.js:35-44 | The centre is half the size; base radius, ring step and maximum node radius are 0.18, 0.16 and 0.045 of the smaller side. |
| SkillMap.RingNodes | skill-tree-app/src/components/SkillMap.js:51-71 | Quest k of n on ring i sits at angle -π/2 + k·2π/n, at radius base + i·step, around the centre. |
| SkillMap.LayoutUpTo | skill-tree-app/src/components/SkillMap.js:49-71 | The nodes of the first n rings: each ring's nodes appended after the previous rings'. |
| SkillMap.RadiusUpTo | skill-tree-app/src/components/SkillMap.js:44-64 | The running node radius after n rings: starts at the maximum and drops to the candidate of every ring holding more than one quest. |
| SkillMap.Layout | skill-tree-app/src/components/SkillMap.js:29-72 | The node list for a drawing area: all rings, one per sorted tier. |
| SkillMap.NodeRadius | skill-tree-app/src/components/SkillMap.js:44-64 | The shared node radius for a drawing area: the running radius after all rings. |
| SkillMap.Candidate | skill-tree-app/src/components/SkillMap.js:60-62 | The ring's candidate is at least 6, and at most the maximum unless 6 exceeds it. |
| SkillMap.RadiusBounds | skill-tree-app/src/components/SkillMap.js:44-64 | The shared node radius stays between min(6, maximum) and the maximum. |
| SkillMap.QuestsOf | skill-tree-app/src/components/SkillMap.js:70 | The quest of each node, in node order. |
| SkillMap.TiersQuestsAdd | skill-tree-app/src/components/SkillMap.js:53 | Selecting one more tier adds exactly that tier's quests. |
| SkillMap.TiersQuestsNone | skill-tree-app/src/components/SkillMap.js:53 | Selecting no tier selects no quest. |
| SkillMap.TiersQuestsAll | skill-tree-app/src/components/SkillMap.js:53 | Selecting every tier that occurs selects every quest. |
| SkillMap.QuestsOfConcat | skill-tree-app/src/components/SkillMap.js:70 | Pushing nodes pushes their quests. |
| SkillMap.RingQuests | skill-tree-app/src/components/SkillMap.js:66-71 | A ring holds its tier's quests in their original order. |
| SkillMap.FirstTiers | skill-tree-app/src/components/SkillMap.js:51 | The tiers of the rings placed so far. |
| SkillMap.FirstTiersStep | skill-tree-app/src/components/SkillMap.js:51 | Each ring adds one new tier. |
| SkillMap.LayoutUpToQuests | skill-tree-app/src/components/SkillMap.js:49-71 | Nodes come ring by ring in ascending tier, and in the quests' order within a ring. |
| SkillMap.TierGroupsSelect | skill-tree-app/src/components/SkillMap.js:49-71 | The rings placed so far hold exactly the quests of their tiers. |
| SkillMap.TierGroupsPermutation | skill-tree-app/src/components/SkillMap.js:49-71 | All the rings together take every quest exactly once. |
| SkillMap.LayoutIsPermutation | skill-tree-app/src/components/SkillMap.js:49-72 | The node list holds every quest exactly once. |
| SkillMap.PlaceRing | skill-tree-app/src/components/SkillMap.js:66-71 | The inner loop pushes exactly the ring's nodes. |
| SkillMap.LayoutRing | skill-tree-app/src/components/SkillMap.js:52-71 | One ring lowers the running radius to its candidate and places its nodes. |
| SkillMap.ComputeLayout | skill-tree-app/src/components/SkillMap.js:44-72 | The layout loop yields the full layout and the shared radius, within its bounds. |
| SkillMap.ClampZoom | skill-tree-app/src/components/SkillMap.js:24-27 | The zoom is clamped into [50, 300] and kept when already inside. |
| SkillMap.WheelZoom | skill-tree-app/src/components/SkillMap.js:150-155 | One wheel event: a step of 5 out when deltaY is positive, in otherwise, then clamped. |
| SkillMap.WheelZoomStep | skill-tree-app/src/components/SkillMap.js:150-155 | A wheel event moves the zoom by at most 5 in the wheel's direction (down zooms out), stays in range, and moves the full step unless a bound stops it. |
| SkillMap.StartsPan | skill-tree-app/src/components/SkillMap.js:160 | A press starts a pan on the middle or right button, or on the left one while space is held. |
| SkillMap.IsSpaceKey | skill-tree-app/src/components/SkillMap.js:191-197 | The key is ' ' or 'Space'. |
| SkillMap.PanStartFor | skill-tree-app/src/components/SkillMap.js:163 | `panStart` is the press point minus the current pan. |
| SkillMap.PanAt | skill-tree-app/src/components/SkillMap.js:170-173 | While dragging, the pan is the cursor position minus `panStart`. |
| SkillMap.PanContinuity | skill-tree-app/src/components/SkillMap.js:163-173 | With the cursor back at the press point the pan is unchanged; elsewhere it moves by exactly the cursor's travel. |
| SkillMap.CircleMarks | skill-tree-app/src/components/SkillMap.js:75-81 | One circle per node, at its centre, carrying its quest's id. |
| SkillMap.LabelMarks | skill-tree-app/src/components/SkillMap.js:127-134 | One label per node, offset below its centre, carrying its quest's id. |
| SkillMap.FirstWithId | skill-tree-app/src/components/SkillMap.js:251 | `querySelector` finds the first element with the id, or none. |
| SkillMap.Ids | skill-tree-app/src/components/SkillMap.js:81 | The `data-id` of each element, in order. |
| SkillMap.MoveFirst | skill-tree-app/src/components/SkillMap.js:251-262 | Moving an element keeps every element's id. |
| SkillMap.MoveFirstStep | skill-tree-app/src/components/SkillMap.js:251-262 | With distinct ids, moving element i by its id fixes one more element. |
| SkillMap.LayoutIdsFixed | skill-tree-app/src/components/SkillMap.js:238-245 | The nodes' ids do not depend on the drawing area's size. |
| SkillMap.MapView.constructor | skill-tree-app/src/components/SkillMap.js:10-147 | Sizes the area, lays out the nodes, draws circles and labels offset 0.15·radius, zoom 100, no pan. |
| SkillMap.MapView.GetZoom | skill-tree-app/src/components/SkillMap.js:280 | The zoom, always within [50, 300]. |
| SkillMap.MapView.UpdateTransform | skill-tree-app/src/components/SkillMap.js:183-187 | The transform is the pan, then the zoom as a scale. |
| SkillMap.MapView.Wheel | skill-tree-app/src/components/SkillMap.js:150-155 | The zoom takes one wheel step and the transform is refreshed. |
| SkillMap.MapView.SetZoom | skill-tree-app/src/components/SkillMap.js:275-279 | The zoom is the clamped argument and the transform drops the pan. |
| SkillMap.MapView.MouseDown | skill-tree-app/src/components/SkillMap.js:158-166 | Only the middle or right button, or the left one with space held, starts a pan from the current offset. |
| SkillMap.MapView.MouseMove | skill-tree-app/src/components/SkillMap.js:168-176 | While panning the offset follows the cursor; otherwise nothing changes. |
| SkillMap.MapView.MouseUp | skill-tree-app/src/components/SkillMap.js:178-181 | Panning stops. |
| SkillMap.MapView.KeyDown | skill-tree-app/src/components/SkillMap.js:191-196 | A space key sets the space flag. |
| SkillMap.MapView.KeyUp | skill-tree-app/src/components/SkillMap.js:197-202 | A space key clears the space flag. |
| SkillMap.MapView.Resize | skill-tree-app/src/components/SkillMap.js:222-265 | As written: the same ring and slot formulas for the new size, the node radius unchanged, labels 3 below the centres. |
| SkillMap.MapView.ResizeKeepingOffset | skill-tree-app/src/components/SkillMap.js:257-261 | Corrected: labels keep the 0.15·radius offset they were drawn with. |
| SkillMap.MapView.ResizeWith | skill-tree-app/src/components/SkillMap.js:222-265 | The resize with the label offset as a parameter: circles and labels land on the new layout. |
| SkillMap.MoveMarks | skill-tree-app/src/components/SkillMap.js:238-264 | With each id carried once, the loop puts every circle and label on its node. |
| SkillMap.ResizeLabelOffsetDiffers | skill-tree-app/src/components/SkillMap.js:130 | One quest on a 1000 by 1000 area has its label 6.75 below the centre, not 3. |
| ListView.FilterId | skill-tree-app/src/components/ListView.js:245-256 | The filter id is 'all' exactly for the All button. |
| ListView.ActiveOf | skill-tree-app/src/components/ListView.js:48 | The active quests, never more than given. |
| ListView.CompletedOf | skill-tree-app/src/components/ListView.js:49 | The completed quests, never more than given. |
| ListView.FilterMembers | skill-tree-app/src/components/ListView.js:277-282 | 'active' keeps exactly the not-completed quests and 'completed' exactly the completed ones. |
| ListView.FiltersSplit | skill-tree-app/src/components/ListView.js:48-49 | Every quest goes to exactly one of the two groups. |
| ListView.FiltersAppend | skill-tree-app/src/components/ListView.js:48-49 | Filtering distributes over concatenation. |
| ListView.FiltersOfFiltered | skill-tree-app/src/components/ListView.js:48-49 | A filtered list passes its own filter unchanged and fails the other entirely. |
| ListView.InsertByRank | skill-tree-app/src/components/ListView.js:40-45 | An insertion adds exactly the one quest. |
| ListView.SortActiveFirst | skill-tree-app/src/components/ListView.js:40-45 | The sort is a permutation. |
| ListView.FiltersAgree | skill-tree-app/src/components/ListView.js:48-49 | Every active quest is not completed and every completed one is. |
| ListView.InsertDone | skill-tree-app/src/components/ListView.js:40-45 | A completed quest inserted into an active-first list goes to the front of the completed run. |
| ListView.FiltersCons | skill-tree-app/src/components/ListView.js:48-49 | The head goes to its own group and the rest is filtered as before. |
| ListView.SortStepDone | skill-tree-app/src/components/ListView.js:40-45 | A completed head keeps the sorted list a stable partition. |
| ListView.SortStepActive | skill-tree-app/src/components/ListView.js:40-45 | An active head keeps the sorted list a stable partition. |
| ListView.SortIsStablePartition | skill-tree-app/src/components/ListView.js:40-49 | The stable sort gives the active quests in order, then the completed ones in order. |
| ListView.TierSection | skill-tree-app/src/components/ListView.js:9-84 | The count is completed/total over exactly the given quests; the active and completed runs; a separator exactly when both are non-empty. |
| ListView.SectionItems | skill-tree-app/src/components/ListView.js:40-69 | A section lists each given quest once, in the sort's order, and its counts add up. |
| ListView.ShownMembers | skill-tree-app/src/components/ListView.js:277-282 | 'all' shows the whole bucket, 'active' only open quests, 'completed' only completed ones. |
| ListView.Shown | skill-tree-app/src/components/ListView.js:277-282 | The quests a tier shows: the whole bucket under 'all', the open ones under 'active', the completed ones under 'completed'. |
| ListView.Emitted | skill-tree-app/src/components/ListView.js:284-285 | A tier gets a section when it shows some quest or the filter is 'all'. |
| ListView.SectionFor | skill-tree-app/src/components/ListView.js:286-288 | The section of a tier: the whole bucket under 'all', otherwise the shown quests. |
| ListView.SectionsOf | skill-tree-app/src/components/ListView.js:284-290 | One section per emitted tier, in order. |
| ListView.SectionsOfAppend | skill-tree-app/src/components/ListView.js:284-290 | Appending tiers appends their sections. |
| ListView.TiersOf | skill-tree-app/src/components/ListView.js:288 | The tier of each section, in order. |
| ListView.EmittedTiersSpec | skill-tree-app/src/components/ListView.js:273-291 | A tier gets a section exactly when it is visited and emitted; the sections ascend. |
| ListView.EmittedTiersMembers | skill-tree-app/src/components/ListView.js:284-285 | A tier is listed exactly when it is among the visited tiers and passes the emission rule. |
| ListView.SnocIncreasing | skill-tree-app/src/components/ListView.js:271 | A tier above every listed one can end an ascending list. |
| ListView.EmittedTiersAscend | skill-tree-app/src/components/ListView.js:271-291 | The emitted tiers ascend. |
| ListView.EmittedTiersAll | skill-tree-app/src/components/ListView.js:285 | Under 'all' every tier is emitted. |
| ListView.RenderedSections | skill-tree-app/src/components/ListView.js:264-291 | Tier t has a section exactly when a quest has tier t and it passes the filter rule; sections ascend; each holds the whole tier under 'all' and the filtered tier otherwise. |
| ListView.Sections | skill-tree-app/src/components/ListView.js:264-291 | The sections `render()` appends: one per emitted tier, in ascending tier order. |
| ListView.AllItemsSnoc | skill-tree-app/src/components/ListView.js:289 | Appending a section appends its items. |
| ListView.AllItemsStep | skill-tree-app/src/components/ListView.js:284-290 | Under 'all' one more tier adds its items. |
| ListView.AllItemsUpTo | skill-tree-app/src/components/ListView.js:273-291 | Under 'all' the items so far are the tiers' buckets, rearranged within each tier. |
| ListView.AllListsEveryQuest | skill-tree-app/src/components/ListView.js:264-291 | Under 'all' every quest is listed exactly once. |
| ListView.BucketMembers | skill-tree-app/src/components/ListView.js:265-269 | A bucket holds exactly its tier's quests, so each quest is in one bucket. |
| ListView.TierQuestsSnoc | skill-tree-app/src/components/ListView.js:268 | Pushing a quest extends only its own tier's bucket. |
| ListView.TierSetMembers | skill-tree-app/src/components/ListView.js:265-269 | The Map's keys are exactly the tiers the quests have. |
| ListView.TierQuestsAbsent | skill-tree-app/src/components/ListView.js:267 | A tier with no bucket yet has no quests so far. |
| ListView.AddToBucket | skill-tree-app/src/components/ListView.js:267-268 | One pass creates the bucket if needed and pushes the quest; buckets keep input order. |
| ListView.SortedTiersGrouped | skill-tree-app/src/components/ListView.js:271 | Every sorted tier has a bucket. |
| ListView.GroupByTier | skill-tree-app/src/components/ListView.js:265-269 | One bucket per tier present, holding that tier's quests in input order. |
| ListView.RenderTier | skill-tree-app/src/components/ListView.js:274-290 | One tier's section is emitted or not, by the emission rule. |
| ListView.RenderStep | skill-tree-app/src/components/ListView.js:273-291 | One tier extends the sections emitted so far. |
| ListView.RenderNext | skill-tree-app/src/components/ListView.js:273-291 | One pass of the tier loop. |
| ListView.RenderTiers | skill-tree-app/src/components/ListView.js:273-291 | The tier loop emits the sections of the emitted tiers, in order. |
| ListView.RenderSections | skill-tree-app/src/components/ListView.js:264-291 | `render()` builds exactly `Sections`. |
| ListView.ListViewState.constructor | skill-tree-app/src/components/ListView.js:209-214 | The filter starts at 'all'. |
| ListView.ListViewState.ClickFilter | skill-tree-app/src/components/ListView.js:255-258 | A click selects that button's filter. |
| ListView.ListViewState.Render | skill-tree-app/src/components/ListView.js:235-295 | Renders the sections for the store's current completed list and filter. |
| ListView.ListViewState.CheckboxChanged | skill-tree-app/src/components/ListView.js:143-150 | Calls `toggleQuest(id, checked, quest.points or {})`: the record becomes `Toggle` of the old one, local storage holds it under the storage key, and it is saved and notified once. |
| ProgressStepper.Percentage | skill-tree-app/src/components/ProgressStepper.js:8 | 0 without quests, else round(100·completed/total). |
| ProgressStepper.MulCancel | skill-tree-app/src/components/ProgressStepper.js:8 | A positive factor cancels from a strict inequality. |
| ProgressStepper.PercentageBounds | skill-tree-app/src/components/ProgressStepper.js:8 | 0 with nothing done, 100 with all done, at most 100 while completed ≤ total, and monotone in completed. |
| ProgressStepper.IsReached | skill-tree-app/src/components/ProgressStepper.js:20 | A step is reached when the percentage is at least its milestone. |
| ProgressStepper.IsCurrent | skill-tree-app/src/components/ProgressStepper.js:21 | A step is current when reached and either last or the next milestone is not reached. |
| ProgressStepper.ConnectorFilled | skill-tree-app/src/components/ProgressStepper.js:49 | The connector after a step is filled when the step and the next milestone are both reached. |
| ProgressStepper.StepAt | skill-tree-app/src/components/ProgressStepper.js:17-54 | One step: reached and current flags, the circle (✓ or the milestone), the label "m%", and a connector on all but the last step. |
| ProgressStepper.ReachedIsPrefix | skill-tree-app/src/components/ProgressStepper.js:11-20 | Step 0 is always reached, and reached steps form a prefix. |
| ProgressStepper.ExactlyOneCurrent | skill-tree-app/src/components/ProgressStepper.js:21 | Exactly one step is current, namely the last reached one. |
| ProgressStepper.ConnectorRule | skill-tree-app/src/components/ProgressStepper.js:46-53 | The connector after step i is filled exactly when milestone i+1 is reached. |
| ProgressStepper.Stepper | skill-tree-app/src/components/ProgressStepper.js:16-56 | One step per milestone, each reached/current/circle/label/connector as the percentage dictates. |
| ProgressStepper.StepperShape | skill-tree-app/src/components/ProgressStepper.js:32-53 | A circle shows ✓ exactly when reached, else its milestone's digits; only the last step lacks a connector; some step is current. |
| ProgressStepper.InfoTextParts | skill-tree-app/src/components/ProgressStepper.js:60 | The info text splits at its spaces into the two counts. |
| ProgressStepper.InfoText | skill-tree-app/src/components/ProgressStepper.js:60 | The info text "c of t nodes completed". |
| ProgressStepper.InfoTextInjective | skill-tree-app/src/components/ProgressStepper.js:60 | "c of t nodes completed" determines both c and t. |
| ProgressSummary.FormatCopy | skill-tree-app/src/components/ProgressSummary.js:3-11 | The copy: the ready text for 0, the singular logged text for 1, and the plural with the printed count otherwise. |
| ProgressSummary.CopyNamesCount | skill-tree-app/src/components/ProgressSummary.js:7-10 | For n ≥ 1 the copy is "You’ve logged " + n + " act(s) of kindness.", singular exactly for 1. |
| ProgressSummary.ReadyOnlyForZero | skill-tree-app/src/components/ProgressSummary.js:3-6 | Exactly the count 0 gets "This is here when you’re ready.". |
| ProgressSummary.FormatCopyInjective | skill-tree-app/src/components/ProgressSummary.js:3-11 | Different counts get different copy. |
| ProgressSummary.CopyHasNoParen | skill-tree-app/src/components/ProgressSummary.js:3-11 | No copy holds '('. |
| ProgressSummary.SummaryLineParts | skill-tree-app/src/components/ProgressSummary.js:28 | The line is the copy, then " (", the percentage, "% of your tree so far.)". |
| ProgressSummary.SummaryLine | skill-tree-app/src/components/ProgressSummary.js:24-28 | The summary line: the copy, then the rounded percentage in "(p% of your tree so far.)". |
| ProgressSummary.SummaryLineReadsBack | skill-tree-app/src/components/ProgressSummary.js:24-28 | Equal lines have equal counts and equal percentages. |
| SkillTree.Flip | skill-tree-app/src/components/SkillTree.js:107 | The toggle always changes the view. |
| SkillTree.InitialView | skill-tree-app/src/components/SkillTree.js:20-29 | The list exactly when the window is narrower than 768 or taller than wide. |
| SkillTree.IsMobileView | skill-tree-app/src/components/SkillTree.js:20-22 | Mobile when the window is narrower than 768 or taller than wide. |
| SkillTree.MobileWhenNarrower | skill-tree-app/src/components/SkillTree.js:20-22 | Narrowing or heightening a mobile window keeps it mobile. |
| SkillTree.DropWhitespace | skill-tree-app/src/components/SkillTree.js:44 | A whitespace run is consumed from the front, leaving a non-whitespace head. |
| SkillTree.DashRuns | skill-tree-app/src/components/SkillTree.js:44 | `replace(/\s+/g, '-')` never lengthens a name and empties only the empty name. |
| SkillTree.Visible | skill-tree-app/src/components/SkillTree.js:44 | The characters other than whitespace and dashes. |
| SkillTree.VisibleDropsWhitespace | skill-tree-app/src/components/SkillTree.js:44 | Dropping whitespace keeps the visible characters. |
| SkillTree.DashRunsSpec | skill-tree-app/src/components/SkillTree.js:44 | The dashed name has no whitespace, keeps every visible character in order, and adds nothing but dashes. |
| SkillTree.DashRunsIdentity | skill-tree-app/src/components/SkillTree.js:44 | A name without whitespace is kept. |
| SkillTree.DashRunsIdempotent | skill-tree-app/src/components/SkillTree.js:44 | Dashing twice is dashing once. |
| SkillTree.ExportFileNameSpec | skill-tree-app/src/components/SkillTree.js:44 | The name is a base plus "-progress.json"; the base is 'skill-tree' when appName is missing or empty, and otherwise a non-empty name with no whitespace and no capital letter that keeps the visible characters of the lower-cased appName in order. |
| SkillTree.ExportKeepsPlainName | skill-tree-app/src/components/SkillTree.js:44 | An app name already lower-case and without whitespace is used as is. |
| SkillTree.ExportBase | skill-tree-app/src/components/SkillTree.js:44 | The app name lower-cased with whitespace runs dashed, or 'skill-tree' when it is missing or empty. |
| SkillTree.ExportFileName | skill-tree-app/src/components/SkillTree.js:44 | The base followed by "-progress.json". |
| SkillTree.TooltipWidth | skill-tree-app/src/components/SkillTree.js:193 | The laid-out width, or 150 while it is 0. |
| SkillTree.TooltipLeft | skill-tree-app/src/components/SkillTree.js:194-200 | The tooltip centre: the cursor x, pushed in to half the width from either edge. |
| SkillTree.TooltipTop | skill-tree-app/src/components/SkillTree.js:201 | The tooltip top: 8 above the cursor, but at least 8. |
| SkillTree.TooltipLeftSpec | skill-tree-app/src/components/SkillTree.js:194-200 | In a wide enough container the tooltip lies wholly inside, sits at the cursor when it can, and follows it monotonically. |
| SkillTree.TooltipTopSpec | skill-tree-app/src/components/SkillTree.js:201 | The top is max(y − 8, 8), monotone in y. |
| SkillTree.SkillTreeView.constructor | skill-tree-app/src/components/SkillTree.js:24-29 | Mounting first runs `loadProgress()` on the store (the record becomes `AfterLoad` of the candidate snapshot, listeners told only on acceptance); then the initial view follows `isMobileView`, a full render is pending and no modal is open. |
| SkillTree.SkillTreeView.Render | skill-tree-app/src/components/SkillTree.js:74-85 | A full render happens exactly when one is pending or there is no container, and then the current view is on screen; otherwise the screen is kept. |
| SkillTree.SkillTreeView.ClickToggle | skill-tree-app/src/components/SkillTree.js:240-244 | The view flips, a full render is requested, and the flipped view is on screen. |
| SkillTree.SkillTreeView.HandleResize | skill-tree-app/src/components/SkillTree.js:374-382 | As written: a mobile window turns the tree into the list and the list is never switched back, but a settled shell keeps what it showed. |
| SkillTree.SkillTreeView.HandleResizeRebuilding | skill-tree-app/src/components/SkillTree.js:374-382 | Corrected: the same view rule, and the switched-to view is on screen. |
| SkillTree.SkillTreeView.OpenNodeModal | skill-tree-app/src/components/SkillTree.js:49-60 | Any open modal is closed and one for the quest is open. |
| SkillTree.SkillTreeView.CloseNodeModal | skill-tree-app/src/components/SkillTree.js:62-68 | No modal is open. |
| SkillTree.SkillTreeView.ExportProgress | skill-tree-app/src/components/SkillTree.js:31-47 | The export holds exactly the current progress, the quests, the config and the timestamp, under `ExportFileName`. |
| SkillTree.NarrowedDesktopKeepsTree | skill-tree-app/src/components/SkillTree.js:374-382 | A 1280 by 800 window painted as the tree and resized to 600 by 800 switches to the list but still shows the tree. |
| SkillTree.NarrowedDesktopShowsList | skill-tree-app/src/components/SkillTree.js:106-110 | With a full render requested, the same resize shows the list. |

## Left out

- DOM construction: element creation, classes, ARIA attributes, collapsing tier sections, scroll save/restore, the view-toggle icon and label text, and the tier titles and emoji. These only build or decorate elements.
- The re-render that `createListView` and `mountSkillTree` subscribe to the store, and the NodeModal's update callback. The views are rendered by explicit calls instead.
- Listener callbacks are opaque handles. `notify` records the record the listeners were called with; a listener that calls back into the store is not modelled.
- `loadSnapshot` and `saveSnapshot` return Promises that `save()` does not await. The model treats them as synchronous.
- `JSON.stringify`/`JSON.parse` text is not modelled. Local storage maps each key to what parsing its text yields: blank, unreadable, or a snapshot with optional fields.
- `fetch` of `config.json` is an input (`Fetched`). The console warnings are not modelled.
- The clock is a `now` parameter. `window.__skillTreeInitialSnapshot` is an optional parameter, and window sizes are parameters.
- Exact floating point: sin and cos are uninterpreted function parameters. Coordinates are real numbers, so rounding of doubles is not modelled.
- `Math.round` of the percentage is exact rounding of the rational value, halves up. Double rounding error is not modelled.
- `toUpperCase`/`toLowerCase` are modelled for ASCII letters only; Unicode case mapping is not part of this model.
- ProgressStore.KeyTableEntries: a proof that the default vocabulary gives the four expected entries is left out; its upper-casing of literal keys costs more than the verifier allows at once. Only the general entry rule is stated.
- SkillMap.MapView.Resize: the circle and label positions are stated under distinct quest ids. With a repeated id `querySelector` moves only the first element, and the model states only that every element keeps its id.
- The window `resize` listener, the ResizeObserver, the event-listener registration, `destroy`, `requestAnimationFrame` and the context-menu handler.
- The map instance kept by `SkillTree.js` and its destroy/recreate on view changes. The tree branch of the shell's partial render, which rebuilds the map, is modelled as "the screen is kept".
- `root.querySelector('.fullscreen-container')` finding a container that was already there: the model starts without one.
- TreeScene.js (WebGL), NodeModal.js, QuestCard.js, CharacterStats.js, Tier.js, SettingsMenu.js, main.js and the build files are not part of this model.
- ProgressStepper.Percentage: nothing bounds the completed count by the total, so the percentage can exceed 100. The bound of 100 is proved only for completed ≤ total.

## Findings

| source | as written | input that shows it | evidently intended | confidence | as-written member | corrected member |
|---|---|---|---|---|---|---|
| skill-tree-app/src/components/SkillMap.js:261 | On resize each label is moved to 3 units below its node's centre, though the map drew it 0.15·nodeRadius below (line 130) and the comment promises the same offset. | One quest on a 1000 by 1000 area: the label is drawn 6.75 below the centre and a resize moves it to 3 below. | Keep the creation offset, 0.15·nodeRadius. | not executed | SkillMap.MapView.Resize, SkillMap.ResizeLabelOffsetDiffers | SkillMap.MapView.ResizeKeepingOffset |
| skill-tree-app/src/components/SkillTree.js:374-382 | `handleResize` switches `currentView` to 'list' without setting `needsFullRender`, so `render()` takes the partial path and never builds the list. | A 1280 by 800 window painted as the tree, then resized to 600 by 800: `currentView` is 'list' but the tree stays on screen. | Set `needsFullRender = true` before `render()`, as the view toggle does (lines 106-110, 154-158, 240-244). | not executed | SkillTree.SkillTreeView.HandleResize, SkillTree.NarrowedDesktopKeepsTree | SkillTree.SkillTreeView.HandleResizeRebuilding, SkillTree.NarrowedDesktopShowsList |
