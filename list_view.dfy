/**
 * The list view (`src/components/ListView.js`): quests grouped by tier in
 * ascending tier order, filtered by completion, and inside each tier section
 * ordered active first; plus the checkbox and filter-button handlers.
 */
module ListView {
  import opened Js
  import opened Quests
  import SkillMap
  import ProgressStore
  import Persistence

  /** The three filter buttons; `currentFilter` holds the clicked button's `id`. */
  datatype Filter = All | Active | Completed

  function FilterId(f: Filter): (id: string)
    ensures id == "all" <==> f == All
  {
    match f
    case All => "all"
    case Active => "active"
    case Completed => "completed"
  }

  /** `isQuestCompleted(q.id)`: the id is in the store's completed list. */
  predicate Done(completed: seq<string>, q: Quest) {
    q.id in completed
  }

  // ---------------------------------------------------------------------------
  // Filters

  /** The quests not yet completed, in their order. */
  function ActiveOf(qs: seq<Quest>, completed: seq<string>): (r: seq<Quest>)
    ensures |r| <= |qs|
  {
    if qs == [] then []
    else (if Done(completed, qs[0]) then [] else [qs[0]]) + ActiveOf(qs[1..], completed)
  }

  /** The completed quests, in their order. */
  function CompletedOf(qs: seq<Quest>, completed: seq<string>): (r: seq<Quest>)
    ensures |r| <= |qs|
  {
    if qs == [] then []
    else (if Done(completed, qs[0]) then [qs[0]] else []) + CompletedOf(qs[1..], completed)
  }

  /** 'active' keeps exactly the not-completed quests and 'completed' exactly the completed ones. */
  lemma {:induction false} FilterMembers(qs: seq<Quest>, completed: seq<string>, q: Quest)
    ensures q in ActiveOf(qs, completed) <==> q in qs && !Done(completed, q)
    ensures q in CompletedOf(qs, completed) <==> q in qs && Done(completed, q)
  {
    if qs != [] {
      FilterMembers(qs[1..], completed, q);
      assert qs == [qs[0]] + qs[1..];
    }
  }

  /** The two filters split a list: every quest goes to exactly one side. */
  lemma {:induction false} FiltersSplit(qs: seq<Quest>, completed: seq<string>)
    ensures multiset(ActiveOf(qs, completed)) + multiset(CompletedOf(qs, completed)) == multiset(qs)
    ensures |ActiveOf(qs, completed)| + |CompletedOf(qs, completed)| == |qs|
  {
    if qs != [] {
      FiltersSplit(qs[1..], completed);
      assert qs == [qs[0]] + qs[1..];
    }
  }

  /** Filtering distributes over concatenation. */
  lemma {:induction false} FiltersAppend(a: seq<Quest>, b: seq<Quest>, completed: seq<string>)
    ensures ActiveOf(a + b, completed) == ActiveOf(a, completed) + ActiveOf(b, completed)
    ensures CompletedOf(a + b, completed) == CompletedOf(a, completed) + CompletedOf(b, completed)
  {
    if a != [] {
      assert (a + b)[0] == a[0] && (a + b)[1..] == a[1..] + b;
      FiltersAppend(a[1..], b, completed);
      var x := if Done(completed, a[0]) then [] else [a[0]];
      var y := if Done(completed, a[0]) then [a[0]] else [];
      assert ActiveOf(a + b, completed) == x + ActiveOf(a[1..] + b, completed);
      assert CompletedOf(a + b, completed) == y + CompletedOf(a[1..] + b, completed);
    } else {
      assert a + b == b;
    }
  }

  /** A list that passes a filter entirely is left as it is by it, and emptied by the other. */
  lemma {:induction false} FiltersOfFiltered(qs: seq<Quest>, completed: seq<string>)
    ensures ActiveOf(ActiveOf(qs, completed), completed) == ActiveOf(qs, completed)
    ensures CompletedOf(ActiveOf(qs, completed), completed) == []
    ensures CompletedOf(CompletedOf(qs, completed), completed) == CompletedOf(qs, completed)
    ensures ActiveOf(CompletedOf(qs, completed), completed) == []
  {
    if qs != [] {
      FiltersOfFiltered(qs[1..], completed);
      var a := if Done(completed, qs[0]) then [] else [qs[0]];
      var c := if Done(completed, qs[0]) then [qs[0]] else [];
      FiltersAppend(a, ActiveOf(qs[1..], completed), completed);
      FiltersAppend(c, CompletedOf(qs[1..], completed), completed);
    }
  }

  // ---------------------------------------------------------------------------
  // Active first

  /** The comparator's key: active quests sort before completed ones. */
  function Rank(completed: seq<string>, q: Quest): nat {
    if Done(completed, q) then 1 else 0
  }

  /** Insert `q` in front of the first element that does not sort strictly before it. */
  function InsertByRank(q: Quest, sorted: seq<Quest>, completed: seq<string>): (r: seq<Quest>)
    ensures multiset(r) == multiset(sorted) + multiset{q}
  {
    if sorted == [] || Rank(completed, q) <= Rank(completed, sorted[0]) then [q] + sorted
    else
      assert sorted == [sorted[0]] + sorted[1..];
      [sorted[0]] + InsertByRank(q, sorted[1..], completed)
  }

  /**
   * `[...qs].sort(...)` with the active-first comparator. `Array.prototype.sort`
   * is stable, so this is a stable insertion sort by rank.
   */
  function SortActiveFirst(qs: seq<Quest>, completed: seq<string>): (r: seq<Quest>)
    ensures multiset(r) == multiset(qs)
  {
    if qs == [] then []
    else
      assert qs == [qs[0]] + qs[1..];
      InsertByRank(qs[0], SortActiveFirst(qs[1..], completed), completed)
  }

  /** Every element the 'active' filter keeps is active, and every one the 'completed' filter keeps is completed. */
  lemma {:induction false} FiltersAgree(qs: seq<Quest>, completed: seq<string>)
    ensures forall i :: 0 <= i < |ActiveOf(qs, completed)| ==> !Done(completed, ActiveOf(qs, completed)[i])
    ensures forall i :: 0 <= i < |CompletedOf(qs, completed)| ==> Done(completed, CompletedOf(qs, completed)[i])
  {
    if qs != [] {
      FiltersAgree(qs[1..], completed);
    }
  }

  /** A completed quest inserted into an active-first list lands in front of the completed run. */
  lemma {:induction false} InsertDone(q: Quest, active: seq<Quest>, done: seq<Quest>, completed: seq<string>)
    requires Done(completed, q)
    requires forall i :: 0 <= i < |active| ==> !Done(completed, active[i])
    requires forall i :: 0 <= i < |done| ==> Done(completed, done[i])
    ensures InsertByRank(q, active + done, completed) == active + [q] + done
  {
    if active != [] {
      assert (active + done)[1..] == active[1..] + done;
      InsertDone(q, active[1..], done, completed);
    }
  }

  /** Unfolding both filters one element at a time. */
  lemma FiltersCons(qs: seq<Quest>, completed: seq<string>)
    requires qs != []
    ensures Done(completed, qs[0]) ==> ActiveOf(qs, completed) == ActiveOf(qs[1..], completed)
    ensures Done(completed, qs[0]) ==> CompletedOf(qs, completed) == [qs[0]] + CompletedOf(qs[1..], completed)
    ensures !Done(completed, qs[0]) ==> ActiveOf(qs, completed) == [qs[0]] + ActiveOf(qs[1..], completed)
    ensures !Done(completed, qs[0]) ==> CompletedOf(qs, completed) == CompletedOf(qs[1..], completed)
  {
  }

  /** One step of the sort for a completed head: it joins the front of the completed run. */
  lemma SortStepDone(qs: seq<Quest>, completed: seq<string>)
    requires qs != [] && Done(completed, qs[0])
    requires SortActiveFirst(qs[1..], completed) == ActiveOf(qs[1..], completed) + CompletedOf(qs[1..], completed)
    ensures SortActiveFirst(qs, completed) == ActiveOf(qs, completed) + CompletedOf(qs, completed)
  {
    var a := ActiveOf(qs[1..], completed);
    var c := CompletedOf(qs[1..], completed);
    FiltersCons(qs, completed);
    FiltersAgree(qs[1..], completed);
    InsertDone(qs[0], a, c, completed);
    ConcatAssoc(a, [qs[0]], c);
  }

  /** One step of the sort for an active head: it goes to the very front. */
  lemma SortStepActive(qs: seq<Quest>, completed: seq<string>)
    requires qs != [] && !Done(completed, qs[0])
    requires SortActiveFirst(qs[1..], completed) == ActiveOf(qs[1..], completed) + CompletedOf(qs[1..], completed)
    ensures SortActiveFirst(qs, completed) == ActiveOf(qs, completed) + CompletedOf(qs, completed)
  {
    var a := ActiveOf(qs[1..], completed);
    var c := CompletedOf(qs[1..], completed);
    assert Rank(completed, qs[0]) == 0;
    assert InsertByRank(qs[0], a + c, completed) == [qs[0]] + (a + c);
    FiltersCons(qs, completed);
    ConcatAssoc([qs[0]], a, c);
  }

  /**
   * The sort is the stable partition: the active quests in their original
   * order, then the completed quests in their original order.
   */
  lemma {:induction false} SortIsStablePartition(qs: seq<Quest>, completed: seq<string>)
    ensures SortActiveFirst(qs, completed) == ActiveOf(qs, completed) + CompletedOf(qs, completed)
  {
    if qs != [] {
      SortIsStablePartition(qs[1..], completed);
      if Done(completed, qs[0]) {
        SortStepDone(qs, completed);
      } else {
        SortStepActive(qs, completed);
      }
    }
  }

  // ---------------------------------------------------------------------------
  // One tier section

  /** What `createTierSection` shows: the count, the active items, the separator and the completed items. */
  datatype Section = Section(tier: int, completedCount: nat, total: nat, active: seq<Quest>, separator: bool, done: seq<Quest>)

  /**
   * `createTierSection(tierNumber, tierQuests)`: count over exactly the given
   * quests, sort them active first, then split the sorted list by completion.
   */
  function TierSection(tier: int, qs: seq<Quest>, completed: seq<string>): (s: Section)
    ensures s.tier == tier && s.total == |qs| && s.completedCount == |CompletedOf(qs, completed)|
    ensures s.active == ActiveOf(qs, completed) && s.done == CompletedOf(qs, completed)
    ensures s.separator <==> s.active != [] && s.done != []
  {
    var sorted := SortActiveFirst(qs, completed);
    SortIsStablePartition(qs, completed);
    FiltersAppend(ActiveOf(qs, completed), CompletedOf(qs, completed), completed);
    FiltersOfFiltered(qs, completed);
    var active := ActiveOf(sorted, completed);
    var done := CompletedOf(sorted, completed);
    Section(tier, |CompletedOf(qs, completed)|, |qs|, active, |active| > 0 && |done| > 0, done)
  }

  /** The items of a section, in display order (the separator sits between the two runs). */
  function Items(s: Section): seq<Quest> {
    s.active + s.done
  }

  /**
   * A section lists every quest it was given exactly once, active ones first,
   * in the order of the stable sort, and its count adds up.
   */
  lemma SectionItems(tier: int, qs: seq<Quest>, completed: seq<string>)
    ensures Items(TierSection(tier, qs, completed)) == SortActiveFirst(qs, completed)
    ensures multiset(Items(TierSection(tier, qs, completed))) == multiset(qs)
    ensures |TierSection(tier, qs, completed).active| + TierSection(tier, qs, completed).completedCount == |qs|
  {
    SortIsStablePartition(qs, completed);
    FiltersSplit(qs, completed);
  }

  // ---------------------------------------------------------------------------
  // The whole list

  /** `questsToShow` for one tier's bucket. */
  function Shown(bucket: seq<Quest>, completed: seq<string>, filter: Filter): seq<Quest> {
    match filter
    case All => bucket
    case Active => ActiveOf(bucket, completed)
    case Completed => CompletedOf(bucket, completed)
  }

  /** 'active' shows only not-completed quests, 'completed' only completed ones, and 'all' everything. */
  lemma ShownMembers(bucket: seq<Quest>, completed: seq<string>, filter: Filter, q: Quest)
    ensures filter == All ==> Shown(bucket, completed, filter) == bucket
    ensures q in Shown(bucket, completed, filter) <==>
      q in bucket && (filter == Active ==> !Done(completed, q)) && (filter == Completed ==> Done(completed, q))
  {
    FilterMembers(bucket, completed, q);
  }

  /** Whether the section for a tier is emitted: some quest passes the filter, or the filter is 'all'. */
  predicate Emitted(bucket: seq<Quest>, completed: seq<string>, filter: Filter) {
    |Shown(bucket, completed, filter)| > 0 || filter == All
  }

  /** The section a tier gets: under 'all' the whole bucket, otherwise the filtered one. */
  function SectionFor(quests: seq<Quest>, tier: int, completed: seq<string>, filter: Filter): Section {
    var bucket := SkillMap.TierQuests(quests, tier);
    TierSection(tier, if filter == All then bucket else Shown(bucket, completed, filter), completed)
  }

  /** The tiers among the first `n` whose section is emitted, in order. */
  function EmittedTiers(quests: seq<Quest>, tiers: seq<int>, n: nat, completed: seq<string>, filter: Filter): seq<int>
    requires n <= |tiers|
  {
    if n == 0 then []
    else
      EmittedTiers(quests, tiers, n - 1, completed, filter)
      + if Emitted(SkillMap.TierQuests(quests, tiers[n - 1]), completed, filter) then [tiers[n - 1]] else []
  }

  /** One section per listed tier. */
  function SectionsOf(quests: seq<Quest>, ts: seq<int>, completed: seq<string>, filter: Filter): (secs: seq<Section>)
    ensures |secs| == |ts|
    ensures forall j :: 0 <= j < |ts| ==> secs[j] == SectionFor(quests, ts[j], completed, filter)
  {
    seq(|ts|, j requires 0 <= j < |ts| => SectionFor(quests, ts[j], completed, filter))
  }

  lemma SectionsOfAppend(quests: seq<Quest>, ts: seq<int>, us: seq<int>, completed: seq<string>, filter: Filter)
    ensures SectionsOf(quests, ts + us, completed, filter) == SectionsOf(quests, ts, completed, filter) + SectionsOf(quests, us, completed, filter)
  {
  }

  /** `render()`: one section per distinct tier, ascending, subject to the filter. */
  function Sections(quests: seq<Quest>, completed: seq<string>, filter: Filter): seq<Section> {
    var tiers := SkillMap.SortedTiers(quests);
    SectionsOf(quests, EmittedTiers(quests, tiers, |tiers|, completed, filter), completed, filter)
  }

  function TiersOf(secs: seq<Section>): (ts: seq<int>)
    ensures |ts| == |secs|
    ensures forall j :: 0 <= j < |secs| ==> ts[j] == secs[j].tier
  {
    seq(|secs|, j requires 0 <= j < |secs| => secs[j].tier)
  }

  /**
   * Which tiers get a section: a tier is listed exactly when it is among the
   * first `n` and is emitted, and the listed tiers ascend.
   */
  lemma {:induction false} EmittedTiersSpec(quests: seq<Quest>, tiers: seq<int>, n: nat, completed: seq<string>, filter: Filter)
    requires n <= |tiers| && SkillMap.StrictlyIncreasing(tiers)
    ensures var ts := EmittedTiers(quests, tiers, n, completed, filter);
      && (forall t :: t in ts <==> t in tiers[..n] && Emitted(SkillMap.TierQuests(quests, t), completed, filter))
      && SkillMap.StrictlyIncreasing(ts)
  {
    EmittedTiersMembers(quests, tiers, n, completed, filter);
    EmittedTiersAscend(quests, tiers, n, completed, filter);
  }

  lemma {:induction false} EmittedTiersMembers(quests: seq<Quest>, tiers: seq<int>, n: nat, completed: seq<string>, filter: Filter)
    requires n <= |tiers|
    ensures forall t :: t in EmittedTiers(quests, tiers, n, completed, filter) <==>
      t in tiers[..n] && Emitted(SkillMap.TierQuests(quests, t), completed, filter)
  {
    if n > 0 {
      EmittedTiersMembers(quests, tiers, n - 1, completed, filter);
      assert tiers[..n] == tiers[..n - 1] + [tiers[n - 1]];
    }
  }

  /** A value above every element of a strictly increasing sequence can end it. */
  lemma SnocIncreasing(s: seq<int>, x: int)
    requires SkillMap.StrictlyIncreasing(s)
    requires forall i :: 0 <= i < |s| ==> s[i] < x
    ensures SkillMap.StrictlyIncreasing(s + [x])
  {
    var r := s + [x];
    assert forall i :: 0 <= i < |s| ==> r[i] == s[i];
  }

  lemma {:induction false} EmittedTiersAscend(quests: seq<Quest>, tiers: seq<int>, n: nat, completed: seq<string>, filter: Filter)
    requires n <= |tiers| && SkillMap.StrictlyIncreasing(tiers)
    ensures SkillMap.StrictlyIncreasing(EmittedTiers(quests, tiers, n, completed, filter))
  {
    if n > 0 {
      EmittedTiersAscend(quests, tiers, n - 1, completed, filter);
      EmittedTiersMembers(quests, tiers, n - 1, completed, filter);
      var prev := EmittedTiers(quests, tiers, n - 1, completed, filter);
      var last := tiers[n - 1];
      forall i | 0 <= i < |prev| ensures prev[i] < last {
        assert prev[i] in prev;
        var k :| 0 <= k < n - 1 && tiers[k] == prev[i];
      }
      if Emitted(SkillMap.TierQuests(quests, last), completed, filter) {
        SnocIncreasing(prev, last);
      } else {
        assert EmittedTiers(quests, tiers, n, completed, filter) == prev;
      }
    }
  }

  /** Under 'all' every tier is emitted. */
  lemma {:induction false} EmittedTiersAll(quests: seq<Quest>, tiers: seq<int>, n: nat, completed: seq<string>)
    requires n <= |tiers|
    ensures EmittedTiers(quests, tiers, n, completed, All) == tiers[..n]
  {
    if n > 0 {
      EmittedTiersAll(quests, tiers, n - 1, completed);
      assert tiers[..n] == tiers[..n - 1] + [tiers[n - 1]];
    }
  }

  /**
   * The rendered list: a section for tier `t` appears iff `t` is a quest's
   * tier and passes the emission rule; sections are in ascending tier order;
   * each shows the tier's quests under 'all' and the filtered ones otherwise.
   */
  lemma RenderedSections(quests: seq<Quest>, completed: seq<string>, filter: Filter)
    ensures var secs := Sections(quests, completed, filter);
      && (forall t :: t in TiersOf(secs) <==>
            (exists i :: 0 <= i < |quests| && quests[i].tier == t) && Emitted(SkillMap.TierQuests(quests, t), completed, filter))
      && SkillMap.StrictlyIncreasing(TiersOf(secs))
      && (forall j :: 0 <= j < |secs| ==> secs[j] == SectionFor(quests, secs[j].tier, completed, filter))
  {
    var tiers := SkillMap.SortedTiers(quests);
    var ts := EmittedTiers(quests, tiers, |tiers|, completed, filter);
    EmittedTiersSpec(quests, tiers, |tiers|, completed, filter);
    assert tiers[..|tiers|] == tiers;
    assert TiersOf(Sections(quests, completed, filter)) == ts;
  }

  /** All items of a list of sections, in display order. */
  function AllItems(secs: seq<Section>): seq<Quest> {
    if secs == [] then [] else AllItems(secs[..|secs| - 1]) + Items(secs[|secs| - 1])
  }

  lemma AllItemsSnoc(secs: seq<Section>, s: Section)
    ensures AllItems(secs + [s]) == AllItems(secs) + Items(s)
  {
    assert (secs + [s])[..|secs|] == secs;
  }

  lemma AllItemsStep(quests: seq<Quest>, tiers: seq<int>, n: nat, completed: seq<string>)
    requires 0 < n <= |tiers|
    ensures AllItems(SectionsOf(quests, tiers[..n], completed, All))
      == AllItems(SectionsOf(quests, tiers[..n - 1], completed, All)) + Items(SectionFor(quests, tiers[n - 1], completed, All))
  {
    var t := tiers[n - 1];
    assert tiers[..n] == tiers[..n - 1] + [t];
    SectionsOfAppend(quests, tiers[..n - 1], [t], completed, All);
    assert SectionsOf(quests, [t], completed, All) == [SectionFor(quests, t, completed, All)];
    AllItemsSnoc(SectionsOf(quests, tiers[..n - 1], completed, All), SectionFor(quests, t, completed, All));
  }

  /** Under 'all' the sections, item by item, are the tier buckets rearranged within each tier. */
  lemma {:induction false} AllItemsUpTo(quests: seq<Quest>, tiers: seq<int>, n: nat, completed: seq<string>)
    requires n <= |tiers|
    ensures multiset(AllItems(SectionsOf(quests, tiers[..n], completed, All))) == multiset(SkillMap.TierGroups(quests, tiers, n))
  {
    if n > 0 {
      AllItemsUpTo(quests, tiers, n - 1, completed);
      AllItemsStep(quests, tiers, n, completed);
      SectionItems(tiers[n - 1], SkillMap.TierQuests(quests, tiers[n - 1]), completed);
    }
  }

  /** Under the 'all' filter every quest is listed exactly once. */
  lemma AllListsEveryQuest(quests: seq<Quest>, completed: seq<string>)
    ensures multiset(AllItems(Sections(quests, completed, All))) == multiset(quests)
  {
    var tiers := SkillMap.SortedTiers(quests);
    EmittedTiersAll(quests, tiers, |tiers|, completed);
    AllItemsUpTo(quests, tiers, |tiers|, completed);
    assert tiers[..|tiers|] == tiers;
    SkillMap.TierGroupsPermutation(quests);
  }

  /** A bucket holds exactly the quests of its tier (so each quest is in exactly one bucket). */
  lemma {:induction false} BucketMembers(quests: seq<Quest>, t: int, q: Quest)
    ensures q in SkillMap.TierQuests(quests, t) <==> q in quests && q.tier == t
    decreases |quests|
  {
    if quests != [] {
      var init := quests[..|quests| - 1];
      BucketMembers(init, t, q);
      assert quests == init + [quests[|quests| - 1]];
    }
  }

  // ---------------------------------------------------------------------------
  // The loops of render()

  /** Pushing a quest extends its own tier's bucket only. */
  lemma TierQuestsSnoc(qs: seq<Quest>, q: Quest, t: int)
    ensures SkillMap.TierQuests(qs + [q], t) == SkillMap.TierQuests(qs, t) + if q.tier == t then [q] else []
  {
    assert (qs + [q])[..|qs|] == qs;
  }

  /** The tiers the quests have. */
  function TierSet(qs: seq<Quest>): set<int> {
    if qs == [] then {} else TierSet(qs[..|qs| - 1]) + {qs[|qs| - 1].tier}
  }

  lemma {:induction false} TierSetMembers(qs: seq<Quest>, t: int)
    ensures t in TierSet(qs) <==> exists i :: 0 <= i < |qs| && qs[i].tier == t
  {
    if qs != [] {
      var init := qs[..|qs| - 1];
      TierSetMembers(init, t);
      assert forall i :: 0 <= i < |init| ==> init[i] == qs[i];
    }
  }

  /** A tier no quest has gets an empty bucket. */
  lemma {:induction false} TierQuestsAbsent(qs: seq<Quest>, t: int)
    requires t !in TierSet(qs)
    ensures SkillMap.TierQuests(qs, t) == []
  {
    if qs != [] {
      TierQuestsAbsent(qs[..|qs| - 1], t);
    }
  }

  /** One pass of the grouping loop: push `q` onto its tier's bucket, creating the bucket first if need be. */
  method AddToBucket(byTier: map<int, seq<Quest>>, done: seq<Quest>, q: Quest) returns (next: map<int, seq<Quest>>)
    requires byTier.Keys == TierSet(done)
    requires forall t :: t in byTier ==> byTier[t] == SkillMap.TierQuests(done, t)
    ensures next.Keys == TierSet(done + [q])
    ensures forall t :: t in next ==> next[t] == SkillMap.TierQuests(done + [q], t)
  {
    assert (done + [q])[..|done|] == done;
    forall t | t in byTier || t == q.tier
      ensures SkillMap.TierQuests(done + [q], t) == SkillMap.TierQuests(done, t) + if q.tier == t then [q] else []
    {
      TierQuestsSnoc(done, q, t);
    }
    next := byTier;
    if q.tier !in next {
      TierQuestsAbsent(done, q.tier);
      next := next[q.tier := []];
    }
    next := next[q.tier := next[q.tier] + [q]];
  }

  /** Every tier the sort lists has a bucket. */
  lemma SortedTiersGrouped(quests: seq<Quest>, t: int)
    requires t in SkillMap.SortedTiers(quests)
    ensures t in TierSet(quests)
  {
    TierSetMembers(quests, t);
  }

  /**
   * The `quests.forEach` loop that fills the `byTier` map: one bucket per
   * tier the quests have (see `TierSetMembers`), holding that tier's quests
   * in their original order.
   */
  method GroupByTier(quests: seq<Quest>) returns (byTier: map<int, seq<Quest>>)
    ensures byTier.Keys == TierSet(quests)
    ensures forall t :: t in byTier ==> byTier[t] == SkillMap.TierQuests(quests, t)
  {
    byTier := map[];
    var i := 0;
    while i < |quests|
      invariant 0 <= i <= |quests|
      invariant byTier.Keys == TierSet(quests[..i])
      invariant forall t :: t in byTier ==> byTier[t] == SkillMap.TierQuests(quests[..i], t)
    {
      assert quests[..i + 1] == quests[..i] + [quests[i]];
      byTier := AddToBucket(byTier, quests[..i], quests[i]);
      i := i + 1;
    }
    assert quests[..i] == quests;
  }

  /** The body of `sortedTiers.forEach`: filter one tier's bucket and emit its section or nothing. */
  method RenderTier(quests: seq<Quest>, tier: int, questsForTier: seq<Quest>, completed: seq<string>, filter: Filter) returns (emitted: seq<Section>)
    requires questsForTier == SkillMap.TierQuests(quests, tier)
    ensures emitted == SectionsOf(quests, if Emitted(questsForTier, completed, filter) then [tier] else [], completed, filter)
  {
    var questsToShow := questsForTier;
    if filter == Active {
      questsToShow := ActiveOf(questsForTier, completed);
    } else if filter == Completed {
      questsToShow := CompletedOf(questsForTier, completed);
    }
    emitted := [];
    if |questsToShow| > 0 || filter == All {
      var forSection := if filter == All then questsForTier else questsToShow;
      emitted := [TierSection(tier, forSection, completed)];
    }
  }

  lemma RenderStep(quests: seq<Quest>, tiers: seq<int>, i: nat, completed: seq<string>, filter: Filter,
                   sections: seq<Section>, emitted: seq<Section>)
    requires i < |tiers|
    requires sections == SectionsOf(quests, EmittedTiers(quests, tiers, i, completed, filter), completed, filter)
    requires emitted == SectionsOf(quests, if Emitted(SkillMap.TierQuests(quests, tiers[i]), completed, filter) then [tiers[i]] else [], completed, filter)
    ensures sections + emitted == SectionsOf(quests, EmittedTiers(quests, tiers, i + 1, completed, filter), completed, filter)
  {
    var e := if Emitted(SkillMap.TierQuests(quests, tiers[i]), completed, filter) then [tiers[i]] else [];
    SectionsOfAppend(quests, EmittedTiers(quests, tiers, i, completed, filter), e, completed, filter);
  }

  /** One pass of the tier loop: render tier `tiers[i]` from its bucket and append what it emits. */
  method RenderNext(quests: seq<Quest>, tiers: seq<int>, i: nat, bucket: seq<Quest>, completed: seq<string>, filter: Filter,
                    sections: seq<Section>) returns (next: seq<Section>)
    requires i < |tiers| && bucket == SkillMap.TierQuests(quests, tiers[i])
    requires sections == SectionsOf(quests, EmittedTiers(quests, tiers, i, completed, filter), completed, filter)
    ensures next == SectionsOf(quests, EmittedTiers(quests, tiers, i + 1, completed, filter), completed, filter)
  {
    var emitted := RenderTier(quests, tiers[i], bucket, completed, filter);
    RenderStep(quests, tiers, i, completed, filter, sections, emitted);
    next := sections + emitted;
  }

  /** The `sortedTiers.forEach` loop over buckets that hold their tiers' quests. */
  method RenderTiers(quests: seq<Quest>, tiers: seq<int>, byTier: map<int, seq<Quest>>, completed: seq<string>, filter: Filter)
    returns (sections: seq<Section>)
    requires forall t :: t in tiers ==> t in byTier && byTier[t] == SkillMap.TierQuests(quests, t)
    ensures sections == SectionsOf(quests, EmittedTiers(quests, tiers, |tiers|, completed, filter), completed, filter)
  {
    sections := [];
    var i := 0;
    while i < |tiers|
      invariant 0 <= i <= |tiers|
      invariant sections == SectionsOf(quests, EmittedTiers(quests, tiers, i, completed, filter), completed, filter)
    {
      var tier := tiers[i];
      assert tier in tiers;
      sections := RenderNext(quests, tiers, i, byTier[tier], completed, filter, sections);
      i := i + 1;
    }
  }

  /** `render()` without the DOM: group, visit the sorted tiers, filter, and emit sections. */
  method RenderSections(quests: seq<Quest>, completed: seq<string>, filter: Filter) returns (sections: seq<Section>)
    ensures sections == Sections(quests, completed, filter)
  {
    var byTier := GroupByTier(quests);
    // The distinct tiers of the grouping, in ascending numeric order.
    var tiers := SkillMap.SortedTiers(quests);
    forall t | t in tiers ensures t in byTier && byTier[t] == SkillMap.TierQuests(quests, t) {
      SortedTiersGrouped(quests, t);
    }
    sections := RenderTiers(quests, tiers, byTier, completed, filter);
  }

  // ---------------------------------------------------------------------------
  // The view instance

  /** The closure state of one `createListView` call. */
  class ListViewState {
    const quests: seq<Quest>
    const store: ProgressStore.Store
    var currentFilter: Filter

    /** `createListView(onNodeClick, quests)`: the filter starts at 'all'. */
    constructor (store: ProgressStore.Store, quests: seq<Quest>)
      ensures this.store == store && this.quests == quests && currentFilter == All
    {
      this.store := store;
      this.quests := quests;
      currentFilter := All;
    }

    /** A filter button's click handler: select that filter (the re-render is `Render`). */
    method ClickFilter(f: Filter)
      modifies this`currentFilter
      ensures currentFilter == f
    {
      currentFilter := f;
    }

    /** `render()` against the store's current completed list. */
    method Render() returns (sections: seq<Section>)
      ensures sections == Sections(quests, store.state.completedQuests, currentFilter)
    {
      sections := RenderSections(quests, store.state.completedQuests, currentFilter);
    }

    /** A node checkbox's change handler: toggle the quest with its points, or none when it has no points. */
    method CheckboxChanged(quest: Quest, checked: bool, now: string)
      modifies store`state, store`saved, store`notified, store.adapter`storage
      ensures store.state == ProgressStore.Toggle(old(store.state), quest.id, checked, quest.points.OrElse(map[]), ProgressStore.DateStamp(now))
      ensures store.adapter.storage == Persistence.Save(old(store.adapter.storage), store.adapter.writable, store.storageKey, store.state)
      ensures store.saved == old(store.saved) + [store.state] && store.notified == old(store.notified) + [store.state]
    {
      store.ToggleQuest(quest.id, checked, quest.points.OrElse(map[]), now);
    }
  }
}
