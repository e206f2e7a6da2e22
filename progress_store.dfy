/**
 * The progress store (`src/state/progressStore.js`): the single mutable
 * progress record, its stat vocabulary, restore from an injected or stored
 * snapshot, quest toggling with point accounting, reflections, evidence,
 * clearing, and change notification.
 *
 * The pure functions below say what each operation does to the record;
 * the `Store` class performs the operations step by step and is proved to
 * follow them. The clock enters as the ISO timestamp `now`, of which the
 * store keeps the first ten characters (the date).
 */
module ProgressStore {
  import opened Js
  import opened Persistence
  import opened LoadData

  const DefaultStorageKey := "skill_tree_progress"

  // ---------------------------------------------------------------------------
  // Small helpers

  /** The calendar date (the first ten characters of the ISO timestamp `now`). */
  function DateStamp(now: string): (date: string)
    ensures |date| == if |now| < 10 then |now| else 10
    ensures StartsWith(now, date)
  {
    if |now| <= 10 then now else now[..10]
  }

  /** A stat's value, or 0 when the record lacks it. */
  function Get(m: map<string, int>, k: string): int {
    if k in m then m[k] else 0
  }

  predicate NoDuplicates(s: seq<string>) {
    forall i, j :: 0 <= i < j < |s| ==> s[i] != s[j]
  }

  predicate NonNegative(m: map<string, int>) {
    forall k :: k in m ==> m[k] >= 0
  }

  // ---------------------------------------------------------------------------
  // Sets of quest ids

  /** The ids without repeats: first occurrences, in order. */
  function Dedup(s: seq<string>): (r: seq<string>)
    ensures NoDuplicates(r)
    ensures forall x :: x in r <==> x in s
    decreases |s|
  {
    if s == [] then []
    else
      var d := Dedup(s[..|s| - 1]);
      if s[|s| - 1] in d then d else d + [s[|s| - 1]]
  }

  /** A list without duplicates is its own set. */
  lemma {:induction false} DedupOfDistinct(s: seq<string>)
    requires NoDuplicates(s)
    ensures Dedup(s) == s
    decreases |s|
  {
    if s != [] {
      DedupOfDistinct(s[..|s| - 1]);
    }
  }

  /** The ids without repeats, with `x` removed. */
  function Without(s: seq<string>, x: string): (r: seq<string>)
    ensures forall y :: y in r <==> y in s && y != x
    decreases |s|
  {
    if s == [] then []
    else Without(s[..|s| - 1], x) + (if s[|s| - 1] == x then [] else [s[|s| - 1]])
  }

  /** Removing an id keeps a list free of duplicates. */
  lemma {:induction false} WithoutDistinct(s: seq<string>, x: string)
    requires NoDuplicates(s)
    ensures NoDuplicates(Without(s, x))
    decreases |s|
  {
    if s != [] {
      var init := s[..|s| - 1];
      assert forall i :: 0 <= i < |init| ==> init[i] == s[i];
      WithoutDistinct(init, x);
      assert s[|s| - 1] !in init;
    }
  }

  /** Removing an id that is not there changes nothing. */
  lemma {:induction false} WithoutAbsent(s: seq<string>, x: string)
    requires x !in s
    ensures Without(s, x) == s
    decreases |s|
  {
    if s != [] {
      WithoutAbsent(s[..|s| - 1], x);
    }
  }

  // ---------------------------------------------------------------------------
  // Stats arithmetic

  /** The add-points loop of `toggleQuest`: each stat named by `pts` grows by its points. */
  function AddPoints(stats: map<string, int>, pts: map<string, int>): (r: map<string, int>)
    ensures r.Keys == stats.Keys + pts.Keys
    ensures forall k :: k in pts ==> r[k] == Get(stats, k) + pts[k]
    ensures forall k :: k in stats && k !in pts ==> r[k] == stats[k]
  {
    map k | k in stats.Keys + pts.Keys :: if k in pts then Get(stats, k) + pts[k] else stats[k]
  }

  /** The remove-points loop of `toggleQuest`: each stat named by `pts` shrinks, floored at zero. */
  function DeductPoints(stats: map<string, int>, pts: map<string, int>): (r: map<string, int>)
    ensures r.Keys == stats.Keys + pts.Keys
    ensures forall k :: k in pts ==> r[k] >= 0 && r[k] >= Get(stats, k) - pts[k]
    ensures forall k :: k in pts && Get(stats, k) >= pts[k] ==> r[k] == Get(stats, k) - pts[k]
    ensures forall k :: k in pts && Get(stats, k) < pts[k] ==> r[k] == 0
    ensures forall k :: k in stats && k !in pts ==> r[k] == stats[k]
  {
    map k | k in stats.Keys + pts.Keys ::
      if k in pts then (if Get(stats, k) - pts[k] > 0 then Get(stats, k) - pts[k] else 0) else stats[k]
  }

  /** The sum of the values of `m` over `keys`, taken in any order. */
  ghost function SumOver(m: map<string, int>, keys: set<string>): int
    requires keys <= m.Keys
    decreases keys
  {
    if keys == {} then 0
    else
      var k :| k in keys;
      m[k] + SumOver(m, keys - {k})
  }

  /** The sum of the values of a stats record. */
  ghost function Total(m: map<string, int>): int {
    SumOver(m, m.Keys)
  }

  /** Any key may be summed first. */
  lemma {:induction false} SumOverRemove(m: map<string, int>, keys: set<string>, k: string)
    requires keys <= m.Keys && k in keys
    ensures SumOver(m, keys) == m[k] + SumOver(m, keys - {k})
    decreases keys
  {
    var j :| j in keys && SumOver(m, keys) == m[j] + SumOver(m, keys - {j});
    if j != k {
      SumOverRemove(m, keys - {j}, k);
      SumOverRemove(m, keys - {k}, j);
      assert keys - {j} - {k} == keys - {k} - {j};
    }
  }

  /** The sum over some keys depends only on the values at those keys. */
  lemma {:induction false} SumOverAgree(m1: map<string, int>, m2: map<string, int>, keys: set<string>)
    requires keys <= m1.Keys && keys <= m2.Keys
    requires forall k :: k in keys ==> m1[k] == m2[k]
    ensures SumOver(m1, keys) == SumOver(m2, keys)
    decreases keys
  {
    if keys != {} {
      var k :| k in keys && SumOver(m1, keys) == m1[k] + SumOver(m1, keys - {k});
      SumOverRemove(m2, keys, k);
      SumOverAgree(m1, m2, keys - {k});
    }
  }

  lemma {:induction false} TotalRemove(m: map<string, int>, k: string)
    requires k in m
    ensures Total(m) == m[k] + Total(m - {k})
  {
    SumOverRemove(m, m.Keys, k);
    assert (m - {k}).Keys == m.Keys - {k};
    SumOverAgree(m, m - {k}, m.Keys - {k});
  }

  /** Overwriting one stat changes the total by the difference. */
  lemma {:induction false} TotalUpdate(m: map<string, int>, k: string, v: int)
    ensures Total(m[k := v]) == Total(m) - Get(m, k) + v
  {
    var m' := m[k := v];
    SumOverRemove(m', m'.Keys, k);
    assert m'.Keys - {k} == m.Keys - {k};
    SumOverAgree(m', m, m.Keys - {k});
    if k in m {
      SumOverRemove(m, m.Keys, k);
    } else {
      assert m.Keys - {k} == m.Keys;
    }
  }

  lemma AddPointsStep(stats: map<string, int>, pts: map<string, int>, k: string)
    requires k in pts
    ensures AddPoints(stats, pts) == AddPoints(stats, pts - {k})[k := Get(stats, k) + pts[k]]
  {
    var a := AddPoints(stats, pts);
    var b := AddPoints(stats, pts - {k})[k := Get(stats, k) + pts[k]];
    assert a.Keys == b.Keys;
    forall j | j in a ensures a[j] == b[j] {}
  }

  lemma DeductPointsStep(stats: map<string, int>, pts: map<string, int>, k: string)
    requires k in pts
    ensures DeductPoints(stats, pts)
      == DeductPoints(stats, pts - {k})[k := if Get(stats, k) - pts[k] > 0 then Get(stats, k) - pts[k] else 0]
  {
    var a := DeductPoints(stats, pts);
    var b := DeductPoints(stats, pts - {k})[k := if Get(stats, k) - pts[k] > 0 then Get(stats, k) - pts[k] else 0];
    assert a.Keys == b.Keys;
    forall j | j in a ensures a[j] == b[j] {}
  }

  /** Completing a quest raises the total points by exactly the quest's points. */
  lemma {:induction false} AddPointsTotal(stats: map<string, int>, pts: map<string, int>)
    ensures Total(AddPoints(stats, pts)) == Total(stats) + Total(pts)
    decreases pts.Keys
  {
    if pts.Keys == {} {
      assert AddPoints(stats, pts) == stats;
    } else {
      var k :| k in pts.Keys;
      var rest := pts - {k};
      assert rest.Keys == pts.Keys - {k};
      AddPointsStep(stats, pts, k);
      AddPointsTotal(stats, rest);
      var before := AddPoints(stats, rest);
      TotalUpdate(before, k, Get(stats, k) + pts[k]);
      assert Get(before, k) == Get(stats, k);
      TotalRemove(pts, k);
    }
  }

  /**
   * Un-completing a quest lowers the total by exactly the quest's points when
   * no stat would go below zero.
   */
  lemma {:induction false} DeductPointsTotal(stats: map<string, int>, pts: map<string, int>)
    requires forall k :: k in pts ==> Get(stats, k) >= pts[k]
    ensures Total(DeductPoints(stats, pts)) == Total(stats) - Total(pts)
    decreases pts.Keys
  {
    if pts.Keys == {} {
      assert DeductPoints(stats, pts) == stats;
    } else {
      var k :| k in pts.Keys;
      var rest := pts - {k};
      assert rest.Keys == pts.Keys - {k};
      DeductPointsStep(stats, pts, k);
      DeductPointsTotal(stats, rest);
      var before := DeductPoints(stats, rest);
      TotalUpdate(before, k, Get(stats, k) - pts[k]);
      assert Get(before, k) == Get(stats, k);
      TotalRemove(pts, k);
    }
  }

  // ---------------------------------------------------------------------------
  // The operations on the progress record

  /** The record `initializeStore` installs. */
  function Initial(defaults: map<string, int>): Progress {
    Progress([], None, map[], map[], defaults)
  }

  /**
   * `toggleQuest(id, done, pts)` on the record: completing a quest that is not
   * completed adds it and its points; un-completing a completed quest removes
   * it and deducts its points (never below zero); any other call leaves the
   * record as it is.
   */
  function Toggle(p: Progress, id: string, done: bool, pts: map<string, int>, date: string): (r: Progress)
    ensures r.reflections == p.reflections && r.evidence == p.evidence
    ensures (id in p.completedQuests) == done ==> r == p
    ensures (id in p.completedQuests) != done ==>
      && (id in r.completedQuests) == done
      && NoDuplicates(r.completedQuests)
      && (forall x :: x != id ==> (x in r.completedQuests <==> x in p.completedQuests))
      && r.lastUpdated == Some(date)
    ensures done && id !in p.completedQuests ==>
      r.completedQuests == Dedup(p.completedQuests) + [id] && r.stats == AddPoints(p.stats, pts)
    ensures !done && id in p.completedQuests ==>
      r.completedQuests == Without(Dedup(p.completedQuests), id) && r.stats == DeductPoints(p.stats, pts)
  {
    var exists_ := id in p.completedQuests;
    if done && !exists_ then
      p.(completedQuests := Dedup(p.completedQuests) + [id], stats := AddPoints(p.stats, pts), lastUpdated := Some(date))
    else if !done && exists_ then
      WithoutDistinct(Dedup(p.completedQuests), id);
      p.(completedQuests := Without(Dedup(p.completedQuests), id), stats := DeductPoints(p.stats, pts), lastUpdated := Some(date))
    else p
  }

  /** A second identical toggle changes nothing. */
  lemma ToggleIdempotent(p: Progress, id: string, done: bool, pts: map<string, int>, d1: string, d2: string)
    ensures Toggle(Toggle(p, id, done, pts, d1), id, done, pts, d2) == Toggle(p, id, done, pts, d1)
  {
  }

  /**
   * Point accounting across a toggle: completing adds the quest's points to the
   * total, and un-completing keeps every stat non-negative (given non-negative
   * stats and points) and never raises the total.
   */
  lemma ToggleAccounting(p: Progress, id: string, pts: map<string, int>, date: string)
    ensures id !in p.completedQuests ==>
      Total(Toggle(p, id, true, pts, date).stats) == Total(p.stats) + Total(pts)
    ensures NonNegative(p.stats) && NonNegative(pts) ==>
      NonNegative(Toggle(p, id, true, pts, date).stats) && NonNegative(Toggle(p, id, false, pts, date).stats)
    ensures id in p.completedQuests && (forall k :: k in pts ==> Get(p.stats, k) >= pts[k]) ==>
      Total(Toggle(p, id, false, pts, date).stats) == Total(p.stats) - Total(pts)
  {
    if id !in p.completedQuests {
      AddPointsTotal(p.stats, pts);
    } else if forall k :: k in pts ==> Get(p.stats, k) >= pts[k] {
      DeductPointsTotal(p.stats, pts);
    }
  }

  /**
   * Completing and then un-completing a quest with non-negative points gives
   * back the completed list and, stat by stat, every stat that was not
   * negative; a negative stat the quest names comes back as zero, a stat it
   * does not name is untouched, and a stat it names that the record lacked
   * now reads zero.
   */
  lemma {:induction false} CompleteThenUncomplete(p: Progress, id: string, pts: map<string, int>, d1: string, d2: string)
    requires NoDuplicates(p.completedQuests) && id !in p.completedQuests
    requires NonNegative(pts)
    ensures var q := Toggle(Toggle(p, id, true, pts, d1), id, false, pts, d2);
      && q.completedQuests == p.completedQuests
      && q.reflections == p.reflections && q.evidence == p.evidence
      && q.stats.Keys == p.stats.Keys + pts.Keys
      && (forall k :: k in q.stats && Get(p.stats, k) >= 0 ==> q.stats[k] == Get(p.stats, k))
      && (forall k :: k in pts && Get(p.stats, k) < 0 ==> q.stats[k] == 0)
      && (forall k :: k in p.stats && k !in pts ==> q.stats[k] == p.stats[k])
      && q.lastUpdated == Some(d2)
  {
    var mid := Toggle(p, id, true, pts, d1);
    DedupOfDistinct(p.completedQuests);
    assert mid.completedQuests == p.completedQuests + [id];
    DedupOfDistinct(mid.completedQuests);
    assert (p.completedQuests + [id])[..|p.completedQuests|] == p.completedQuests;
    WithoutAbsent(p.completedQuests, id);
  }

  /** The default evidence `getEvidence` reports for a quest with none recorded. */
  const NoEvidence := Evidence(Some(""), Some("unsubmitted"), map[])

  /** `getEvidence(id)` on the record: the recorded object, or the default. */
  function EvidenceOf(p: Progress, id: string): (e: Evidence)
    ensures id in p.evidence ==> e == p.evidence[id]
    ensures id !in p.evidence ==> e.note == Some("") && e.status == Some("unsubmitted") && e.extra == map[]
  {
    if id in p.evidence then p.evidence[id] else NoEvidence
  }

  /** One field of an object spread: the later object's field when it carries one. */
  function Over(earlier: Option<string>, later: Option<string>): Option<string> {
    if later.Some? then later else earlier
  }

  /**
   * `{ ...existing, ...partial }`: every field `partial` carries wins, every
   * other field of `existing` is kept, and a field neither carries stays absent.
   */
  function Merge(e: Evidence, partial: Evidence): (r: Evidence)
    ensures partial.note.Some? ==> r.note == partial.note
    ensures partial.note.None? ==> r.note == e.note
    ensures partial.status.Some? ==> r.status == partial.status
    ensures partial.status.None? ==> r.status == e.status
    ensures forall k :: k in r.extra <==> k in e.extra || k in partial.extra
    ensures forall k :: k in partial.extra ==> r.extra[k] == partial.extra[k]
    ensures forall k :: k in e.extra && k !in partial.extra ==> r.extra[k] == e.extra[k]
  {
    Evidence(Over(e.note, partial.note), Over(e.status, partial.status), e.extra + partial.extra)
  }

  /** Spreading two patches in turn is spreading their own spread once. */
  lemma MergeAssoc(e: Evidence, a: Evidence, b: Evidence)
    ensures Merge(Merge(e, a), b) == Merge(e, Merge(a, b))
  {
    assert (e.extra + a.extra) + b.extra == e.extra + (a.extra + b.extra);
  }

  /** `setEvidence(id, partial)` on the record. */
  function WithEvidence(p: Progress, id: string, partial: Evidence, date: string): (r: Progress)
    ensures r.completedQuests == p.completedQuests && r.reflections == p.reflections && r.stats == p.stats
    ensures r.lastUpdated == Some(date)
  {
    p.(evidence := p.evidence[id := Merge(EvidenceOf(p, id), partial)], lastUpdated := Some(date))
  }

  /**
   * `getEvidence` after `setEvidence`: the patched quest reads as the old
   * evidence (or the default) overlaid with the patch, every other quest reads
   * as before, and two patches in a row act as one patch whose later fields win.
   */
  lemma EvidenceSetThenGet(p: Progress, id: string, other: string, partial: Evidence, later: Evidence, d1: string, d2: string)
    requires other != id
    ensures EvidenceOf(WithEvidence(p, id, partial, d1), id) == Merge(EvidenceOf(p, id), partial)
    ensures EvidenceOf(WithEvidence(p, id, partial, d1), other) == EvidenceOf(p, other)
    ensures WithEvidence(WithEvidence(p, id, partial, d1), id, later, d2) == WithEvidence(p, id, Merge(partial, later), d2)
  {
    MergeAssoc(EvidenceOf(p, id), partial, later);
  }

  /** `setReflection(id, text)` on the record. */
  function WithReflection(p: Progress, id: string, text: string, date: string): (r: Progress)
    ensures r.completedQuests == p.completedQuests && r.evidence == p.evidence && r.stats == p.stats
    ensures r.lastUpdated == Some(date)
  {
    p.(reflections := p.reflections[id := text], lastUpdated := Some(date))
  }

  /** The last reflection written for a quest is the one kept; other quests keep theirs. */
  lemma ReflectionLastWriteWins(p: Progress, id: string, other: string, a: string, b: string, d1: string, d2: string)
    requires other != id
    ensures WithReflection(WithReflection(p, id, a, d1), id, b, d2) == WithReflection(p, id, b, d2)
    ensures WithReflection(p, id, a, d1).reflections[id] == a
    ensures other in p.reflections ==> WithReflection(p, id, a, d1).reflections[other] == p.reflections[other]
    ensures other !in p.reflections ==> other !in WithReflection(p, id, a, d1).reflections
  {
  }

  /** `clearProgress()` on the record: everything back to defaults, but dated. */
  function Cleared(defaults: map<string, int>, date: string): (r: Progress)
    ensures r.completedQuests == [] && r.reflections == map[] && r.evidence == map[]
    ensures r.stats == defaults && r.lastUpdated == Some(date)
  {
    Progress([], Some(date), map[], map[], defaults)
  }

  // ---------------------------------------------------------------------------
  // Restoring a snapshot

  /** `loadProgress` accepts a snapshot exactly when its `completedQuests` is an array. */
  predicate Acceptable(s: Snapshot) {
    s.completedQuests.Some?
  }

  /** The record built from an accepted snapshot: missing parts fall back to empty or to the defaults. */
  function Restore(s: Snapshot, defaults: map<string, int>): (r: Progress)
    requires Acceptable(s)
    ensures r.completedQuests == s.completedQuests.value
    ensures r.lastUpdated.Some? <==> s.lastUpdated.Some? && s.lastUpdated.value != ""
    ensures r.lastUpdated.Some? ==> r.lastUpdated == s.lastUpdated
    ensures r.reflections == s.reflections.OrElse(map[]) && r.evidence == s.evidence.OrElse(map[])
    ensures r.stats == s.stats.OrElse(defaults)
  {
    Progress(
      s.completedQuests.value,
      if s.lastUpdated == Some("") then None else s.lastUpdated,
      s.reflections.OrElse(map[]),
      s.evidence.OrElse(map[]),
      s.stats.OrElse(defaults))
  }

  /**
   * Save/restore round trip: restoring what `save` wrote gives the record
   * back, except that an empty `lastUpdated` comes back as null.
   */
  lemma RestoreEncode(p: Progress, defaults: map<string, int>)
    ensures Restore(Encode(p), defaults) == (if p.lastUpdated == Some("") then p.(lastUpdated := None) else p)
  {
  }

  /** The snapshot `loadProgress` examines: the injected one, else what storage holds. */
  function Candidate(injected: Option<Snapshot>, storage: Storage, key: string): (c: Option<Snapshot>)
    ensures injected.Some? ==> c == injected
    ensures injected.None? ==> c == Load(storage, key)
  {
    if injected.Some? then injected else Load(storage, key)
  }

  /** `loadProgress()` on the record: accept the candidate, or keep the record and reset its stats. */
  function AfterLoad(p: Progress, defaults: map<string, int>, c: Option<Snapshot>): (r: Progress)
    ensures c.Some? && Acceptable(c.value) ==> r == Restore(c.value, defaults)
    ensures !(c.Some? && Acceptable(c.value)) ==>
      r.stats == defaults && r.completedQuests == p.completedQuests && r.reflections == p.reflections
      && r.evidence == p.evidence && r.lastUpdated == p.lastUpdated
  {
    if c.Some? && Acceptable(c.value) then Restore(c.value, defaults) else p.(stats := defaults)
  }

  // ---------------------------------------------------------------------------
  // STAT_TYPES

  /** `STAT_TYPES`: upper-cased key to key, a later key winning when two upper-case alike. */
  function KeyTable(types: seq<StatType>): map<string, string>
    decreases |types|
  {
    if types == [] then map[]
    else KeyTable(types[..|types| - 1])[ToUpper(types[|types| - 1].key) := types[|types| - 1].key]
  }

  /** The position of the last key that upper-cases to `u`, or -1 when there is none. */
  function LastMatch(types: seq<StatType>, u: string): (j: int)
    ensures -1 <= j < |types|
    ensures j >= 0 ==> ToUpper(types[j].key) == u
    ensures forall i :: j < i < |types| ==> ToUpper(types[i].key) != u
    decreases |types|
  {
    if types == [] then -1
    else if ToUpper(types[|types| - 1].key) == u then |types| - 1
    else LastMatch(types[..|types| - 1], u)
  }

  /**
   * `STAT_TYPES` has an entry exactly for the upper-cased keys, and the entry
   * is the last key that upper-cases to it.
   */
  lemma {:induction false} KeyTableEntries(types: seq<StatType>, u: string)
    ensures u in KeyTable(types) <==> LastMatch(types, u) >= 0
    ensures u in KeyTable(types) ==> KeyTable(types)[u] == types[LastMatch(types, u)].key
    decreases |types|
  {
    if types != [] && ToUpper(types[|types| - 1].key) != u {
      var init := types[..|types| - 1];
      KeyTableEntries(init, u);
      if LastMatch(init, u) >= 0 {
        assert init[LastMatch(init, u)] == types[LastMatch(init, u)];
      }
    }
  }

  /** The `Object.keys(statTypes).forEach` loop of `initializeStore`. */
  method BuildKeyTable(types: seq<StatType>) returns (table: map<string, string>)
    ensures table == KeyTable(types)
  {
    table := map[];
    var i := 0;
    while i < |types|
      invariant 0 <= i <= |types|
      invariant table == KeyTable(types[..i])
    {
      assert types[..i + 1][..i] == types[..i];
      table := table[ToUpper(types[i].key) := types[i].key];
      i := i + 1;
    }
    assert types[..i] == types;
  }

  // ---------------------------------------------------------------------------
  // The loops of toggleQuest and getTotalPoints

  /** The `Object.keys(questPoints).forEach` loop that adds points, in any key order. */
  method AccumulatePoints(stats: map<string, int>, pts: map<string, int>) returns (next: map<string, int>)
    ensures next == AddPoints(stats, pts)
  {
    next := stats;
    var todo := pts.Keys;
    while todo != {}
      invariant todo <= pts.Keys
      invariant next.Keys == stats.Keys + (pts.Keys - todo)
      invariant forall k :: k in next ==> next[k] == if k in pts && k !in todo then Get(stats, k) + pts[k] else stats[k]
      decreases todo
    {
      var k :| k in todo;
      next := next[k := Get(next, k) + pts[k]];
      todo := todo - {k};
    }
  }

  /** The `Object.keys(questPoints).forEach` loop that removes points, floored at zero. */
  method DeductPointsLoop(stats: map<string, int>, pts: map<string, int>) returns (next: map<string, int>)
    ensures next == DeductPoints(stats, pts)
  {
    next := stats;
    var todo := pts.Keys;
    while todo != {}
      invariant todo <= pts.Keys
      invariant next.Keys == stats.Keys + (pts.Keys - todo)
      invariant forall k :: k in next ==>
        next[k] == if k in pts && k !in todo then (if Get(stats, k) - pts[k] > 0 then Get(stats, k) - pts[k] else 0) else stats[k]
      decreases todo
    {
      var k :| k in todo;
      var v := Get(next, k) - pts[k];
      next := next[k := if v > 0 then v else 0];
      todo := todo - {k};
    }
  }

  /** The sum of all stat values. */
  method SumStats(stats: map<string, int>) returns (sum: int)
    ensures sum == Total(stats)
  {
    sum := 0;
    var todo := stats.Keys;
    while todo != {}
      invariant todo <= stats.Keys
      invariant sum + SumOver(stats, todo) == Total(stats)
      decreases todo
    {
      var k :| k in todo;
      SumOverRemove(stats, todo, k);
      sum := sum + stats[k];
      todo := todo - {k};
    }
  }

  // ---------------------------------------------------------------------------
  // The store

  /** A subscribed listener, by identity. */
  type Listener = nat

  /** The module state of `progressStore.js`, over the persistence adapter it calls. */
  class Store {
    var storageKey: string
    var statTypes: map<string, string>
    var statTypeNames: seq<StatType>
    var defaultStats: map<string, int>
    var state: Progress
    var listeners: set<Listener>
    const adapter: Adapter
    /** Every record handed to `save()`, oldest first. */
    var saved: seq<Progress>
    /** Every record the listeners were called with, oldest first. */
    var notified: seq<Progress>

    /** Module evaluation: the built-in key, empty tables and an empty record. */
    constructor (adapter: Adapter)
      ensures this.adapter == adapter && storageKey == DefaultStorageKey
      ensures statTypes == map[] && statTypeNames == [] && defaultStats == map[]
      ensures state == Initial(map[]) && listeners == {} && saved == [] && notified == []
    {
      this.adapter := adapter;
      storageKey := DefaultStorageKey;
      statTypes := map[];
      statTypeNames := [];
      defaultStats := map[];
      state := Initial(map[]);
      listeners := {};
      saved := [];
      notified := [];
    }

    /** `initializeStore(config)`: install the key, the persistence mode, the vocabulary and a fresh record. */
    method Initialize(config: Config)
      modifies this, adapter`mode
      ensures storageKey == if config.storageKey.Some? && config.storageKey.value != "" then config.storageKey.value else DefaultStorageKey
      ensures adapter.mode == ModeFor(config.persistenceMode)
      ensures statTypes == KeyTable(config.statTypes.OrElse([]))
      ensures statTypeNames == config.statTypes.OrElse([])
      ensures defaultStats == config.defaultStats.OrElse(map[])
      ensures state == Initial(defaultStats)
      ensures listeners == old(listeners) && saved == old(saved) && notified == old(notified)
    {
      storageKey := if config.storageKey.Some? && config.storageKey.value != "" then config.storageKey.value else DefaultStorageKey;
      adapter.Configure(config.persistenceMode);
      var types := config.statTypes.OrElse([]);
      statTypes := BuildKeyTable(types);
      statTypeNames := types;
      defaultStats := config.defaultStats.OrElse(map[]);
      state := Initial(defaultStats);
    }

    /** `getStatTypeNames()` */
    method GetStatTypeNames() returns (names: seq<StatType>)
      ensures names == statTypeNames
    {
      names := statTypeNames;
    }

    /** `getStatTypes()` */
    method GetStatTypes() returns (table: map<string, string>)
      ensures table == statTypes
    {
      table := statTypes;
    }

    /** `getState()` */
    method GetState() returns (p: Progress)
      ensures p == state
    {
      p := state;
    }

    /** `getStats()` */
    method GetStats() returns (stats: map<string, int>)
      ensures stats == state.stats
    {
      stats := state.stats;
    }

    /** `getTotalPoints()` */
    method GetTotalPoints() returns (total: int)
      ensures total == Total(state.stats)
    {
      total := SumStats(state.stats);
    }

    /** `isQuestCompleted(id)` */
    predicate IsQuestCompleted(id: string)
      reads this
    {
      id in state.completedQuests
    }

    /** `getEvidence(id)` */
    function GetEvidence(id: string): Evidence
      reads this
    {
      EvidenceOf(state, id)
    }

    /** `notify()`: every listener is called with the current record. */
    method Notify()
      modifies this`notified
      ensures notified == old(notified) + [state]
    {
      notified := notified + [state];
    }

    /** `save()`: hand the record to the adapter under the storage key. */
    method Save()
      modifies this`saved, adapter`storage
      ensures adapter.storage == Persistence.Save(old(adapter.storage), adapter.writable, storageKey, state)
      ensures saved == old(saved) + [state]
    {
      adapter.SaveSnapshot(storageKey, state);
      saved := saved + [state];
    }

    /**
     * `loadProgress(injected)`, where `injected` is
     * `window.__skillTreeInitialSnapshot` (`None` when it is falsy). An
     * accepted snapshot replaces the record and the listeners are told; a
     * missing, unreadable or malformed one only resets the stats.
     */
    method LoadProgress(injected: Option<Snapshot>) returns (p: Progress)
      modifies this`state, this`notified
      ensures var c := Candidate(injected, adapter.storage, storageKey);
        && state == AfterLoad(old(state), defaultStats, c)
        && notified == (if c.Some? && Acceptable(c.value) then old(notified) + [state] else old(notified))
      ensures p == state
    {
      var parsed := injected;
      if parsed.None? {
        if storageKey !in adapter.storage || adapter.storage[storageKey].Blank? {
          state := state.(stats := defaultStats);
          return state;
        }
        if adapter.storage[storageKey].Unreadable? {
          // JSON.parse throws, or yields null whose field read throws: the catch block
          state := state.(stats := defaultStats);
          return state;
        }
        parsed := Some(adapter.storage[storageKey].snapshot);
      }
      var snapshot := parsed.value;
      if snapshot.completedQuests.None? {
        state := state.(stats := defaultStats);
        return state;
      }
      state := Progress(
        snapshot.completedQuests.value,
        if snapshot.lastUpdated == Some("") then None else snapshot.lastUpdated,
        snapshot.reflections.OrElse(map[]),
        snapshot.evidence.OrElse(map[]),
        snapshot.stats.OrElse(defaultStats));
      Notify();
      p := state;
    }

    /** `toggleQuest(id, done, questPoints)`: update the record, then save and notify even when nothing changed. */
    method ToggleQuest(id: string, done: bool, questPoints: map<string, int>, now: string)
      modifies this`state, this`saved, this`notified, adapter`storage
      ensures state == Toggle(old(state), id, done, questPoints, DateStamp(now))
      ensures adapter.storage == Persistence.Save(old(adapter.storage), adapter.writable, storageKey, state)
      ensures saved == old(saved) + [state] && notified == old(notified) + [state]
    {
      var exists_ := id in state.completedQuests;
      var nextCompleted := Dedup(state.completedQuests);
      if done && !exists_ {
        nextCompleted := nextCompleted + [id];
        var nextStats := AccumulatePoints(state.stats, questPoints);
        state := state.(completedQuests := nextCompleted, stats := nextStats, lastUpdated := Some(DateStamp(now)));
      } else if !done && exists_ {
        nextCompleted := Without(nextCompleted, id);
        var nextStats := DeductPointsLoop(state.stats, questPoints);
        state := state.(completedQuests := nextCompleted, stats := nextStats, lastUpdated := Some(DateStamp(now)));
      }
      Save();
      Notify();
    }

    /** `setReflection(id, text)` */
    method SetReflection(id: string, text: string, now: string)
      modifies this`state, this`saved, this`notified, adapter`storage
      ensures state == WithReflection(old(state), id, text, DateStamp(now))
      ensures adapter.storage == Persistence.Save(old(adapter.storage), adapter.writable, storageKey, state)
      ensures saved == old(saved) + [state] && notified == old(notified) + [state]
    {
      state := state.(reflections := state.reflections[id := text], lastUpdated := Some(DateStamp(now)));
      Save();
      Notify();
    }

    /** `setEvidence(id, partial)` */
    method SetEvidence(id: string, partial: Evidence, now: string)
      modifies this`state, this`saved, this`notified, adapter`storage
      ensures state == WithEvidence(old(state), id, partial, DateStamp(now))
      ensures adapter.storage == Persistence.Save(old(adapter.storage), adapter.writable, storageKey, state)
      ensures saved == old(saved) + [state] && notified == old(notified) + [state]
    {
      var existing := if id in state.evidence then state.evidence[id] else NoEvidence;
      var merged := Evidence(if partial.note.Some? then partial.note else existing.note,
                             if partial.status.Some? then partial.status else existing.status,
                             existing.extra + partial.extra);
      state := state.(evidence := state.evidence[id := merged], lastUpdated := Some(DateStamp(now)));
      Save();
      Notify();
    }

    /** `clearProgress()` */
    method ClearProgress(now: string)
      modifies this`state, this`saved, this`notified, adapter`storage
      ensures state == Cleared(defaultStats, DateStamp(now))
      ensures adapter.storage == Persistence.Save(old(adapter.storage), adapter.writable, storageKey, state)
      ensures saved == old(saved) + [state] && notified == old(notified) + [state]
    {
      state := Progress([], Some(DateStamp(now)), map[], map[], defaultStats);
      Save();
      Notify();
    }

    /** `subscribe(listener)` */
    method Subscribe(listener: Listener)
      modifies this`listeners
      ensures listeners == old(listeners) + {listener}
    {
      listeners := listeners + {listener};
    }

    /** The function `subscribe` returns: remove the listener again. */
    method Unsubscribe(listener: Listener)
      modifies this`listeners
      ensures listeners == old(listeners) - {listener}
    {
      listeners := listeners - {listener};
    }
  }

  /** A configuration that names only the stats and their defaults. */
  const ScenarioConfig := Config(None, None, Some(map["goodness" := 0, "kindness" := 0]), None, None, None)

  /**
   * Completing a quest, then starting a fresh store over the same storage and
   * loading: the quest is still completed and its stat is credited.
   */
  method ReloadAfterToggle() returns (completed: bool, goodness: int)
    ensures completed && goodness == 1
  {
    var storage := new Adapter(map[], true);
    var first := new Store(storage);
    first.Initialize(ScenarioConfig);
    assert first.storageKey == DefaultStorageKey;
    var loaded := first.LoadProgress(None);
    assert loaded == Initial(map["goodness" := 0, "kindness" := 0]);
    first.ToggleQuest("smile_stranger", true, map["goodness" := 1, "kindness" := 1], "2024-05-01T09:30:00.000Z");
    assert first.state.completedQuests == ["smile_stranger"];
    assert first.state.stats["goodness"] == 1;
    var second := new Store(storage);
    second.Initialize(ScenarioConfig);
    var restored := second.LoadProgress(None);
    assert restored == first.state;
    completed := second.IsQuestCompleted("smile_stranger");
    goodness := restored.stats["goodness"];
  }

  /** A stored text that does not parse leaves a fresh store at the default stats, with no notification. */
  method LoadCorruptStorage() returns (p: Progress, notifications: nat)
    ensures p == Initial(map["goodness" := 0, "kindness" := 0]) && notifications == 0
  {
    var storage := new Adapter(map[DefaultStorageKey := Unreadable], true);
    var store := new Store(storage);
    store.Initialize(ScenarioConfig);
    p := store.LoadProgress(None);
    notifications := |store.notified|;
  }
}
