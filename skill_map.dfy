/**
 * The radial skill map (`src/components/SkillMap.js`): quests placed on
 * concentric rings, one ring per distinct tier in ascending order, with one
 * node radius shared by all nodes, plus the zoom, pan and resize handlers.
 *
 * Coordinates are `real`; `sin` and `cos` are parameters about which nothing
 * is assumed, so the results hold for any trigonometry.
 */
module SkillMap {
  import opened Js
  import opened Quests

  /** `Math.PI` */
  const Pi: real := 3.141592653589793

  const MinZoom := 50
  const MaxZoom := 300
  const ZoomStep := 5
  const InitialZoom := 100
  const MinNodeRadius: real := 6.0

  function Min(a: real, b: real): real { if a <= b then a else b }
  function Max(a: real, b: real): real { if a >= b then a else b }

  // ---------------------------------------------------------------------------
  // Tiers

  predicate StrictlyIncreasing(s: seq<int>) {
    forall i, j :: 0 <= i < j < |s| ==> s[i] < s[j]
  }

  /** A value below every element of a strictly increasing sequence can head it. */
  lemma ConsIncreasing(h: int, s: seq<int>)
    requires StrictlyIncreasing(s)
    requires forall y :: y in s ==> h < y
    ensures StrictlyIncreasing([h] + s)
  {
    var r := [h] + s;
    assert forall j :: 1 <= j < |r| ==> r[j] == s[j - 1] && s[j - 1] in s;
  }

  /** Put `x` into a strictly increasing sequence, once. */
  function InsertTier(x: int, s: seq<int>): (r: seq<int>)
    requires StrictlyIncreasing(s)
    ensures StrictlyIncreasing(r)
    ensures forall y :: y in r <==> y == x || y in s
  {
    if s == [] then [x]
    else
      assert forall k :: 1 <= k < |s| ==> s[0] < s[k];
      assert forall y :: y in s[1..] ==> s[0] < y;
      if x < s[0] then
        ConsIncreasing(x, s);
        [x] + s
      else if x == s[0] then s
      else
        var rest := InsertTier(x, s[1..]);
        ConsIncreasing(s[0], rest);
        [s[0]] + rest
  }

  /**
   * `Array.from(new Set(quests.map(q => q.tier))).sort((a, b) => a - b)`:
   * the distinct tiers in ascending order.
   */
  function SortedTiers(quests: seq<Quest>): (tiers: seq<int>)
    ensures StrictlyIncreasing(tiers)
    ensures forall t :: t in tiers <==> exists i :: 0 <= i < |quests| && quests[i].tier == t
    decreases |quests|
  {
    if quests == [] then []
    else
      var init := quests[..|quests| - 1];
      assert forall i :: 0 <= i < |init| ==> init[i] == quests[i];
      InsertTier(quests[|quests| - 1].tier, SortedTiers(init))
  }

  /** Only one strictly increasing sequence holds a given set of tiers, so the sort's result is determined. */
  lemma {:induction false} AscendingIsUnique(a: seq<int>, b: seq<int>)
    requires StrictlyIncreasing(a) && StrictlyIncreasing(b)
    requires forall t :: t in a <==> t in b
    ensures a == b
    decreases |a|
  {
    assert a != [] ==> a[0] in a && a[0] in b;
    assert b != [] ==> b[0] in b && b[0] in a;
    if a != [] {
      assert a[0] == b[0];
      forall t | t in a[1..] ensures t in b[1..] {
        assert t in b && t != b[0];
      }
      forall t | t in b[1..] ensures t in a[1..] {
        assert t in a && t != a[0];
      }
      AscendingIsUnique(a[1..], b[1..]);
    }
  }

  /** `quests.filter(q => q.tier === tier)` */
  function TierQuests(quests: seq<Quest>, tier: int): (r: seq<Quest>)
    ensures forall q :: q in r ==> q in quests && q.tier == tier
    ensures |r| <= |quests|
    decreases |quests|
  {
    if quests == [] then []
    else TierQuests(quests[..|quests| - 1], tier) + (if quests[|quests| - 1].tier == tier then [quests[|quests| - 1]] else [])
  }

  /** Every tier on the map has at least one quest, so `tierQuests.length || 1` is the length. */
  lemma {:induction false} TierQuestsNonEmpty(quests: seq<Quest>, i: nat)
    requires i < |quests|
    ensures |TierQuests(quests, quests[i].tier)| >= 1
    decreases |quests|
  {
    if i < |quests| - 1 {
      TierQuestsNonEmpty(quests[..|quests| - 1], i);
    }
  }

  // ---------------------------------------------------------------------------
  // Geometry

  /** `a || b || fallback` over sizes, where 0 is falsy. */
  function Dimension(client: real, inner: real, fallback: real): (d: real)
    ensures d == client || d == inner || d == fallback
    ensures client != 0.0 ==> d == client
    ensures client == 0.0 && inner != 0.0 ==> d == inner
    ensures client == 0.0 && inner == 0.0 ==> d == fallback
  {
    if client != 0.0 then client else if inner != 0.0 then inner else fallback
  }

  /** The centre and the sizes derived from the drawing area. */
  datatype Geometry = Geometry(centerX: real, centerY: real, baseRadius: real, ringStep: real, maxNodeRadius: real)

  function GeometryOf(width: real, height: real): (g: Geometry)
    ensures g.centerX == width / 2.0 && g.centerY == height / 2.0
    ensures g.baseRadius == Min(width, height) * 0.18 && g.ringStep == Min(width, height) * 0.16
    ensures g.maxNodeRadius == Min(width, height) * 0.045
  {
    var minDim := Min(width, height);
    Geometry(width / 2.0, height / 2.0, minDim * 0.18, minDim * 0.16, minDim * 0.045)
  }

  function RingRadius(g: Geometry, ringIndex: nat): real {
    g.baseRadius + ringIndex as real * g.ringStep
  }

  /** The angle of slot `k` of `n`: clockwise on screen from the top. */
  function SlotAngle(k: nat, n: nat): real
    requires n > 0
  {
    -Pi / 2.0 + (Pi * 2.0 / n as real) * k as real
  }

  /** A placed node. */
  datatype Node = Node(quest: Quest, x: real, y: real, tier: int)

  /** Quest `k` of a ring of `tq`, at its slot on the circle of the given radius. */
  function SlotNode(tq: seq<Quest>, k: nat, tier: int, radius: real, g: Geometry, sin: real -> real, cos: real -> real): Node
    requires k < |tq|
  {
    var angle := SlotAngle(k, |tq|);
    Node(tq[k], g.centerX + radius * cos(angle), g.centerY + radius * sin(angle), tier)
  }

  /** The nodes of one ring, in the quests' original order. */
  function RingNodes(quests: seq<Quest>, tier: int, ringIndex: nat, g: Geometry, sin: real -> real, cos: real -> real): (ns: seq<Node>)
    ensures |ns| == |TierQuests(quests, tier)|
    ensures forall k :: 0 <= k < |ns| ==>
      ns[k] == SlotNode(TierQuests(quests, tier), k, tier, RingRadius(g, ringIndex), g, sin, cos)
  {
    var tq := TierQuests(quests, tier);
    seq(|tq|, k requires 0 <= k < |tq| => SlotNode(tq, k, tier, RingRadius(g, ringIndex), g, sin, cos))
  }

  /** The nodes of the first `rings` rings. */
  function LayoutUpTo(quests: seq<Quest>, tiers: seq<int>, rings: nat, g: Geometry, sin: real -> real, cos: real -> real): seq<Node>
    requires rings <= |tiers|
  {
    if rings == 0 then []
    else LayoutUpTo(quests, tiers, rings - 1, g, sin, cos) + RingNodes(quests, tiers[rings - 1], rings - 1, g, sin, cos)
  }

  /** The spacing candidate of a ring with `count` nodes: 60% of the chord, halved, clamped. */
  function Candidate(g: Geometry, ringIndex: nat, count: nat, sin: real -> real): (c: real)
    requires count > 0
    ensures c >= MinNodeRadius && (c == MinNodeRadius || c <= g.maxNodeRadius)
  {
    var theta := Pi * 2.0 / count as real;
    var chord := 2.0 * RingRadius(g, ringIndex) * sin(theta / 2.0);
    Max(MinNodeRadius, Min(g.maxNodeRadius, chord * 0.6 / 2.0))
  }

  /** The shared node radius after the first `rings` rings: a running minimum over rings of two or more nodes. */
  function RadiusUpTo(quests: seq<Quest>, tiers: seq<int>, rings: nat, g: Geometry, sin: real -> real): real
    requires rings <= |tiers|
  {
    if rings == 0 then g.maxNodeRadius
    else
      var r := RadiusUpTo(quests, tiers, rings - 1, g, sin);
      var count := |TierQuests(quests, tiers[rings - 1])|;
      if count > 1 then Min(r, Candidate(g, rings - 1, count, sin)) else r
  }

  /** The whole layout for a drawing area of `width` by `height`. */
  function Layout(quests: seq<Quest>, width: real, height: real, sin: real -> real, cos: real -> real): seq<Node> {
    var tiers := SortedTiers(quests);
    LayoutUpTo(quests, tiers, |tiers|, GeometryOf(width, height), sin, cos)
  }

  /** The shared node radius for a drawing area of `width` by `height`. */
  function NodeRadius(quests: seq<Quest>, width: real, height: real, sin: real -> real): real {
    var tiers := SortedTiers(quests);
    RadiusUpTo(quests, tiers, |tiers|, GeometryOf(width, height), sin)
  }

  /** The shared radius never exceeds the maximum and never drops below the minimum the maximum allows. */
  lemma {:induction false} RadiusBounds(quests: seq<Quest>, tiers: seq<int>, rings: nat, g: Geometry, sin: real -> real)
    requires rings <= |tiers|
    ensures Min(MinNodeRadius, g.maxNodeRadius) <= RadiusUpTo(quests, tiers, rings, g, sin) <= g.maxNodeRadius
  {
    if rings > 0 {
      RadiusBounds(quests, tiers, rings - 1, g, sin);
    }
  }

  // ---------------------------------------------------------------------------
  // Every quest is placed exactly once

  function QuestsOf(ns: seq<Node>): (qs: seq<Quest>)
    ensures |qs| == |ns|
    ensures forall i :: 0 <= i < |ns| ==> qs[i] == ns[i].quest
  {
    seq(|ns|, i requires 0 <= i < |ns| => ns[i].quest)
  }

  /** The quests whose tier is in `tiers`, in their original order. */
  function TiersQuests(quests: seq<Quest>, tiers: set<int>): seq<Quest>
    decreases |quests|
  {
    if quests == [] then []
    else TiersQuests(quests[..|quests| - 1], tiers) + (if quests[|quests| - 1].tier in tiers then [quests[|quests| - 1]] else [])
  }

  /** Adding one tier to the selection adds that tier's quests, as a multiset. */
  lemma {:induction false} TiersQuestsAdd(quests: seq<Quest>, tiers: set<int>, t: int)
    requires t !in tiers
    ensures multiset(TiersQuests(quests, tiers + {t})) == multiset(TiersQuests(quests, tiers)) + multiset(TierQuests(quests, t))
    decreases |quests|
  {
    if quests != [] {
      TiersQuestsAdd(quests[..|quests| - 1], tiers, t);
    }
  }

  /** Selecting no tier selects no quest. */
  lemma {:induction false} TiersQuestsNone(quests: seq<Quest>)
    ensures TiersQuests(quests, {}) == []
    decreases |quests|
  {
    if quests != [] {
      TiersQuestsNone(quests[..|quests| - 1]);
    }
  }

  /** Selecting every tier that occurs selects every quest. */
  lemma {:induction false} TiersQuestsAll(quests: seq<Quest>, tiers: set<int>)
    requires forall i :: 0 <= i < |quests| ==> quests[i].tier in tiers
    ensures TiersQuests(quests, tiers) == quests
    decreases |quests|
  {
    if quests != [] {
      TiersQuestsAll(quests[..|quests| - 1], tiers);
    }
  }

  lemma QuestsOfConcat(a: seq<Node>, b: seq<Node>)
    ensures QuestsOf(a + b) == QuestsOf(a) + QuestsOf(b)
  {
  }

  lemma RingQuests(quests: seq<Quest>, tier: int, ringIndex: nat, g: Geometry, sin: real -> real, cos: real -> real)
    ensures QuestsOf(RingNodes(quests, tier, ringIndex, g, sin, cos)) == TierQuests(quests, tier)
  {
  }

  /** The tiers of the first `rings` rings. */
  function FirstTiers(tiers: seq<int>, rings: nat): (s: set<int>)
    requires rings <= |tiers|
    ensures forall t :: t in s <==> t in tiers[..rings]
  {
    set i | 0 <= i < rings :: tiers[i]
  }

  lemma FirstTiersStep(tiers: seq<int>, rings: nat)
    requires 0 < rings <= |tiers| && StrictlyIncreasing(tiers)
    ensures FirstTiers(tiers, rings) == FirstTiers(tiers, rings - 1) + {tiers[rings - 1]}
    ensures tiers[rings - 1] !in FirstTiers(tiers, rings - 1)
  {
    assert tiers[..rings] == tiers[..rings - 1] + [tiers[rings - 1]];
  }

  /** The quests of the first `rings` rings, ring by ring. */
  function TierGroups(quests: seq<Quest>, tiers: seq<int>, rings: nat): seq<Quest>
    requires rings <= |tiers|
  {
    if rings == 0 then [] else TierGroups(quests, tiers, rings - 1) + TierQuests(quests, tiers[rings - 1])
  }

  /** Node order: ring by ring in ascending tier, and within a ring in the quests' original order. */
  lemma {:induction false} LayoutUpToQuests(quests: seq<Quest>, tiers: seq<int>, rings: nat, g: Geometry, sin: real -> real, cos: real -> real)
    requires rings <= |tiers|
    ensures QuestsOf(LayoutUpTo(quests, tiers, rings, g, sin, cos)) == TierGroups(quests, tiers, rings)
  {
    if rings > 0 {
      var before := LayoutUpTo(quests, tiers, rings - 1, g, sin, cos);
      var ring := RingNodes(quests, tiers[rings - 1], rings - 1, g, sin, cos);
      LayoutUpToQuests(quests, tiers, rings - 1, g, sin, cos);
      QuestsOfConcat(before, ring);
      RingQuests(quests, tiers[rings - 1], rings - 1, g, sin, cos);
    }
  }

  /** The ring groups hold, as a multiset, exactly the quests of the first `rings` tiers. */
  lemma {:induction false} TierGroupsSelect(quests: seq<Quest>, tiers: seq<int>, rings: nat)
    requires rings <= |tiers| && StrictlyIncreasing(tiers)
    ensures multiset(TierGroups(quests, tiers, rings)) == multiset(TiersQuests(quests, FirstTiers(tiers, rings)))
  {
    if rings == 0 {
      assert FirstTiers(tiers, 0) == {};
      TiersQuestsNone(quests);
    } else {
      var prev := TierGroups(quests, tiers, rings - 1);
      var ring := TierQuests(quests, tiers[rings - 1]);
      assert TierGroups(quests, tiers, rings) == prev + ring;
      assert multiset(prev + ring) == multiset(prev) + multiset(ring);
      TierGroupsSelect(quests, tiers, rings - 1);
      FirstTiersStep(tiers, rings);
      TiersQuestsAdd(quests, FirstTiers(tiers, rings - 1), tiers[rings - 1]);
    }
  }

  /** Taking every tier's quests, tier by tier in ascending order, takes every quest exactly once. */
  lemma TierGroupsPermutation(quests: seq<Quest>)
    ensures multiset(TierGroups(quests, SortedTiers(quests), |SortedTiers(quests)|)) == multiset(quests)
  {
    var tiers := SortedTiers(quests);
    TierGroupsSelect(quests, tiers, |tiers|);
    var all := FirstTiers(tiers, |tiers|);
    assert tiers[..|tiers|] == tiers;
    forall i | 0 <= i < |quests| ensures quests[i].tier in all {
      assert quests[i].tier in tiers;
    }
    TiersQuestsAll(quests, all);
  }

  /** The node list holds every quest exactly once. */
  lemma LayoutIsPermutation(quests: seq<Quest>, width: real, height: real, sin: real -> real, cos: real -> real)
    ensures multiset(QuestsOf(Layout(quests, width, height, sin, cos))) == multiset(quests)
  {
    var tiers := SortedTiers(quests);
    LayoutUpToQuests(quests, tiers, |tiers|, GeometryOf(width, height), sin, cos);
    TierGroupsPermutation(quests);
  }

  // ---------------------------------------------------------------------------
  // The layout loop

  /** The inner `tierQuests.forEach`: push one node per quest of the ring. */
  method PlaceRing(nodes: seq<Node>, quests: seq<Quest>, tier: int, ringIndex: nat, g: Geometry, sin: real -> real, cos: real -> real)
    returns (placed: seq<Node>)
    ensures placed == nodes + RingNodes(quests, tier, ringIndex, g, sin, cos)
  {
    var radius := RingRadius(g, ringIndex);
    var tierQuests := TierQuests(quests, tier);
    var count := if |tierQuests| == 0 then 1 else |tierQuests|;
    ghost var ring := RingNodes(quests, tier, ringIndex, g, sin, cos);
    placed := nodes;
    var index := 0;
    while index < |tierQuests|
      invariant 0 <= index <= |tierQuests|
      invariant placed == nodes + ring[..index]
      invariant |ring| == |tierQuests|
      invariant forall k :: 0 <= k < |tierQuests| ==> ring[k] == SlotNode(tierQuests, k, tier, radius, g, sin, cos)
    {
      var angle := SlotAngle(index, count);
      var node := Node(tierQuests[index], g.centerX + radius * cos(angle), g.centerY + radius * sin(angle), tier);
      assert count == |tierQuests| && angle == SlotAngle(index, |tierQuests|);
      assert node == SlotNode(tierQuests, index, tier, radius, g, sin, cos);
      placed := placed + [node];
      assert ring[..index + 1] == ring[..index] + [ring[index]];
      index := index + 1;
    }
    assert ring[..index] == ring;
  }

  /** One pass of the tier loop: lower the shared radius for the ring, then place its nodes. */
  method LayoutRing(nodes: seq<Node>, nodeRadius: real, quests: seq<Quest>, tiers: seq<int>, ringIndex: nat, g: Geometry, sin: real -> real, cos: real -> real)
    returns (placed: seq<Node>, radius: real)
    requires ringIndex < |tiers|
    requires nodes == LayoutUpTo(quests, tiers, ringIndex, g, sin, cos)
    requires nodeRadius == RadiusUpTo(quests, tiers, ringIndex, g, sin)
    ensures placed == LayoutUpTo(quests, tiers, ringIndex + 1, g, sin, cos)
    ensures radius == RadiusUpTo(quests, tiers, ringIndex + 1, g, sin)
  {
    var tier := tiers[ringIndex];
    var tierQuests := TierQuests(quests, tier);
    var count := if |tierQuests| == 0 then 1 else |tierQuests|;
    radius := nodeRadius;
    if count > 1 {
      var candidate := Candidate(g, ringIndex, count, sin);
      radius := Min(radius, candidate);
    }
    placed := PlaceRing(nodes, quests, tier, ringIndex, g, sin, cos);
  }

  /**
   * The layout block of `renderSkillMap`: for each tier in ascending order,
   * lower the shared radius to the ring's candidate and push one node per
   * quest of the tier.
   */
  method ComputeLayout(quests: seq<Quest>, width: real, height: real, sin: real -> real, cos: real -> real)
    returns (nodes: seq<Node>, nodeRadius: real)
    ensures nodes == Layout(quests, width, height, sin, cos)
    ensures nodeRadius == NodeRadius(quests, width, height, sin)
    ensures Min(MinNodeRadius, GeometryOf(width, height).maxNodeRadius) <= nodeRadius <= GeometryOf(width, height).maxNodeRadius
  {
    var g := GeometryOf(width, height);
    var tiers := SortedTiers(quests);
    nodeRadius := g.maxNodeRadius;
    nodes := [];
    var ringIndex := 0;
    while ringIndex < |tiers|
      invariant 0 <= ringIndex <= |tiers|
      invariant nodes == LayoutUpTo(quests, tiers, ringIndex, g, sin, cos)
      invariant nodeRadius == RadiusUpTo(quests, tiers, ringIndex, g, sin)
    {
      nodes, nodeRadius := LayoutRing(nodes, nodeRadius, quests, tiers, ringIndex, g, sin, cos);
      ringIndex := ringIndex + 1;
    }
    RadiusBounds(quests, tiers, |tiers|, g, sin);
  }

  // ---------------------------------------------------------------------------
  // Zoom and pan

  /** `Math.max(minZoom, Math.min(maxZoom, z))` */
  function ClampZoom(z: int): (r: int)
    ensures MinZoom <= r <= MaxZoom
    ensures MinZoom <= z <= MaxZoom ==> r == z
    ensures z < MinZoom ==> r == MinZoom
    ensures z > MaxZoom ==> r == MaxZoom
  {
    if z < MinZoom then MinZoom else if z > MaxZoom then MaxZoom else z
  }

  /** `handleWheel`: scrolling down zooms out by one step, anything else zooms in; then clamp. */
  function WheelZoom(zoom: int, deltaY: real): int {
    ClampZoom(zoom + if deltaY > 0.0 then -ZoomStep else ZoomStep)
  }

  /**
   * One wheel event moves the zoom by at most one step, in the wheel's
   * direction, and stays in range; it moves a full step unless a bound is hit.
   */
  lemma WheelZoomStep(zoom: int, deltaY: real)
    requires MinZoom <= zoom <= MaxZoom
    ensures MinZoom <= WheelZoom(zoom, deltaY) <= MaxZoom
    ensures deltaY > 0.0 ==> zoom - ZoomStep <= WheelZoom(zoom, deltaY) <= zoom
    ensures deltaY > 0.0 && zoom - ZoomStep >= MinZoom ==> WheelZoom(zoom, deltaY) == zoom - ZoomStep
    ensures deltaY <= 0.0 ==> zoom <= WheelZoom(zoom, deltaY) <= zoom + ZoomStep
    ensures deltaY <= 0.0 && zoom + ZoomStep <= MaxZoom ==> WheelZoom(zoom, deltaY) == zoom + ZoomStep
  {
  }

  datatype Point = Point(x: real, y: real)

  /** `e.button === 1 || e.button === 2 || (e.button === 0 && spaceKey)` */
  predicate StartsPan(button: int, spaceKey: bool) {
    button == 1 || button == 2 || (button == 0 && spaceKey)
  }

  /** `e.key === ' ' || e.key === 'Space'` */
  predicate IsSpaceKey(key: string) {
    key == " " || key == "Space"
  }

  /** `panStart` recorded when a pan begins at the cursor position `at`. */
  function PanStartFor(pan: Point, at: Point): Point {
    Point(at.x - pan.x, at.y - pan.y)
  }

  /** `currentPan` while dragging with the cursor at `at`. */
  function PanAt(start: Point, at: Point): Point {
    Point(at.x - start.x, at.y - start.y)
  }

  /**
   * Panning is continuous: with the cursor back at the press point the pan
   * is what it was, and elsewhere it is shifted by exactly the cursor's travel.
   */
  lemma PanContinuity(pan: Point, press: Point, at: Point)
    ensures PanAt(PanStartFor(pan, press), press) == pan
    ensures PanAt(PanStartFor(pan, press), at) == Point(pan.x + (at.x - press.x), pan.y + (at.y - press.y))
  {
  }

  /** The SVG element transform: an optional translation and a scale. */
  datatype Transform = Transform(translate: Option<Point>, scale: real)

  // ---------------------------------------------------------------------------
  // Circles and labels

  /** An element the resize handler finds by `data-id`: a circle centre or a label anchor. */
  datatype Mark = Mark(id: string, x: real, y: real)

  function CircleMarks(nodes: seq<Node>): (ms: seq<Mark>)
    ensures |ms| == |nodes|
    ensures forall i :: 0 <= i < |nodes| ==> ms[i] == Mark(nodes[i].quest.id, nodes[i].x, nodes[i].y)
  {
    seq(|nodes|, i requires 0 <= i < |nodes| => Mark(nodes[i].quest.id, nodes[i].x, nodes[i].y))
  }

  /** The emoji labels, `offset` below the node centres. */
  function LabelMarks(nodes: seq<Node>, offset: real): (ms: seq<Mark>)
    ensures |ms| == |nodes|
    ensures forall i :: 0 <= i < |nodes| ==> ms[i] == Mark(nodes[i].quest.id, nodes[i].x, nodes[i].y + offset)
  {
    seq(|nodes|, i requires 0 <= i < |nodes| => Mark(nodes[i].quest.id, nodes[i].x, nodes[i].y + offset))
  }

  /** The vertical label offset used when the map is drawn. */
  function LabelOffset(nodeRadius: real): real {
    nodeRadius * 0.15
  }

  /** `svg.querySelector(...[data-id="id"])`: the first element with the id, or -1. */
  function FirstWithId(ms: seq<Mark>, id: string): (j: int)
    ensures -1 <= j < |ms|
    ensures j >= 0 ==> ms[j].id == id && forall i :: 0 <= i < j ==> ms[i].id != id
    ensures j == -1 ==> forall i :: 0 <= i < |ms| ==> ms[i].id != id
  {
    if ms == [] then -1
    else if ms[0].id == id then 0
    else
      var j := FirstWithId(ms[1..], id);
      if j == -1 then -1 else j + 1
  }

  function Ids(ms: seq<Mark>): (ids: seq<string>)
    ensures |ids| == |ms|
    ensures forall i :: 0 <= i < |ms| ==> ids[i] == ms[i].id
  {
    seq(|ms|, i requires 0 <= i < |ms| => ms[i].id)
  }

  predicate DistinctIds(ids: seq<string>) {
    forall i, j :: 0 <= i < j < |ids| ==> ids[i] != ids[j]
  }

  /**
   * `querySelector` then `setAttribute`: move the first element carrying
   * `id` to (`x`, `y`); nothing happens when no element carries it.
   */
  function MoveFirst(ms: seq<Mark>, id: string, x: real, y: real): (r: seq<Mark>)
    ensures Ids(r) == Ids(ms)
  {
    var j := FirstWithId(ms, id);
    if j >= 0 then ms[j := Mark(id, x, y)] else ms
  }

  /** With distinct ids, moving element `i` by its id extends an agreeing prefix by one. */
  lemma MoveFirstStep(ms: seq<Mark>, target: seq<Mark>, i: nat)
    requires Ids(ms) == Ids(target) && DistinctIds(Ids(ms)) && i < |ms|
    requires ms[..i] == target[..i]
    ensures MoveFirst(ms, target[i].id, target[i].x, target[i].y)[..i + 1] == target[..i + 1]
  {
    assert ms[i].id == target[i].id;
    assert FirstWithId(ms, target[i].id) == i by {
      var j := FirstWithId(ms, target[i].id);
      assert j >= 0 ==> Ids(ms)[j] == Ids(ms)[i];
    }
  }

  /** The node ids do not depend on the size of the drawing area. */
  lemma LayoutIdsFixed(quests: seq<Quest>, w1: real, h1: real, w2: real, h2: real, sin: real -> real, cos: real -> real)
    ensures Ids(CircleMarks(Layout(quests, w1, h1, sin, cos))) == Ids(CircleMarks(Layout(quests, w2, h2, sin, cos)))
  {
    var tiers := SortedTiers(quests);
    LayoutUpToQuests(quests, tiers, |tiers|, GeometryOf(w1, h1), sin, cos);
    LayoutUpToQuests(quests, tiers, |tiers|, GeometryOf(w2, h2), sin, cos);
    var n1 := Layout(quests, w1, h1, sin, cos);
    var n2 := Layout(quests, w2, h2, sin, cos);
    assert |n1| == |QuestsOf(n1)| == |QuestsOf(n2)| == |n2|;
    forall i | 0 <= i < |n1| ensures n1[i].quest.id == n2[i].quest.id {
      assert QuestsOf(n1)[i] == QuestsOf(n2)[i];
    }
  }

  // ---------------------------------------------------------------------------
  // The map instance

  /** The closure state of one `renderSkillMap` call. */
  class MapView {
    const quests: seq<Quest>
    const sin: real -> real
    const cos: real -> real
    /** The node ids in drawing order. */
    const order: seq<string>
    var width: real
    var height: real
    var nodeRadius: real
    var circles: seq<Mark>
    var labels: seq<Mark>
    var zoom: int
    var transform: Option<Transform>
    var isPanning: bool
    var panStart: Point
    var currentPan: Point
    var spaceKey: bool

    /** The zoom is in range and there is one circle and one label per node, in drawing order. */
    ghost predicate Valid()
      reads this
    {
      && MinZoom <= zoom <= MaxZoom
      && order == Ids(CircleMarks(Layout(quests, width, height, sin, cos)))
      && Ids(circles) == order && Ids(labels) == order
    }

    /** Each label sits on its circle's x, a fixed offset below its centre. */
    ghost predicate LabelsOnNodes(offset: real)
      reads this
    {
      |labels| == |circles|
      && forall i :: 0 <= i < |circles| ==> labels[i].x == circles[i].x && labels[i].y == circles[i].y + offset
    }

    /**
     * `renderSkillMap(container, ..., quests)`: size the drawing area (client
     * size, else window size, else 1000 by 800), lay out the nodes, draw a
     * circle and a label per node, and start at 100% zoom with no pan.
     */
    constructor (quests: seq<Quest>, clientWidth: real, innerWidth: real, clientHeight: real, innerHeight: real,
                 sin: real -> real, cos: real -> real)
      ensures Valid()
      ensures this.quests == quests && this.sin == sin && this.cos == cos
      ensures width == Dimension(clientWidth, innerWidth, 1000.0) && height == Dimension(clientHeight, innerHeight, 800.0)
      ensures nodeRadius == NodeRadius(quests, width, height, sin)
      ensures circles == CircleMarks(Layout(quests, width, height, sin, cos))
      ensures labels == LabelMarks(Layout(quests, width, height, sin, cos), LabelOffset(nodeRadius))
      ensures LabelsOnNodes(LabelOffset(nodeRadius))
      ensures zoom == InitialZoom && transform == None
      ensures !isPanning && !spaceKey && currentPan == Point(0.0, 0.0) && panStart == Point(0.0, 0.0)
    {
      var w := Dimension(clientWidth, innerWidth, 1000.0);
      var h := Dimension(clientHeight, innerHeight, 800.0);
      var nodes, radius := ComputeLayout(quests, w, h, sin, cos);
      this.quests := quests;
      this.sin := sin;
      this.cos := cos;
      this.order := Ids(CircleMarks(nodes));
      width := w;
      height := h;
      nodeRadius := radius;
      circles := CircleMarks(nodes);
      labels := LabelMarks(nodes, LabelOffset(radius));
      zoom := InitialZoom;
      transform := None;
      isPanning := false;
      panStart := Point(0.0, 0.0);
      currentPan := Point(0.0, 0.0);
      spaceKey := false;
    }

    /** `getZoom()` */
    method GetZoom() returns (z: int)
      requires Valid()
      ensures z == zoom && MinZoom <= z <= MaxZoom
    {
      z := zoom;
    }

    /** `updateTransform()`: translate by the pan, then scale by the zoom. */
    method UpdateTransform()
      modifies this`transform
      ensures transform == Some(Transform(Some(currentPan), zoom as real / 100.0))
    {
      transform := Some(Transform(Some(currentPan), zoom as real / 100.0));
    }

    /** `handleWheel(e)` */
    method Wheel(deltaY: real)
      requires Valid()
      modifies this`zoom, this`transform
      ensures Valid()
      ensures zoom == WheelZoom(old(zoom), deltaY)
      ensures transform == Some(Transform(Some(currentPan), zoom as real / 100.0))
    {
      var delta := if deltaY > 0.0 then -ZoomStep else ZoomStep;
      zoom := ClampZoom(zoom + delta);
      UpdateTransform();
    }

    /** `setZoom(z)`: clamp, then scale only; the pan translation is dropped from the transform. */
    method SetZoom(z: int)
      requires Valid()
      modifies this`zoom, this`transform
      ensures Valid()
      ensures zoom == ClampZoom(z)
      ensures transform == Some(Transform(None, zoom as real / 100.0))
    {
      zoom := ClampZoom(z);
      transform := Some(Transform(None, zoom as real / 100.0));
    }

    /** `handleMouseDown(e)` */
    method MouseDown(button: int, at: Point)
      modifies this`isPanning, this`panStart
      ensures StartsPan(button, spaceKey) ==> isPanning && panStart == PanStartFor(currentPan, at)
      ensures !StartsPan(button, spaceKey) ==> isPanning == old(isPanning) && panStart == old(panStart)
    {
      if button == 1 || button == 2 || (button == 0 && spaceKey) {
        isPanning := true;
        panStart := Point(at.x - currentPan.x, at.y - currentPan.y);
      }
    }

    /** `handleMouseMove(e)` */
    method MouseMove(at: Point)
      modifies this`currentPan, this`transform
      ensures old(isPanning) ==> currentPan == PanAt(panStart, at) && transform == Some(Transform(Some(currentPan), zoom as real / 100.0))
      ensures !old(isPanning) ==> currentPan == old(currentPan) && transform == old(transform)
    {
      if isPanning {
        currentPan := Point(at.x - panStart.x, at.y - panStart.y);
        UpdateTransform();
      }
    }

    /** `handleMouseUp()` */
    method MouseUp()
      modifies this`isPanning
      ensures !isPanning
    {
      isPanning := false;
    }

    /** `handleKeyDown(e)` */
    method KeyDown(key: string)
      modifies this`spaceKey
      ensures spaceKey == (IsSpaceKey(key) || old(spaceKey))
    {
      if key == " " || key == "Space" {
        spaceKey := true;
      }
    }

    /** `handleKeyUp(e)` */
    method KeyUp(key: string)
      modifies this`spaceKey
      ensures spaceKey == (!IsSpaceKey(key) && old(spaceKey))
    {
      if key == " " || key == "Space" {
        spaceKey := false;
      }
    }

    /**
     * `handleResize()` as written: re-size the drawing area, recompute every
     * position with the ring and slot formulas, and move the first circle and
     * the first label carrying each quest's id; labels go 3 units below the
     * centre. The node radius is not recomputed.
     */
    method Resize(clientWidth: real, innerWidth: real, clientHeight: real, innerHeight: real)
      requires Valid()
      modifies this`width, this`height, this`circles, this`labels
      ensures Valid()
      ensures width == Dimension(clientWidth, innerWidth, 1000.0) && height == Dimension(clientHeight, innerHeight, 800.0)
      ensures DistinctIds(order) ==> circles == CircleMarks(Layout(quests, width, height, sin, cos))
      ensures DistinctIds(order) ==> labels == LabelMarks(Layout(quests, width, height, sin, cos), 3.0)
    {
      ResizeWith(clientWidth, innerWidth, clientHeight, innerHeight, 3.0);
    }

    /** `handleResize()` keeping the label offset the map was drawn with. */
    method ResizeKeepingOffset(clientWidth: real, innerWidth: real, clientHeight: real, innerHeight: real)
      requires Valid() && DistinctIds(order) && LabelsOnNodes(LabelOffset(nodeRadius))
      modifies this`width, this`height, this`circles, this`labels
      ensures Valid() && LabelsOnNodes(LabelOffset(nodeRadius))
      ensures width == Dimension(clientWidth, innerWidth, 1000.0) && height == Dimension(clientHeight, innerHeight, 800.0)
      ensures circles == CircleMarks(Layout(quests, width, height, sin, cos))
      ensures labels == LabelMarks(Layout(quests, width, height, sin, cos), LabelOffset(nodeRadius))
    {
      ResizeWith(clientWidth, innerWidth, clientHeight, innerHeight, LabelOffset(nodeRadius));
    }

    /** The body of `handleResize`, with the label offset as a parameter. */
    method ResizeWith(clientWidth: real, innerWidth: real, clientHeight: real, innerHeight: real, offset: real)
      requires Valid()
      modifies this`width, this`height, this`circles, this`labels
      ensures Valid()
      ensures width == Dimension(clientWidth, innerWidth, 1000.0) && height == Dimension(clientHeight, innerHeight, 800.0)
      ensures DistinctIds(order) ==> circles == CircleMarks(Layout(quests, width, height, sin, cos))
      ensures DistinctIds(order) ==> labels == LabelMarks(Layout(quests, width, height, sin, cos), offset)
    {
      var w := Dimension(clientWidth, innerWidth, 1000.0);
      var h := Dimension(clientHeight, innerHeight, 800.0);
      LayoutIdsFixed(quests, width, height, w, h, sin, cos);
      var nodes, _ := ComputeLayout(quests, w, h, sin, cos);
      circles, labels := MoveMarks(circles, labels, nodes, offset);
      width, height := w, h;
    }
  }

  /**
   * The `nodes.forEach` loop of `handleResize`: for each node in turn move
   * the first circle and the first label with its id. When every id is
   * carried once, in node order, the marks end up exactly on the nodes.
   */
  method MoveMarks(circles: seq<Mark>, labels: seq<Mark>, nodes: seq<Node>, offset: real)
    returns (cs: seq<Mark>, ls: seq<Mark>)
    requires Ids(circles) == Ids(CircleMarks(nodes)) && Ids(labels) == Ids(CircleMarks(nodes))
    ensures Ids(cs) == Ids(circles) && Ids(ls) == Ids(labels)
    ensures DistinctIds(Ids(circles)) ==> cs == CircleMarks(nodes) && ls == LabelMarks(nodes, offset)
  {
    ghost var order := Ids(circles);
    ghost var target := CircleMarks(nodes);
    ghost var targetLabels := LabelMarks(nodes, offset);
    assert Ids(targetLabels) == order;
    cs, ls := circles, labels;
    var i := 0;
    while i < |nodes|
      invariant 0 <= i <= |nodes|
      invariant Ids(cs) == order && Ids(ls) == order
      invariant DistinctIds(order) ==> cs[..i] == target[..i] && ls[..i] == targetLabels[..i]
    {
      var node := nodes[i];
      if DistinctIds(order) {
        MoveFirstStep(cs, target, i);
        MoveFirstStep(ls, targetLabels, i);
      }
      cs := MoveFirst(cs, node.quest.id, node.x, node.y);
      ls := MoveFirst(ls, node.quest.id, node.x, node.y + offset);
      i := i + 1;
    }
    assert cs[..i] == cs && ls[..i] == ls;
    assert target[..i] == target && targetLabels[..i] == targetLabels;
  }

  /**
   * After a resize as written the labels no longer sit where the map put
   * them: a single quest on a 1000 by 1000 area is drawn with its label 6.75
   * below the centre, and a resize moves it to 3 below.
   */
  lemma ResizeLabelOffsetDiffers(q: Quest, sin: real -> real)
    ensures NodeRadius([q], 1000.0, 1000.0, sin) == 45.0
    ensures LabelOffset(NodeRadius([q], 1000.0, 1000.0, sin)) == 6.75 != 3.0
  {
    var g := GeometryOf(1000.0, 1000.0);
    assert g.maxNodeRadius == 45.0;
    assert [q][..0] == [];
    assert SortedTiers([q]) == [q.tier];
    assert TierQuests([q], q.tier) == [q];
    assert RadiusUpTo([q], [q.tier], 1, g, sin) == RadiusUpTo([q], [q.tier], 0, g, sin);
  }
}
