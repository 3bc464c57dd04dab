/**
 * The bookkeeping of js/systems/BatchRenderer.js: the culling rectangle and
 * its visibility check, level-of-detail classification, the render queues that
 * only take visible items, the grouping of queued items by style key, and the
 * per-grade settings table. The PIXI drawing itself is not modelled; the
 * screen size and the distances that `Math.hypot` computes are parameters.
 */
module Batching {
  import opened Wrappers
  import Performance

  /** `cullingBounds`. */
  datatype Bounds = Bounds(left: real, right: real, top: real, bottom: real)

  /** What `getLOD` returns: 'high', 'medium', 'low' or 'skip'. */
  datatype Lod = High | Medium | Low | Skip

  /** `lodDistances`. */
  datatype LodDistances = LodDistances(high: real, medium: real, low: real)

  datatype Outline = Outline(thickness: real, color: int, alpha: real)

  /** The entries of the `circles`, `lines` and `polygons` queues. */
  datatype CircleItem = CircleItem(x: real, y: real, radius: real, color: int, alpha: real, outline: Option<Outline>)
  datatype LineItem = LineItem(x1: real, y1: real, x2: real, y2: real, thickness: real, color: int, alpha: real)
  datatype PolygonItem = PolygonItem(points: seq<real>, color: int, alpha: real, outline: Option<Outline>)

  /** The style keys the batches are grouped by: `${color}_${alpha}` for circles and polygons, `${thickness}_${color}_${alpha}` for lines. */
  datatype FillStyle = FillStyle(color: int, alpha: real)
  datatype LineStyle = LineStyle(thickness: real, color: int, alpha: real)

  /** The batch keys: `${color}_${alpha}` for circles and polygons, `${thickness}_${color}_${alpha}` for lines. */
  function CircleKey(c: CircleItem): FillStyle { FillStyle(c.color, c.alpha) }
  function LineKey(l: LineItem): LineStyle { LineStyle(l.thickness, l.color, l.alpha) }
  function PolygonKey(p: PolygonItem): FillStyle { FillStyle(p.color, p.alpha) }

  /** The margin `updateCullingBounds` leaves around the screen. */
  const CullMargin: real := 150.0

  // ---------------------------------------------------------------------------
  // Culling
  // ---------------------------------------------------------------------------

  /** `isVisible(x, y, radius)`: the circle reaches into the culling rectangle. */
  predicate Visible(b: Bounds, x: real, y: real, radius: real)
  {
    x + radius >= b.left && x - radius <= b.right && y + radius >= b.top && y - radius <= b.bottom
  }

  /** The bounds `updateCullingBounds` sets for a screen of the given size. */
  function CullingBoundsFor(width: real, height: real): (b: Bounds)
    ensures b.right - b.left == width + 2.0 * CullMargin
    ensures b.bottom - b.top == height + 2.0 * CullMargin
  {
    Bounds(-CullMargin, width + CullMargin, -CullMargin, height + CullMargin)
  }

  /** A larger radius never makes a visible circle invisible. */
  lemma {:induction false} VisibleGrows(b: Bounds, x: real, y: real, r1: real, r2: real)
    requires r1 <= r2 && Visible(b, x, y, r1)
    ensures Visible(b, x, y, r2)
  {
  }

  /** After `updateCullingBounds`, everything within `CullMargin` of the screen is visible and nothing beyond it is. */
  lemma {:induction false} CullingMargin(width: real, height: real, x: real, y: real, radius: real)
    requires radius >= 0.0
    ensures var b := CullingBoundsFor(width, height);
      Visible(b, x, y, radius) <==>
        -CullMargin - radius <= x <= width + CullMargin + radius
        && -CullMargin - radius <= y <= height + CullMargin + radius
  {
  }

  // ---------------------------------------------------------------------------
  // Level of detail
  // ---------------------------------------------------------------------------

  /** `getLOD` for a point at `distance` from the camera. */
  function LodFor(d: LodDistances, distance: real): (l: Lod)
    ensures l == High <==> distance < d.high
    ensures l == Medium <==> d.high <= distance < d.medium
    ensures l == Low <==> d.high <= distance && d.medium <= distance && distance < d.low
    ensures l == Skip <==> d.high <= distance && d.medium <= distance && d.low <= distance
  {
    if distance < d.high then High
    else if distance < d.medium then Medium
    else if distance < d.low then Low
    else Skip
  }

  function LodRank(l: Lod): nat
  {
    match l
    case High => 3
    case Medium => 2
    case Low => 1
    case Skip => 0
  }

  /** Farther away never means more detail. */
  lemma {:induction false} LodMonotone(d: LodDistances, near: real, far: real)
    requires near <= far
    ensures LodRank(LodFor(d, far)) <= LodRank(LodFor(d, near))
  {
  }

  // ---------------------------------------------------------------------------
  // Settings per grade
  // ---------------------------------------------------------------------------

  /** What `updateSettings` writes: the two flags and the three LOD distances. */
  datatype RenderSettings = RenderSettings(simplified: bool, skipNonEssential: bool, lod: LodDistances)

  /** The `updateSettings` table; `None` for a grade the switch has no case for. */
  function SettingsForGrade(grade: string): (r: Option<RenderSettings>)
    ensures r.Some? <==> grade == "A" || grade == "B" || grade == "C" || grade == "D"
    ensures r.Some? ==> r.value.lod.high < r.value.lod.medium < r.value.lod.low
    ensures r.Some? ==> (r.value.simplified <==> grade == "C" || grade == "D")
    ensures r.Some? ==> (r.value.skipNonEssential <==> grade == "D")
  {
    if grade == "D" then Some(RenderSettings(true, true, LodDistances(200.0, 400.0, 600.0)))
    else if grade == "C" then Some(RenderSettings(true, false, LodDistances(250.0, 500.0, 800.0)))
    else if grade == "B" then Some(RenderSettings(false, false, LodDistances(300.0, 600.0, 1000.0)))
    else if grade == "A" then Some(RenderSettings(false, false, LodDistances(400.0, 800.0, 1200.0)))
    else None
  }

  predicate Farther(d1: LodDistances, d2: LodDistances)
  {
    d1.high < d2.high && d1.medium < d2.medium && d1.low < d2.low
  }

  /** Every threshold grows strictly from grade D to grade A. */
  lemma {:induction false} ThresholdsGrowWithGrade()
    ensures Farther(SettingsForGrade("D").value.lod, SettingsForGrade("C").value.lod)
    ensures Farther(SettingsForGrade("C").value.lod, SettingsForGrade("B").value.lod)
    ensures Farther(SettingsForGrade("B").value.lod, SettingsForGrade("A").value.lod)
  {
  }

  // ---------------------------------------------------------------------------
  // Grouping by style key
  // ---------------------------------------------------------------------------

  /** The items with key `k`, in queue order. */
  function Filter<T, K(==)>(items: seq<T>, key: T -> K, k: K): (r: seq<T>)
    ensures |r| <= |items|
    ensures forall i :: 0 <= i < |r| ==> key(r[i]) == k
  {
    if |items| == 0 then []
    else Filter(items[..|items| - 1], key, k) + (if key(items[|items| - 1]) == k then [items[|items| - 1]] else [])
  }

  /** The distinct keys in order of first appearance: the iteration order of the JavaScript `Map`. */
  function FirstKeys<T, K(==)>(items: seq<T>, key: T -> K): (ks: seq<K>)
  {
    if |items| == 0 then []
    else
      var ks := FirstKeys(items[..|items| - 1], key);
      if key(items[|items| - 1]) in ks then ks else ks + [key(items[|items| - 1])]
  }

  predicate Distinct<K(==)>(s: seq<K>)
  {
    forall i, j :: 0 <= i < j < |s| ==> s[i] != s[j]
  }

  /** The first-appearance keys are distinct and are exactly the keys that occur. */
  lemma {:induction false} FirstKeysSound<T, K>(items: seq<T>, key: T -> K)
    ensures Distinct(FirstKeys(items, key))
    ensures forall i :: 0 <= i < |items| ==> key(items[i]) in FirstKeys(items, key)
    ensures forall k :: k in FirstKeys(items, key) ==> exists i :: 0 <= i < |items| && key(items[i]) == k
    decreases |items|
  {
    if |items| > 0 {
      var init := items[..|items| - 1];
      FirstKeysSound(init, key);
      forall i | 0 <= i < |items| ensures key(items[i]) in FirstKeys(items, key) {
        if i < |init| {
          assert key(init[i]) in FirstKeys(init, key);
        }
      }
      forall k | k in FirstKeys(items, key) ensures exists i :: 0 <= i < |items| && key(items[i]) == k {
        if k in FirstKeys(init, key) {
          var i :| 0 <= i < |init| && key(init[i]) == k;
          assert key(items[i]) == k;
        } else {
          assert key(items[|items| - 1]) == k;
        }
      }
    }
  }

  /** An item lands in the group of its own key and no other, and the group keeps queue order. */
  lemma {:induction false} FilterMembers<T, K>(items: seq<T>, key: T -> K, k: K, x: T)
    ensures x in Filter(items, key, k) <==> x in items && key(x) == k
    decreases |items|
  {
    if |items| > 0 {
      var init := items[..|items| - 1];
      FilterMembers(init, key, k, x);
      assert items == init + [items[|items| - 1]];
    }
  }

  /** Together the groups hold every item exactly once. */
  lemma {:induction false} GroupSizes<T, K>(items: seq<T>, key: T -> K)
    ensures SizesOf(items, key, FirstKeys(items, key)) == |items|
    decreases |items|
  {
    if |items| > 0 {
      var init := items[..|items| - 1];
      var last := items[|items| - 1];
      var ks := FirstKeys(init, key);
      GroupSizes(init, key);
      FirstKeysSound(init, key);
      assert items == init + [last];
      SizesStep(init, last, key, ks);
      if key(last) !in ks {
        SizesSnoc(items, key, ks, key(last));
        FilterAbsent(init, key, key(last));
      }
    }
  }

  /** The total size of the groups named in `ks`. */
  function SizesOf<T, K(==)>(items: seq<T>, key: T -> K, ks: seq<K>): nat
  {
    if |ks| == 0 then 0 else SizesOf(items, key, ks[..|ks| - 1]) + |Filter(items, key, ks[|ks| - 1])|
  }

  /** Appending an item grows the group of its key by one and leaves the other groups alone. */
  lemma {:induction false} SizesStep<T, K>(init: seq<T>, last: T, key: T -> K, ks: seq<K>)
    requires Distinct(ks)
    ensures SizesOf(init + [last], key, ks) == SizesOf(init, key, ks) + (if key(last) in ks then 1 else 0)
    decreases |ks|
  {
    var items := init + [last];
    assert items[..|items| - 1] == init;
    if |ks| > 0 {
      var front := ks[..|ks| - 1];
      assert Distinct(front);
      SizesStep(init, last, key, front);
      assert key(last) in ks <==> key(last) in front || key(last) == ks[|ks| - 1];
      assert key(last) == ks[|ks| - 1] ==> key(last) !in front;
    }
  }

  lemma {:induction false} SizesSnoc<T, K>(items: seq<T>, key: T -> K, ks: seq<K>, k: K)
    ensures SizesOf(items, key, ks + [k]) == SizesOf(items, key, ks) + |Filter(items, key, k)|
  {
    assert (ks + [k])[..|ks|] == ks;
  }

  lemma {:induction false} FilterAbsent<T, K>(items: seq<T>, key: T -> K, k: K)
    requires forall i :: 0 <= i < |items| ==> key(items[i]) != k
    ensures Filter(items, key, k) == []
    decreases |items|
  {
    if |items| > 0 {
      FilterAbsent(items[..|items| - 1], key, k);
    }
  }

  /**
   * The grouping loop of `renderCircleBatches` and its siblings: a `Map` from
   * style key to the queued items with that key, filled in queue order.
   */
  method GroupByKey<T, K(==)>(items: seq<T>, key: T -> K) returns (keys: seq<K>, groups: map<K, seq<T>>)
    ensures keys == FirstKeys(items, key) && Distinct(keys)
    ensures forall k :: k in groups <==> k in keys
    ensures forall k :: k in groups ==> groups[k] == Filter(items, key, k)
  {
    keys, groups := [], map[];
    var i := 0;
    while i < |items|
      invariant 0 <= i <= |items|
      invariant keys == FirstKeys(items[..i], key)
      invariant forall k :: k in groups <==> k in keys
      invariant forall k :: k in groups ==> groups[k] == Filter(items[..i], key, k)
    {
      var k := key(items[i]);
      assert items[..i + 1][..i] == items[..i] && items[..i + 1][i] == items[i];
      if k !in groups {
        FirstKeysSound(items[..i], key);
        FilterAbsent(items[..i], key, k);
        keys := keys + [k];
        groups := groups[k := []];
      }
      groups := groups[k := groups[k] + [items[i]]];
      i := i + 1;
    }
    assert items[..i] == items;
    FirstKeysSound(items, key);
  }

  // ---------------------------------------------------------------------------
  // The renderer
  // ---------------------------------------------------------------------------

  class BatchRenderer {
    const performanceManager: Performance.PerformanceManager
    var cullingBounds: Bounds
    var circles: seq<CircleItem>
    var lines: seq<LineItem>
    var polygons: seq<PolygonItem>
    /** Nothing is ever queued as a sprite; the queue is only cleared. */
    var spriteCount: nat
    var useSimplifiedRendering: bool
    var skipNonEssential: bool
    var lodDistances: LodDistances

    /** A renderer for a screen of the given size; the initial margin is 100. */
    constructor (width: real, height: real, pm: Performance.PerformanceManager)
      ensures performanceManager == pm
      ensures cullingBounds == Bounds(-100.0, width + 100.0, -100.0, height + 100.0)
      ensures circles == [] && lines == [] && polygons == [] && spriteCount == 0
      ensures !useSimplifiedRendering && !skipNonEssential
      ensures lodDistances == LodDistances(300.0, 600.0, 1000.0)
    {
      performanceManager := pm;
      cullingBounds := Bounds(-100.0, width + 100.0, -100.0, height + 100.0);
      circles, lines, polygons, spriteCount := [], [], [], 0;
      useSimplifiedRendering, skipNonEssential := false, false;
      lodDistances := LodDistances(300.0, 600.0, 1000.0);
    }

    /** `updateCullingBounds` for the current screen size. */
    method UpdateCullingBounds(width: real, height: real)
      modifies this`cullingBounds
      ensures cullingBounds == CullingBoundsFor(width, height)
    {
      cullingBounds := Bounds(-CullMargin, width + CullMargin, -CullMargin, height + CullMargin);
    }

    function IsVisible(x: real, y: real, radius: real): bool
      reads this
    {
      Visible(cullingBounds, x, y, radius)
    }

    /** `getLOD` with the current distances. */
    function GetLod(distance: real): Lod
      reads this
    {
      LodFor(lodDistances, distance)
    }

    /** `queueCircle`: appended exactly when visible; no other queue changes. */
    method QueueCircle(x: real, y: real, radius: real, color: int, alpha: real, outline: Option<Outline>)
      modifies this`circles
      ensures circles == old(circles) + (if IsVisible(x, y, radius) then [CircleItem(x, y, radius, color, alpha, outline)] else [])
    {
      if !IsVisible(x, y, radius) {
        return;
      }
      circles := circles + [CircleItem(x, y, radius, color, alpha, outline)];
    }

    /** `queueLine`: only the midpoint is checked for visibility, with radius 0. */
    method QueueLine(x1: real, y1: real, x2: real, y2: real, thickness: real, color: int, alpha: real)
      modifies this`lines
      ensures lines == old(lines) +
        (if IsVisible((x1 + x2) / 2.0, (y1 + y2) / 2.0, 0.0) then [LineItem(x1, y1, x2, y2, thickness, color, alpha)] else [])
    {
      if !IsVisible((x1 + x2) / 2.0, (y1 + y2) / 2.0, 0.0) {
        return;
      }
      lines := lines + [LineItem(x1, y1, x2, y2, thickness, color, alpha)];
    }

    /** `queuePolygon`: rejected only when it has a first point and that point is not visible. */
    method QueuePolygon(points: seq<real>, color: int, alpha: real, outline: Option<Outline>)
      modifies this`polygons
      ensures |points| < 2 ==> polygons == old(polygons) + [PolygonItem(points, color, alpha, outline)]
      ensures |points| >= 2 ==>
        polygons == old(polygons) + (if IsVisible(points[0], points[1], 0.0) then [PolygonItem(points, color, alpha, outline)] else [])
    {
      if |points| >= 2 && !IsVisible(points[0], points[1], 0.0) {
        return;
      }
      polygons := polygons + [PolygonItem(points, color, alpha, outline)];
    }

    /** The circle batches `renderCircleBatches` draws, one per colour and alpha. */
    method CircleBatches() returns (keys: seq<FillStyle>, groups: map<FillStyle, seq<CircleItem>>)
      ensures forall c :: c in circles ==> FillStyle(c.color, c.alpha) in groups
      ensures forall k, c :: k in groups && c in groups[k] <==> k in groups && c in circles && k == FillStyle(c.color, c.alpha)
      ensures Distinct(keys) && forall k :: k in groups <==> k in keys
      ensures keys == FirstKeys(circles, CircleKey)
      ensures forall k :: k in groups ==> groups[k] == Filter(circles, CircleKey, k)
    {
      var key := CircleKey;
      keys, groups := GroupByKey(circles, key);
      FirstKeysSound(circles, key);
      forall c | c in circles ensures key(c) in groups {
        var i :| 0 <= i < |circles| && circles[i] == c;
      }
      forall k, c ensures k in groups && c in groups[k] <==> k in groups && c in circles && k == key(c) {
        if k in groups {
          FilterMembers(circles, key, k, c);
        }
      }
    }

    /** The line batches `renderLineBatches` draws, one per thickness, colour and alpha. */
    method LineBatches() returns (keys: seq<LineStyle>, groups: map<LineStyle, seq<LineItem>>)
      ensures forall l :: l in lines ==> LineStyle(l.thickness, l.color, l.alpha) in groups
      ensures forall k, l :: k in groups && l in groups[k] <==> k in groups && l in lines && k == LineStyle(l.thickness, l.color, l.alpha)
      ensures Distinct(keys) && forall k :: k in groups <==> k in keys
      ensures keys == FirstKeys(lines, LineKey)
      ensures forall k :: k in groups ==> groups[k] == Filter(lines, LineKey, k)
    {
      var key := LineKey;
      keys, groups := GroupByKey(lines, key);
      FirstKeysSound(lines, key);
      forall l | l in lines ensures key(l) in groups {
        var i :| 0 <= i < |lines| && lines[i] == l;
      }
      forall k, l ensures k in groups && l in groups[k] <==> k in groups && l in lines && k == key(l) {
        if k in groups {
          FilterMembers(lines, key, k, l);
        }
      }
    }

    /** The polygon batches `renderPolygonBatches` fills, one per colour and alpha. */
    method PolygonBatches() returns (keys: seq<FillStyle>, groups: map<FillStyle, seq<PolygonItem>>)
      ensures forall p :: p in polygons ==> FillStyle(p.color, p.alpha) in groups
      ensures forall k, p :: k in groups && p in groups[k] <==> k in groups && p in polygons && k == FillStyle(p.color, p.alpha)
      ensures Distinct(keys) && forall k :: k in groups <==> k in keys
      ensures keys == FirstKeys(polygons, PolygonKey)
      ensures forall k :: k in groups ==> groups[k] == Filter(polygons, PolygonKey, k)
    {
      var key := PolygonKey;
      keys, groups := GroupByKey(polygons, key);
      FirstKeysSound(polygons, key);
      forall p | p in polygons ensures key(p) in groups {
        var i :| 0 <= i < |polygons| && polygons[i] == p;
      }
      forall k, p ensures k in groups && p in groups[k] <==> k in groups && p in polygons && k == key(p) {
        if k in groups {
          FilterMembers(polygons, key, k, p);
        }
      }
    }

    /** `clearRenderQueues`: all four queues become empty. */
    method ClearRenderQueues()
      modifies this`circles, this`lines, this`polygons, this`spriteCount
      ensures circles == [] && lines == [] && polygons == [] && spriteCount == 0
    {
      circles, lines, polygons, spriteCount := [], [], [], 0;
    }

    /**
     * `renderBatches`: takes the two flags from the optimized settings, draws
     * the batches, clears every queue and records one draw call.
     */
    method RenderBatches()
      modifies this, performanceManager`drawCalls
      ensures useSimplifiedRendering == performanceManager.isLowPerformance
      ensures skipNonEssential == performanceManager.Optimized().shouldSkipNonEssentialUpdates
      ensures circles == [] && lines == [] && polygons == [] && spriteCount == 0
      ensures performanceManager.drawCalls == old(performanceManager.drawCalls) + 1
      ensures cullingBounds == old(cullingBounds) && lodDistances == old(lodDistances)
    {
      var optimized := performanceManager.Optimized();
      useSimplifiedRendering := optimized.shouldUseSimplifiedEffects;
      skipNonEssential := optimized.shouldSkipNonEssentialUpdates;
      var _, _ := CircleBatches();
      var _, _ := LineBatches();
      var _, _ := PolygonBatches();
      ClearRenderQueues();
      performanceManager.RecordDrawCall();
    }

    /** `updateSettings(grade)`: the table row for a known grade; an unknown grade changes nothing. */
    method UpdateSettings(grade: string)
      modifies this`useSimplifiedRendering, this`skipNonEssential, this`lodDistances
      ensures SettingsForGrade(grade).None? ==>
        useSimplifiedRendering == old(useSimplifiedRendering) && skipNonEssential == old(skipNonEssential)
        && lodDistances == old(lodDistances)
      ensures SettingsForGrade(grade).Some? ==>
        RenderSettings(useSimplifiedRendering, skipNonEssential, lodDistances) == SettingsForGrade(grade).value
    {
      match grade
      case "D" =>
        useSimplifiedRendering, skipNonEssential := true, true;
        lodDistances := LodDistances(200.0, 400.0, 600.0);
      case "C" =>
        useSimplifiedRendering, skipNonEssential := true, false;
        lodDistances := LodDistances(250.0, 500.0, 800.0);
      case "B" =>
        useSimplifiedRendering, skipNonEssential := false, false;
        lodDistances := LodDistances(300.0, 600.0, 1000.0);
      case "A" =>
        useSimplifiedRendering, skipNonEssential := false, false;
        lodDistances := LodDistances(400.0, 800.0, 1200.0);
      case _ =>
    }
  }
}
