/**
 * js/systems/PerformanceOptimizer.js: the object that owns the performance
 * manager, the pool manager, the batch renderer and the particle system, and
 * ties them together once per frame — periodic re-tuning by grade, frame
 * skipping when the frame rate collapses, a one-second cache of the optimized
 * settings, pooled enemy graphics, and the colours of the debug overlay.
 * `performance.now()` and the screen size are parameters.
 */
module PerformanceOptimizing {
  import opened Wrappers
  import opened JsValues
  import Performance
  import ObjectPooling
  import Batching

  /** `optimizationInterval` and `settingsCache.cacheInterval`, in milliseconds. */
  const OptimizationInterval: real := 180.0
  const CacheInterval: real := 60.0

  // ---------------------------------------------------------------------------
  // Frame skipping
  // ---------------------------------------------------------------------------

  /** `updateFrameSkip(fps)`: render one frame in 3 below 15 fps, one in 2 below 25, else every frame. */
  function FrameSkipRateFor(fps: real): (rate: nat)
    ensures 1 <= rate <= 3
    ensures rate == 3 <==> fps < 15.0
    ensures rate == 2 <==> 15.0 <= fps < 25.0
    ensures rate == 1 <==> fps >= 25.0
  {
    if fps < 15.0 then 3 else if fps < 25.0 then 2 else 1
  }

  /** A lower frame rate never skips fewer frames. */
  lemma {:induction false} FrameSkipMonotone(slow: real, fast: real)
    requires slow <= fast
    ensures FrameSkipRateFor(fast) <= FrameSkipRateFor(slow)
  {
  }

  /** One `shouldSkipFrame` call: the new counter and whether the frame is skipped. */
  function SkipStep(counter: nat, rate: nat): (nat, bool)
  {
    if counter + 1 >= rate then (0, false) else (counter + 1, true)
  }

  /** The answers of `n` consecutive `shouldSkipFrame` calls at a fixed rate. */
  function SkipRun(counter: nat, rate: nat, n: nat): seq<bool>
    decreases n
  {
    if n == 0 then [] else [SkipStep(counter, rate).1] + SkipRun(SkipStep(counter, rate).0, rate, n - 1)
  }

  /** The counter after `n` such calls. */
  function CounterAfter(counter: nat, rate: nat, n: nat): nat
    decreases n
  {
    if n == 0 then counter else CounterAfter(SkipStep(counter, rate).0, rate, n - 1)
  }

  function Rendered(run: seq<bool>): nat
  {
    if |run| == 0 then 0 else (if run[0] then 0 else 1) + Rendered(run[1..])
  }

  /** From counter `c` below the rate, the next `rate - c` calls skip every frame but the last, which resets the counter. */
  lemma {:induction false} SkipCycle(c: nat, rate: nat)
    requires c < rate
    ensures SkipRun(c, rate, rate - c) == seq(rate - c - 1, _ => true) + [false]
    ensures CounterAfter(c, rate, rate - c) == 0
    decreases rate - c
  {
    if c + 1 < rate {
      SkipCycle(c + 1, rate);
    }
  }

  lemma {:induction false} SkipRunAppend(c: nat, rate: nat, n: nat, m: nat)
    ensures SkipRun(c, rate, n + m) == SkipRun(c, rate, n) + SkipRun(CounterAfter(c, rate, n), rate, m)
    ensures CounterAfter(c, rate, n + m) == CounterAfter(CounterAfter(c, rate, n), rate, m)
    decreases n
  {
    if n > 0 {
      SkipRunAppend(SkipStep(c, rate).0, rate, n - 1, m);
    }
  }

  lemma {:induction false} RenderedAppend(a: seq<bool>, b: seq<bool>)
    ensures Rendered(a + b) == Rendered(a) + Rendered(b)
    decreases |a|
  {
    if |a| > 0 {
      RenderedAppend(a[1..], b);
      assert (a + b)[1..] == a[1..] + b;
    } else {
      assert a + b == b;
    }
  }

  lemma {:induction false} RenderedSkips(n: nat)
    ensures Rendered(seq(n, _ => true)) == 0
    decreases n
  {
    if n > 0 {
      RenderedSkips(n - 1);
      assert seq(n, _ => true)[1..] == seq(n - 1, _ => true);
    }
  }

  /** Starting from a reset counter, `k * rate` calls render exactly `k` frames. */
  lemma {:induction false} OneFrameInRate(rate: nat, k: nat)
    requires rate >= 1
    ensures Rendered(SkipRun(0, rate, k * rate)) == k
    ensures CounterAfter(0, rate, k * rate) == 0
    decreases k
  {
    if k > 0 {
      OneFrameInRate(rate, k - 1);
      SkipRunAppend(0, rate, (k - 1) * rate, rate);
      assert (k - 1) * rate + rate == k * rate;
      SkipCycle(0, rate);
      RenderedAppend(SkipRun(0, rate, (k - 1) * rate), SkipRun(0, rate, rate));
      RenderedAppend(seq(rate - 1, _ => true), [false]);
      RenderedSkips(rate - 1);
    }
  }

  // ---------------------------------------------------------------------------
  // Pool limits per grade
  // ---------------------------------------------------------------------------

  datatype Limits = Limits(maxParticles: int, maxTrailPoints: int)

  /** The `adjustPoolSizes` table; `None` for a grade the switch has no case for. */
  function PoolLimits(grade: string): (r: Option<Limits>)
    ensures r.Some? <==> grade == "A" || grade == "B" || grade == "C" || grade == "D"
    ensures r.Some? ==> r.value.maxParticles > 0 && r.value.maxTrailPoints > 0
  {
    if grade == "D" then Some(Limits(50, 30))
    else if grade == "C" then Some(Limits(100, 60))
    else if grade == "B" then Some(Limits(150, 80))
    else if grade == "A" then Some(Limits(200, 100))
    else None
  }

  /** The settings after `adjustPoolSizes(grade)`: only the two limits change. */
  function WithPoolLimits(s: Performance.Settings, grade: string): (r: Performance.Settings)
    ensures PoolLimits(grade).None? ==> r == s
    ensures r.(maxParticles := s.maxParticles, maxTrailPoints := s.maxTrailPoints) == s
  {
    match PoolLimits(grade)
    case None => s
    case Some(l) => s.(maxParticles := l.maxParticles, maxTrailPoints := l.maxTrailPoints)
  }

  predicate Below(a: Limits, b: Limits)
  {
    a.maxParticles < b.maxParticles && a.maxTrailPoints < b.maxTrailPoints
  }

  /** Both limits grow strictly from grade D to A, and grade A gives back the initial limits. */
  lemma {:induction false} LimitsGrowWithGrade()
    ensures Below(PoolLimits("D").value, PoolLimits("C").value)
    ensures Below(PoolLimits("C").value, PoolLimits("B").value)
    ensures Below(PoolLimits("B").value, PoolLimits("A").value)
    ensures WithPoolLimits(Performance.InitialSettings, "A") == Performance.InitialSettings
  {
  }

  /** Every grade the performance manager reports has a row in both tables. */
  lemma {:induction false} KnownGrade(g: Performance.Grade)
    ensures PoolLimits(Performance.GradeName(g)).Some?
    ensures Batching.SettingsForGrade(Performance.GradeName(g)).Some?
  {
  }

  // ---------------------------------------------------------------------------
  // Debug overlay colours
  // ---------------------------------------------------------------------------

  const Green := "#00ff00"
  const Lime := "#88ff00"
  const Amber := "#ffaa00"
  const Orange := "#ff8800"
  const Red := "#ff4444"
  const Grey := "#cccccc"

  /** `parseFloat(value)`: a number is read back as itself, a string by `ParseFloat`, anything else is NaN. */
  function FloatOf(v: Value): Option<real>
  {
    match v
    case Num(n) => Some(n)
    case Str(s) => ParseFloat(s)
    case _ => None
  }

  /** `parseInt(value)`: a number is truncated toward zero, a string read by `ParseInt`, anything else is NaN. */
  function IntOf(v: Value): (r: Option<int>)
    ensures v.Num? ==> r.Some? && (v.n >= 0.0 ==> r.value == v.n.Floor)
  {
    match v
    case Num(n) => Some(if n >= 0.0 then n.Floor else -((-n).Floor))
    case Str(s) => ParseInt(s)
    case _ => None
  }

  /** The FPS colour; NaN fails every comparison and is red. */
  function FpsColor(fps: Option<real>): (c: string)
    ensures c == Green <==> fps.Some? && fps.value >= 55.0
    ensures c == Amber <==> fps.Some? && 40.0 <= fps.value < 55.0
    ensures c == Orange <==> fps.Some? && 25.0 <= fps.value < 40.0
    ensures c == Red <==> fps.None? || fps.value < 25.0
  {
    if fps.Some? && fps.value >= 55.0 then Green
    else if fps.Some? && fps.value >= 40.0 then Amber
    else if fps.Some? && fps.value >= 25.0 then Orange
    else Red
  }

  /** The grade colour: A, B and C have their own, anything else is red. */
  function GradeColor(grade: string): (c: string)
    ensures c == Green <==> grade == "A"
    ensures c == Lime <==> grade == "B"
    ensures c == Amber <==> grade == "C"
    ensures c == Red <==> grade != "A" && grade != "B" && grade != "C"
  {
    if grade == "A" then Green else if grade == "B" then Lime else if grade == "C" then Amber else Red
  }

  /** The quality colour; NaN fails both comparisons and is orange. */
  function QualityColor(q: Option<int>): (c: string)
    ensures c == Green <==> q.Some? && q.value >= 80
    ensures c == Amber <==> q.Some? && 60 <= q.value < 80
    ensures c == Orange <==> q.None? || q.value < 60
  {
    if q.Some? && q.value >= 80 then Green else if q.Some? && q.value >= 60 then Amber else Orange
  }

  /** How good a colour says things are, for comparing colours. */
  function Goodness(c: string): nat
  {
    if c == Green then 3 else if c == Lime || c == Amber then 2 else if c == Orange then 1 else 0
  }

  /** A higher frame rate or quality never shows a worse colour. */
  lemma {:induction false} ColorsMonotone(lo: real, hi: real, qlo: int, qhi: int)
    requires lo <= hi && qlo <= qhi
    ensures Goodness(FpsColor(Some(lo))) <= Goodness(FpsColor(Some(hi)))
    ensures Goodness(QualityColor(Some(qlo))) <= Goodness(QualityColor(Some(qhi)))
  {
  }

  /**
   * `value.toString()` where the grade branch needs it; `undefined` and `null`
   * throw. A number stands for its numeral by "0": the grade branch only asks
   * whether the text is a letter grade, which no numeral is.
   */
  function GradeText(v: Value): Result<string>
  {
    match v
    case Str(s) => Ok(s)
    case Bool(b) => Ok(if b then "true" else "false")
    case Undefined => Err("TypeError: value is undefined")
    case Null => Err("TypeError: value is null")
    case Obj(_) => Ok("[object Object]")
    case Fn => Ok("function")
    case Num(_) => Ok("0")
  }

  /**
   * `getMetricColor(key, value)`: FPS by frame rate, Grade by letter, any key
   * containing "Quality" by the integer percentage, everything else grey.
   */
  function MetricColor(key: string, value: Value): (r: Result<string>)
    ensures r.Err? <==> key == "Grade" && (value.Undefined? || value.Null?)
    ensures key == "FPS" ==> r == Ok(FpsColor(FloatOf(value)))
    ensures key == "Grade" && value.Str? ==> r == Ok(GradeColor(value.s))
    ensures key != "FPS" && key != "Grade" && !Contains(key, "Quality") ==> r == Ok(Grey)
    ensures key != "FPS" && key != "Grade" && Contains(key, "Quality") ==> r == Ok(QualityColor(IntOf(value)))
  {
    if key == "FPS" then Ok(FpsColor(FloatOf(value)))
    else if key == "Grade" then
      match GradeText(value)
      case Err(e) => Err(e)
      case Ok(g) => Ok(GradeColor(g))
    else if Contains(key, "Quality") then Ok(QualityColor(IntOf(value)))
    else Ok(Grey)
  }

  /** A frame rate the overlay shows as one decimal, such as "58.5", gets the colour of that number. */
  lemma {:induction false} FpsTextColor(ip: string, fp: string)
    requires |ip| > 0 && AllDigits(ip, 10) && AllDigits(fp, 10)
    ensures MetricColor("FPS", Str(ip + "." + fp)) == Ok(FpsColor(Some(DecimalValue(ip, fp))))
  {
    var v := Str(ip + "." + fp);
    ParseFloatDecimal(ip, fp);
    assert FloatOf(v) == Some(DecimalValue(ip, fp));
    assert MetricColor("FPS", v) == Ok(FpsColor(FloatOf(v)));
  }

  // ---------------------------------------------------------------------------
  // Pooled enemies
  // ---------------------------------------------------------------------------

  /** What `createOptimizedEnemy` returns; the spread `config` is not modelled. */
  datatype OptimizedEnemy = OptimizedEnemy(gfx: ObjectPooling.PooledObject?, enemyType: string, pooled: bool, x: real, y: real)

  // ---------------------------------------------------------------------------
  // The optimizer
  // ---------------------------------------------------------------------------

  class PerformanceOptimizer {
    const performanceManager: Performance.PerformanceManager
    const poolManager: ObjectPooling.GameObjectPoolManager
    const batchRenderer: Batching.BatchRenderer
    const particleSystem: ObjectPooling.ParticleSystem
    var lastOptimizationUpdate: real
    /** `cachedSettings`; `None` is the initial empty object. */
    var cachedSettings: Option<Performance.OptimizedSettings>
    var cacheLastUpdate: real
    var frameSkipCounter: nat
    var frameSkipRate: nat

    ghost predicate Valid()
      reads this, performanceManager, poolManager, poolManager.pools.Values, particleSystem, batchRenderer
    {
      performanceManager.Valid() && poolManager.Valid()
      && "particles" in poolManager.pools && particleSystem.particlePool == poolManager.pools["particles"]
      && batchRenderer.performanceManager == performanceManager
      && 1 <= frameSkipRate <= 3
    }

    /** The four subsystems, new, on a screen of the given size at clock reading `now`. */
    constructor (width: real, height: real, now: real)
      ensures Valid()
      ensures lastOptimizationUpdate == 0.0 && cachedSettings == None && cacheLastUpdate == 0.0
      ensures frameSkipCounter == 0 && frameSkipRate == 1
      ensures performanceManager.settings == Performance.InitialSettings && performanceManager.fpsHistory == []
      ensures poolManager.pools.Keys == ObjectPooling.PoolNames && particleSystem.activeParticles == []
      ensures batchRenderer.circles == [] && batchRenderer.lines == [] && batchRenderer.polygons == []
    {
      var pm := new Performance.PerformanceManager(now);
      var pools := new ObjectPooling.GameObjectPoolManager();
      performanceManager := pm;
      poolManager := pools;
      batchRenderer := new Batching.BatchRenderer(width, height, pm);
      particleSystem := new ObjectPooling.ParticleSystem(pools);
      lastOptimizationUpdate, cachedSettings, cacheLastUpdate := 0.0, None, 0.0;
      frameSkipCounter, frameSkipRate := 0, 1;
    }

    /** `updateFrameSkip(fps)`. */
    method UpdateFrameSkip(fps: real)
      modifies this`frameSkipRate
      ensures frameSkipRate == FrameSkipRateFor(fps)
    {
      if fps < 15.0 {
        frameSkipRate := 3;
      } else if fps < 25.0 {
        frameSkipRate := 2;
      } else {
        frameSkipRate := 1;
      }
    }

    /** `shouldSkipFrame()`: counts frames and lets one in every `frameSkipRate` through. */
    method ShouldSkipFrame() returns (skip: bool)
      modifies this`frameSkipCounter
      ensures (frameSkipCounter, skip) == SkipStep(old(frameSkipCounter), frameSkipRate)
      ensures !skip <==> frameSkipCounter == 0
    {
      frameSkipCounter := frameSkipCounter + 1;
      if frameSkipCounter >= frameSkipRate {
        frameSkipCounter := 0;
        return false;
      }
      return true;
    }

    /** `getCachedSettings()`: refreshed from the manager when older than `CacheInterval`. */
    method GetCachedSettings(currentTime: real) returns (r: Option<Performance.OptimizedSettings>)
      modifies this`cachedSettings, this`cacheLastUpdate
      ensures currentTime - old(cacheLastUpdate) > CacheInterval ==>
        cachedSettings == Some(performanceManager.Optimized()) && cacheLastUpdate == currentTime
      ensures currentTime - old(cacheLastUpdate) <= CacheInterval ==>
        cachedSettings == old(cachedSettings) && cacheLastUpdate == old(cacheLastUpdate)
      ensures r == cachedSettings
      ensures currentTime - cacheLastUpdate <= CacheInterval
    {
      if currentTime - cacheLastUpdate > CacheInterval {
        cachedSettings := Some(performanceManager.Optimized());
        cacheLastUpdate := currentTime;
      }
      r := cachedSettings;
    }

    /**
     * The cache after one `getCachedSettings()` at `currentTime`, from the
     * cache and its time stamp before it.
     */
    predicate CacheFollows(oldCached: Option<Performance.OptimizedSettings>, oldLastUpdate: real, currentTime: real)
      reads this, performanceManager
    {
      if currentTime - oldLastUpdate > CacheInterval
      then cachedSettings == Some(performanceManager.Optimized()) && cacheLastUpdate == currentTime
      else cachedSettings == oldCached && cacheLastUpdate == oldLastUpdate
    }

    /** `adjustPoolSizes(grade)`. */
    method AdjustPoolSizes(grade: string)
      modifies performanceManager`settings
      ensures performanceManager.settings == WithPoolLimits(old(performanceManager.settings), grade)
    {
      var s := performanceManager.settings;
      match grade
      case "D" => performanceManager.settings := s.(maxParticles := 50, maxTrailPoints := 30);
      case "C" => performanceManager.settings := s.(maxParticles := 100, maxTrailPoints := 60);
      case "B" => performanceManager.settings := s.(maxParticles := 150, maxTrailPoints := 80);
      case "A" => performanceManager.settings := s.(maxParticles := 200, maxTrailPoints := 100);
      case _ =>
    }

    /**
     * `updateOptimizationSettings`: re-tunes the renderer and the pool limits
     * for the current grade, and trims the pools' free lists at grade D.
     */
    method UpdateOptimizationSettings(width: real, height: real)
      requires Valid()
      modifies performanceManager`settings, batchRenderer`useSimplifiedRendering, batchRenderer`skipNonEssential
      modifies batchRenderer`lodDistances, batchRenderer`cullingBounds, poolManager.pools.Values
      ensures Valid() && poolManager.pools == old(poolManager.pools)
      ensures var g := Performance.GradeName(old(performanceManager.Grade()));
        Batching.SettingsForGrade(g).Some?
        && Batching.RenderSettings(batchRenderer.useSimplifiedRendering, batchRenderer.skipNonEssential, batchRenderer.lodDistances)
           == Batching.SettingsForGrade(g).value
        && performanceManager.settings == WithPoolLimits(old(performanceManager.settings), g)
      ensures batchRenderer.cullingBounds == Batching.CullingBoundsFor(width, height)
      ensures forall n :: n in poolManager.pools ==>
        poolManager.pools[n].active == old(poolManager.pools[n].active)
        && poolManager.pools[n].maxSize == old(poolManager.pools[n].maxSize)
      ensures forall n :: n in poolManager.pools ==>
        poolManager.pools[n].pool ==
          if old(performanceManager.Grade()) == Performance.D
          then old(poolManager.pools[n].pool)[..ObjectPooling.Min(old(|poolManager.pools[n].pool|), poolManager.pools[n].maxSize / 2)]
          else old(poolManager.pools[n].pool)
    {
      var grade := performanceManager.Grade();
      var g := Performance.GradeName(grade);
      KnownGrade(grade);
      batchRenderer.UpdateSettings(g);
      batchRenderer.UpdateCullingBounds(width, height);
      AdjustPoolSizes(g);
      if g == "D" {
        poolManager.Cleanup();
      }
    }

    /**
     * `handlePerformanceAdaptation`, the callback registered with the
     * performance manager: re-tunes at most once per `OptimizationInterval`,
     * then sets the frame-skip rate from the current frame rate.
     */
    method HandlePerformanceAdaptation(currentTime: real, width: real, height: real)
      requires Valid()
      modifies this`lastOptimizationUpdate, this`frameSkipRate, performanceManager`settings
      modifies batchRenderer`useSimplifiedRendering, batchRenderer`skipNonEssential
      modifies batchRenderer`lodDistances, batchRenderer`cullingBounds, poolManager.pools.Values
      ensures Valid() && poolManager.pools == old(poolManager.pools)
      ensures frameSkipRate == FrameSkipRateFor(performanceManager.fps)
      ensures currentTime - old(lastOptimizationUpdate) > OptimizationInterval ==>
        lastOptimizationUpdate == currentTime
        && batchRenderer.cullingBounds == Batching.CullingBoundsFor(width, height)
        && performanceManager.settings ==
             WithPoolLimits(old(performanceManager.settings), Performance.GradeName(old(performanceManager.Grade())))
      ensures currentTime - old(lastOptimizationUpdate) <= OptimizationInterval ==>
        lastOptimizationUpdate == old(lastOptimizationUpdate)
        && performanceManager.settings == old(performanceManager.settings)
        && batchRenderer.cullingBounds == old(batchRenderer.cullingBounds)
        && batchRenderer.lodDistances == old(batchRenderer.lodDistances)
        && forall n :: n in poolManager.pools ==> poolManager.pools[n].pool == old(poolManager.pools[n].pool)
      ensures forall n :: n in poolManager.pools ==>
        poolManager.pools[n].active == old(poolManager.pools[n].active)
        && poolManager.pools[n].maxSize == old(poolManager.pools[n].maxSize)
    {
      OptimizeWhenDue(currentTime, width, height);
      UpdateFrameSkip(performanceManager.fps);
    }

    /** The throttled half of `handlePerformanceAdaptation`: re-tune when `OptimizationInterval` has passed. */
    method OptimizeWhenDue(currentTime: real, width: real, height: real)
      requires Valid()
      modifies this`lastOptimizationUpdate, performanceManager`settings
      modifies batchRenderer`useSimplifiedRendering, batchRenderer`skipNonEssential
      modifies batchRenderer`lodDistances, batchRenderer`cullingBounds, poolManager.pools.Values
      ensures Valid() && poolManager.pools == old(poolManager.pools)
      ensures currentTime - old(lastOptimizationUpdate) > OptimizationInterval ==>
        lastOptimizationUpdate == currentTime
        && batchRenderer.cullingBounds == Batching.CullingBoundsFor(width, height)
        && performanceManager.settings ==
             WithPoolLimits(old(performanceManager.settings), Performance.GradeName(old(performanceManager.Grade())))
      ensures currentTime - old(lastOptimizationUpdate) <= OptimizationInterval ==>
        lastOptimizationUpdate == old(lastOptimizationUpdate)
        && performanceManager.settings == old(performanceManager.settings)
        && batchRenderer.cullingBounds == old(batchRenderer.cullingBounds)
        && batchRenderer.lodDistances == old(batchRenderer.lodDistances)
        && forall n :: n in poolManager.pools ==> poolManager.pools[n].pool == old(poolManager.pools[n].pool)
      ensures forall n :: n in poolManager.pools ==>
        poolManager.pools[n].active == old(poolManager.pools[n].active)
        && poolManager.pools[n].maxSize == old(poolManager.pools[n].maxSize)
    {
      if currentTime - lastOptimizationUpdate > OptimizationInterval {
        UpdateOptimizationSettings(width, height);
        lastOptimizationUpdate := currentTime;
      }
    }

    /**
     * `update(deltaTime)`: the manager's frame update (which runs the
     * adaptation callback), then `FrameWork`.
     */
    method Update(deltaTime: real, now: real, width: real, height: real) returns (ghost skipped: bool)
      requires Valid() && now > performanceManager.lastFrameTime
      modifies this, performanceManager, batchRenderer, poolManager.pools.Values, particleSystem
      ensures Valid() && poolManager.pools == old(poolManager.pools)
      ensures performanceManager.frameTime == now - old(performanceManager.lastFrameTime)
      ensures performanceManager.fps == 1000.0 / performanceManager.frameTime
      ensures performanceManager.fpsHistory == Performance.Trimmed(old(performanceManager.fpsHistory) + [performanceManager.fps])
      ensures performanceManager.lastFrameTime == now
      ensures frameSkipRate == FrameSkipRateFor(performanceManager.fps)
      ensures CacheFollows(old(cachedSettings), old(cacheLastUpdate), now)
      ensures frameSkipCounter ==
        if cachedSettings.Some? && cachedSettings.value.shouldSkipNonEssentialUpdates
        then SkipStep(old(frameSkipCounter), frameSkipRate).0
        else old(frameSkipCounter)
      ensures skipped <==> cachedSettings.Some? && cachedSettings.value.shouldSkipNonEssentialUpdates && frameSkipCounter != 0
      ensures skipped ==> particleSystem.activeParticles == old(particleSystem.activeParticles)
      ensures !skipped ==>
        var limit := performanceManager.settings.maxParticles;
        particleSystem.activeParticles ==
          ObjectPooling.Capped(ObjectPooling.Survivors(old(particleSystem.activeParticles), deltaTime), if limit < 0 then 0 else limit)
    {
      BeginFrame(deltaTime, now, width, height);
      skipped := FrameWork(deltaTime, now);
    }

    /** The first half of `update`: the manager's frame update, then the adaptation callback. */
    method BeginFrame(deltaTime: real, now: real, width: real, height: real)
      requires Valid() && now > performanceManager.lastFrameTime
      modifies this`lastOptimizationUpdate, this`frameSkipRate, performanceManager
      modifies batchRenderer`useSimplifiedRendering, batchRenderer`skipNonEssential
      modifies batchRenderer`lodDistances, batchRenderer`cullingBounds, poolManager.pools.Values
      ensures Valid() && poolManager.pools == old(poolManager.pools)
      ensures performanceManager.frameTime == now - old(performanceManager.lastFrameTime)
      ensures performanceManager.fps == 1000.0 / performanceManager.frameTime
      ensures performanceManager.fpsHistory == Performance.Trimmed(old(performanceManager.fpsHistory) + [performanceManager.fps])
      ensures performanceManager.lastFrameTime == now
      ensures frameSkipRate == FrameSkipRateFor(performanceManager.fps)
    {
      performanceManager.Update(deltaTime, now);
      HandlePerformanceAdaptation(now, width, height);
    }

    /**
     * The rest of `update`: the particle update, unless the cached settings
     * ask to skip non-essential work and `shouldSkipFrame` skips this frame.
     * `skipped` tells which happened.
     */
    method FrameWork(deltaTime: real, now: real) returns (ghost skipped: bool)
      requires Valid()
      modifies this`cachedSettings, this`cacheLastUpdate, this`frameSkipCounter, particleSystem, particleSystem.particlePool
      ensures Valid()
      ensures CacheFollows(old(cachedSettings), old(cacheLastUpdate), now)
      ensures frameSkipCounter ==
        if cachedSettings.Some? && cachedSettings.value.shouldSkipNonEssentialUpdates
        then SkipStep(old(frameSkipCounter), frameSkipRate).0
        else old(frameSkipCounter)
      ensures skipped <==> cachedSettings.Some? && cachedSettings.value.shouldSkipNonEssentialUpdates && frameSkipCounter != 0
      ensures skipped ==> particleSystem.activeParticles == old(particleSystem.activeParticles)
      ensures !skipped ==>
        var limit := performanceManager.settings.maxParticles;
        particleSystem.activeParticles ==
          ObjectPooling.Capped(ObjectPooling.Survivors(old(particleSystem.activeParticles), deltaTime), if limit < 0 then 0 else limit)
    {
      var settings := GetCachedSettings(now);
      if settings.Some? && settings.value.shouldSkipNonEssentialUpdates {
        var skip := ShouldSkipFrame();
        if skip {
          return true;
        }
      }
      UpdateParticles(deltaTime);
      skipped := false;
    }

    /** The particle update of a frame that is not skipped, capped at the current `maxParticles`. */
    method UpdateParticles(deltaTime: real)
      requires Valid()
      modifies particleSystem, particleSystem.particlePool
      ensures Valid()
      ensures var limit := performanceManager.settings.maxParticles;
        particleSystem.activeParticles ==
          ObjectPooling.Capped(ObjectPooling.Survivors(old(particleSystem.activeParticles), deltaTime), if limit < 0 then 0 else limit)
    {
      var limit := performanceManager.settings.maxParticles;
      particleSystem.Update(deltaTime, if limit < 0 then 0 else limit);
      forall n | n in poolManager.pools
        ensures poolManager.pools[n].Valid() && poolManager.pools[n] in poolManager.names
        ensures poolManager.names[poolManager.pools[n]] == n
      {
        assert old(poolManager.pools[n].Valid());
      }
    }

    /**
     * `renderOptimized`: skips the frame when `shouldSkipFrame` says so, else
     * records the number of active objects; the drawing is not modelled.
     */
    method RenderOptimized(currentTime: real, totalObjects: nat) returns (rendered: bool)
      modifies this`cachedSettings, this`cacheLastUpdate, this`frameSkipCounter, performanceManager`activeObjects
      ensures CacheFollows(old(cachedSettings), old(cacheLastUpdate), currentTime)
      ensures (frameSkipCounter, !rendered) == SkipStep(old(frameSkipCounter), frameSkipRate)
      ensures rendered ==> performanceManager.activeObjects == totalObjects
      ensures !rendered ==> performanceManager.activeObjects == old(performanceManager.activeObjects)
    {
      var _ := GetCachedSettings(currentTime);
      var skip := ShouldSkipFrame();
      if skip {
        return false;
      }
      performanceManager.RecordActiveObjects(totalObjects);
      return true;
    }

    /**
     * `createOptimizedEnemy`: takes graphics from the 'enemyGraphics' pool;
     * `None` when the pool is exhausted. Configuring the graphics reads the
     * cached settings at `currentTime`, which may refresh them.
     */
    method CreateOptimizedEnemy(enemyType: string, x: real, y: real, currentTime: real) returns (e: Option<OptimizedEnemy>)
      requires Valid()
      modifies if "enemyGraphics" in poolManager.pools then {poolManager.pools["enemyGraphics"]} else {}
      modifies this`cachedSettings, this`cacheLastUpdate
      ensures Valid() && poolManager.pools == old(poolManager.pools)
      ensures e.Some? ==> CacheFollows(old(cachedSettings), old(cacheLastUpdate), currentTime)
      ensures e.None? ==> cachedSettings == old(cachedSettings) && cacheLastUpdate == old(cacheLastUpdate)
      ensures "enemyGraphics" in poolManager.pools ==>
        var pool := poolManager.pools["enemyGraphics"];
        pool.maxSize == old(pool.maxSize)
        && (old(|pool.pool|) > 0 ==> pool.pool == old(pool.pool[..|pool.pool| - 1]))
        && (old(|pool.pool|) == 0 ==> pool.pool == [])
        && (e.None? ==> pool.State() == old(pool.State()))
      ensures e.Some? <==>
        "enemyGraphics" in poolManager.pools
        && (old(|poolManager.pools["enemyGraphics"].pool|) > 0
            || old(|poolManager.pools["enemyGraphics"].active|) < poolManager.pools["enemyGraphics"].maxSize)
      ensures e.Some? ==>
        e.value.gfx != null && e.value.pooled && e.value.enemyType == enemyType && e.value.x == x && e.value.y == y
        && poolManager.pools["enemyGraphics"].active == old(poolManager.pools["enemyGraphics"].active) + [e.value.gfx]
    {
      var gfx := poolManager.AcquireFromPool("enemyGraphics");
      if gfx == null {
        return None;
      }
      var _ := GetCachedSettings(currentTime);
      e := Some(OptimizedEnemy(gfx, enemyType, true, x, y));
    }

    /** `releaseOptimizedEnemy`: only a pooled enemy with graphics goes back to the pool. */
    method ReleaseOptimizedEnemy(e: OptimizedEnemy)
      requires Valid()
      modifies if "enemyGraphics" in poolManager.pools then {poolManager.pools["enemyGraphics"]} else {}
      ensures Valid() && poolManager.pools == old(poolManager.pools)
      ensures "enemyGraphics" in poolManager.pools ==>
        poolManager.pools["enemyGraphics"].State() ==
          if e.pooled && e.gfx != null
          then ObjectPooling.Released(old(poolManager.pools["enemyGraphics"].State()), poolManager.pools["enemyGraphics"].maxSize, e.gfx)
          else old(poolManager.pools["enemyGraphics"].State())
    {
      if e.pooled && e.gfx != null {
        var _ := poolManager.ReleaseToPool("enemyGraphics", e.gfx);
      }
    }

    /** `cleanup()`: clears the particles, releases every pool and empties the render queues. */
    method Cleanup()
      requires Valid()
      modifies particleSystem, poolManager.pools.Values, batchRenderer`circles, batchRenderer`lines
      modifies batchRenderer`polygons, batchRenderer`spriteCount
      ensures Valid() && poolManager.pools == old(poolManager.pools)
      ensures particleSystem.activeParticles == []
      ensures forall n :: n in poolManager.pools ==>
        poolManager.pools[n].active == [] && poolManager.pools[n].maxSize == old(poolManager.pools[n].maxSize)
      ensures var p := poolManager.pools["particles"];
        var afterClear := ObjectPooling.ReleasedAll(old(p.State()), p.maxSize, ObjectPooling.Handles(old(particleSystem.activeParticles)));
        p.State() == ObjectPooling.ReleasedAll(afterClear, p.maxSize, afterClear.active)
      ensures forall n :: n in poolManager.pools && n != "particles" ==>
        poolManager.pools[n].State() ==
          ObjectPooling.ReleasedAll(old(poolManager.pools[n].State()), poolManager.pools[n].maxSize, old(poolManager.pools[n].active))
      ensures batchRenderer.circles == [] && batchRenderer.lines == [] && batchRenderer.polygons == []
      ensures batchRenderer.spriteCount == 0
    {
      particleSystem.Clear();
      poolManager.ReleaseAllPools();
      batchRenderer.ClearRenderQueues();
    }

    /** `setQualityLevel(level)`. */
    method SetQualityLevel(level: real)
      modifies performanceManager`settings
      ensures performanceManager.settings == Performance.AtQualityLevel(old(performanceManager.settings), level)
    {
      performanceManager.SetQualityLevel(level);
    }

    /** `enableAdaptiveQuality()` and `disableAdaptiveQuality()`. */
    method SetAdaptiveQuality(on: bool)
      modifies performanceManager`settings
      ensures performanceManager.settings == old(performanceManager.settings).(adaptiveQuality := on)
    {
      performanceManager.settings := performanceManager.settings.(adaptiveQuality := on);
    }
  }
}
