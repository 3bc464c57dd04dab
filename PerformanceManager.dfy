/**
 * The frame-rate monitor and adaptive-quality controller of
 * js/systems/PerformanceManager.js: a bounded history of frame samples, the
 * A/B/C/D grade, the degrade/restore hysteresis and the manual quality level.
 *
 * Frame times and clock readings are parameters. Numbers are mathematical
 * reals, so NaN is not a value: the average of an empty history, which is NaN
 * in JavaScript, is `None`, and every comparison with it is false.
 */
module Performance {
  import opened Wrappers

  /** `maxHistoryLength`: one second of samples at 60 frames per second. */
  const MaxHistoryLength: nat := 60
  /** `adaptiveCheckInterval`: the adaptive check runs every 180 time units. */
  const AdaptiveCheckInterval: real := 180.0
  /** The default `samples` argument of `getAverageFPS`. */
  const DefaultSamples: nat := 30

  datatype Grade = A | B | C | D

  /** The letter `getPerformanceGrade` returns. */
  function GradeName(g: Grade): (s: string)
    ensures |s| == 1
  {
    match g
    case A => "A"
    case B => "B"
    case C => "C"
    case D => "D"
  }

  /** The adjustable settings object. */
  datatype Settings = Settings(
    maxParticles: int,
    maxTrailPoints: int,
    cullDistance: real,
    batchSize: int,
    targetFPS: real,
    adaptiveQuality: bool,
    particleQuality: real,
    effectsQuality: real)

  const InitialSettings: Settings := Settings(200, 100, 1500.0, 100, 60.0, true, 1.0, 1.0)

  /** What `getOptimizedSettings` returns: the settings plus four derived fields. */
  datatype OptimizedSettings = OptimizedSettings(
    settings: Settings,
    shouldUseSimplifiedEffects: bool,
    shouldSkipNonEssentialUpdates: bool,
    particleMultiplier: real,
    effectsMultiplier: real)

  function Min(a: int, b: int): int { if a <= b then a else b }
  function MinReal(a: real, b: real): real { if a <= b then a else b }
  function MaxReal(a: real, b: real): real { if a >= b then a else b }

  // ---------------------------------------------------------------------------
  // History and average
  // ---------------------------------------------------------------------------

  /** The history after one push: the oldest sample is shifted off once the length passes `MaxHistoryLength`. */
  function Trimmed<T>(s: seq<T>): (r: seq<T>)
    requires |s| <= MaxHistoryLength + 1
    ensures |r| == Min(|s|, MaxHistoryLength)
    ensures r == s[|s| - |r|..]
  {
    if |s| > MaxHistoryLength then s[1..] else s
  }

  function Sum(s: seq<real>): real
  {
    if |s| == 0 then 0.0 else Sum(s[..|s| - 1]) + s[|s| - 1]
  }

  /**
   * The samples `getAverageFPS(samples)` averages: `slice(-k)` with
   * `k = min(samples, |h|)`; `slice(-0)` is the whole history.
   */
  function Recent(h: seq<real>, samples: nat): (r: seq<real>)
    ensures |r| == if samples == 0 then |h| else Min(samples, |h|)
    ensures r == h[|h| - |r|..]
  {
    var k := Min(samples, |h|);
    if k == 0 then h else h[|h| - k..]
  }

  /** `getAverageFPS(samples)`: the mean of the recent samples; `None` (NaN) exactly when the history is empty. */
  function AverageFPS(h: seq<real>, samples: nat): (avg: Option<real>)
    ensures avg.None? <==> |h| == 0
  {
    var r := Recent(h, samples);
    if |r| == 0 then None else Some(Sum(r) / (|r| as real))
  }

  lemma {:induction false} SumBounds(s: seq<real>, lo: real, hi: real)
    requires forall i :: 0 <= i < |s| ==> lo <= s[i] <= hi
    ensures (|s| as real) * lo <= Sum(s) <= (|s| as real) * hi
    decreases |s|
  {
    if |s| > 0 {
      var n := (|s| - 1) as real;
      SumBounds(s[..|s| - 1], lo, hi);
      assert (|s| as real) * lo == n * lo + lo;
      assert (|s| as real) * hi == n * hi + hi;
    }
  }

  /** The average lies between the smallest and the largest possible sample. */
  lemma {:induction false} AverageWithin(h: seq<real>, samples: nat, lo: real, hi: real)
    requires |h| > 0
    requires forall i :: 0 <= i < |h| ==> lo <= h[i] <= hi
    ensures AverageFPS(h, samples).Some?
    ensures lo <= AverageFPS(h, samples).value <= hi
  {
    var r := Recent(h, samples);
    forall i | 0 <= i < |r| ensures lo <= r[i] <= hi {
      assert r[i] == h[|h| - |r| + i];
    }
    SumBounds(r, lo, hi);
    var n := |r| as real;
    QuotientBounds(Sum(r), n, lo, hi);
  }

  lemma {:induction false} QuotientBounds(a: real, n: real, lo: real, hi: real)
    requires n > 0.0 && n * lo <= a <= n * hi
    ensures lo <= a / n <= hi
  {
    var q := a / n;
    assert q * n == a;
  }

  // ---------------------------------------------------------------------------
  // Grade
  // ---------------------------------------------------------------------------

  /** `getPerformanceGrade` for a given average and target; a NaN average is grade D. */
  function GradeOf(avg: Option<real>, target: real): (g: Grade)
    ensures g == A <==> avg.Some? && avg.value >= target * 0.9
    ensures g == B <==> avg.Some? && target * 0.7 <= avg.value < target * 0.9
    ensures g == C <==> avg.Some? && target * 0.5 <= avg.value < target * 0.7 && avg.value < target * 0.9
    ensures g == D <==> avg.None? || (avg.value < target * 0.5 && avg.value < target * 0.7 && avg.value < target * 0.9)
  {
    if avg.None? then D
    else if avg.value >= target * 0.9 then A
    else if avg.value >= target * 0.7 then B
    else if avg.value >= target * 0.5 then C
    else D
  }

  function Rank(g: Grade): nat
  {
    match g
    case D => 0
    case C => 1
    case B => 2
    case A => 3
  }

  /** A higher average never earns a worse grade. */
  lemma {:induction false} GradeMonotone(x: real, y: real, target: real)
    requires x <= y && target >= 0.0
    ensures Rank(GradeOf(Some(x), target)) <= Rank(GradeOf(Some(y), target))
  {
  }

  // ---------------------------------------------------------------------------
  // Adaptive quality
  // ---------------------------------------------------------------------------

  /** The part of the manager `updateAdaptiveQuality` reads and writes. */
  datatype AdaptiveState = AdaptiveState(timer: real, low: bool, settings: Settings)

  /** The reduction applied when the frame rate falls below 80% of the target. */
  function Degraded(s: Settings): (r: Settings)
    ensures r.targetFPS == s.targetFPS && r.adaptiveQuality == s.adaptiveQuality
    ensures r.particleQuality == s.particleQuality * 0.7 && r.effectsQuality == s.effectsQuality * 0.8
    ensures 0 <= s.maxParticles ==> 0 <= r.maxParticles <= s.maxParticles
    ensures 0 <= s.maxTrailPoints ==> 0 <= r.maxTrailPoints <= s.maxTrailPoints
    ensures s.maxParticles >= 2 ==> r.maxParticles < s.maxParticles
  {
    s.(particleQuality := s.particleQuality * 0.7,
       effectsQuality := s.effectsQuality * 0.8,
       maxParticles := ((s.maxParticles as real) * 0.6).Floor,
       maxTrailPoints := ((s.maxTrailPoints as real) * 0.7).Floor)
  }

  /** The restoration applied when the frame rate is back above 95% of the target; the limits are not restored. */
  function Restored(s: Settings): (r: Settings)
    ensures r.particleQuality <= 1.0 && r.effectsQuality <= 1.0
    ensures 0.0 <= s.particleQuality <= 1.0 ==> s.particleQuality <= r.particleQuality
    ensures 0.0 <= s.effectsQuality <= 1.0 ==> s.effectsQuality <= r.effectsQuality
    ensures r.maxParticles == s.maxParticles && r.maxTrailPoints == s.maxTrailPoints
  {
    s.(particleQuality := MinReal(1.0, s.particleQuality * 1.2),
       effectsQuality := MinReal(1.0, s.effectsQuality * 1.1))
  }

  /** `updateAdaptiveQuality(delta)` given the current average. */
  function Adapted(st: AdaptiveState, delta: real, avg: Option<real>): (r: AdaptiveState)
    ensures st.timer + delta < AdaptiveCheckInterval ==> r == st.(timer := st.timer + delta)
    ensures st.timer + delta >= AdaptiveCheckInterval ==> r.timer == 0.0
    ensures !st.low && r.low ==> avg.Some? && avg.value < st.settings.targetFPS * 0.8
    ensures st.low && !r.low ==> avg.Some? && avg.value > st.settings.targetFPS * 0.95
    ensures r.settings != st.settings ==> r.low != st.low
    ensures st.low && !r.low ==> r.settings.particleQuality <= 1.0 && r.settings.effectsQuality <= 1.0
    ensures r.settings.targetFPS == st.settings.targetFPS
    ensures st.timer + delta >= AdaptiveCheckInterval && !st.low && avg.Some? && avg.value < st.settings.targetFPS * 0.8
      ==> r == AdaptiveState(0.0, true, Degraded(st.settings))
    ensures st.timer + delta >= AdaptiveCheckInterval && st.low && avg.Some? && avg.value > st.settings.targetFPS * 0.95
      ==> r == AdaptiveState(0.0, false, Restored(st.settings))
    ensures st.timer + delta >= AdaptiveCheckInterval && r.low == st.low ==> r == st.(timer := 0.0)
  {
    var t := st.timer + delta;
    if t < AdaptiveCheckInterval then st.(timer := t)
    else
      var target := st.settings.targetFPS;
      if avg.Some? && avg.value < target * 0.8 && !st.low then
        AdaptiveState(0.0, true, Degraded(st.settings))
      else if avg.Some? && avg.value > target * 0.95 && st.low then
        AdaptiveState(0.0, false, Restored(st.settings))
      else
        st.(timer := 0.0)
  }

  /** Between the two thresholds nothing but the timer changes, in either mode: the hysteresis band. */
  lemma {:induction false} HysteresisBand(st: AdaptiveState, delta: real, v: real)
    requires st.settings.targetFPS * 0.8 <= v <= st.settings.targetFPS * 0.95
    ensures Adapted(st, delta, Some(v)).low == st.low
    ensures Adapted(st, delta, Some(v)).settings == st.settings
  {
  }

  /** A degrade followed at once by a restore brings the qualities back no higher than 1.0 and never below 84% of where they were. */
  lemma {:induction false} DegradeThenRestore(s: Settings)
    requires 0.0 <= s.particleQuality <= 1.0 && 0.0 <= s.effectsQuality <= 1.0
    ensures var r := Restored(Degraded(s));
      s.particleQuality * 0.84 <= r.particleQuality <= 1.0
      && s.effectsQuality * 0.88 <= r.effectsQuality <= 1.0
  {
  }

  // ---------------------------------------------------------------------------
  // Manual quality level
  // ---------------------------------------------------------------------------

  function Clamp01(level: real): (c: real)
    ensures 0.0 <= c <= 1.0
    ensures 0.0 <= level <= 1.0 ==> c == level
  {
    MaxReal(0.0, MinReal(1.0, level))
  }

  /** `setQualityLevel(level)`: both qualities become the clamped level and the limits follow it. */
  function AtQualityLevel(s: Settings, level: real): (r: Settings)
    ensures 0.0 <= r.particleQuality <= 1.0 && r.effectsQuality == r.particleQuality
    ensures 0.0 <= level <= 1.0 ==> r.particleQuality == level
    ensures 50 <= r.maxParticles <= 250 && 30 <= r.maxTrailPoints <= 130
    ensures r.targetFPS == s.targetFPS && r.adaptiveQuality == s.adaptiveQuality
  {
    var l := Clamp01(level);
    s.(particleQuality := l, effectsQuality := l,
       maxParticles := (200.0 * l + 50.0).Floor,
       maxTrailPoints := (100.0 * l + 30.0).Floor)
  }

  /** A higher level never gives fewer particles or trail points. */
  lemma {:induction false} QualityLevelMonotone(s: Settings, l1: real, l2: real)
    requires l1 <= l2
    ensures AtQualityLevel(s, l1).maxParticles <= AtQualityLevel(s, l2).maxParticles
    ensures AtQualityLevel(s, l1).maxTrailPoints <= AtQualityLevel(s, l2).maxTrailPoints
  {
    var c1, c2 := Clamp01(l1), Clamp01(l2);
    assert c1 <= c2;
    assert 200.0 * c1 + 50.0 <= 200.0 * c2 + 50.0;
  }

  // ---------------------------------------------------------------------------
  // The manager
  // ---------------------------------------------------------------------------

  class PerformanceManager {
    var fps: real
    var frameTime: real
    var drawCalls: nat
    var activeObjects: int
    var fpsHistory: seq<real>
    var frameTimeHistory: seq<real>
    var drawCallHistory: seq<nat>
    var lastFrameTime: real
    var frameCount: nat
    var settings: Settings
    var isLowPerformance: bool
    var adaptiveTimer: real

    /** The three histories grow together and never past `MaxHistoryLength`. */
    ghost predicate Valid()
      reads this
    {
      |fpsHistory| == |frameTimeHistory| == |drawCallHistory| <= MaxHistoryLength
    }

    function Adaptive(): AdaptiveState
      reads this`adaptiveTimer, this`isLowPerformance, this`settings
    {
      AdaptiveState(adaptiveTimer, isLowPerformance, settings)
    }

    /** `now` is the clock reading at construction. */
    constructor (now: real)
      ensures Valid() && fpsHistory == [] && drawCalls == 0 && frameCount == 0
      ensures settings == InitialSettings && !isLowPerformance && adaptiveTimer == 0.0
      ensures lastFrameTime == now
    {
      fps, frameTime, drawCalls, activeObjects := 60.0, 16.67, 0, 0;
      fpsHistory, frameTimeHistory, drawCallHistory := [], [], [];
      lastFrameTime, frameCount := now, 0;
      settings := InitialSettings;
      isLowPerformance, adaptiveTimer := false, 0.0;
    }

    /**
     * `update(deltaTime)` at clock reading `currentTime`: records the frame,
     * trims the histories, runs the adaptive check when enabled and resets the
     * per-frame draw-call counter.
     */
    method Update(deltaTime: real, currentTime: real)
      requires Valid() && currentTime > lastFrameTime
      modifies this`frameTime, this`fps, this`fpsHistory, this`frameTimeHistory, this`drawCallHistory
      modifies this`adaptiveTimer, this`isLowPerformance, this`settings, this`lastFrameTime, this`frameCount, this`drawCalls
      ensures Valid()
      ensures frameTime == currentTime - old(lastFrameTime) && fps == 1000.0 / frameTime
      ensures fpsHistory == Trimmed(old(fpsHistory) + [fps])
      ensures frameTimeHistory == Trimmed(old(frameTimeHistory) + [frameTime])
      ensures drawCallHistory == Trimmed(old(drawCallHistory) + [old(drawCalls)])
      ensures old(settings.adaptiveQuality) ==> Adaptive() == Adapted(old(Adaptive()), deltaTime, AverageFPS(fpsHistory, DefaultSamples))
      ensures !old(settings.adaptiveQuality) ==> Adaptive() == old(Adaptive())
      ensures drawCalls == 0 && lastFrameTime == currentTime && frameCount == old(frameCount) + 1
    {
      Measure(currentTime);
      RecordHistory();
      AdaptIfEnabled(deltaTime);
      lastFrameTime := currentTime;
      frameCount := frameCount + 1;
      drawCalls := 0;
    }

    /** The timing part of `update`: the frame's length in milliseconds and the rate it implies. */
    method Measure(currentTime: real)
      requires currentTime > lastFrameTime
      modifies this`frameTime, this`fps
      ensures frameTime == currentTime - lastFrameTime && fps == 1000.0 / frameTime
    {
      frameTime := currentTime - lastFrameTime;
      fps := 1000.0 / frameTime;
    }

    /** The history part of `update`: push the current samples, then shift the oldest off past `MaxHistoryLength`. */
    method RecordHistory()
      requires Valid()
      modifies this`fpsHistory, this`frameTimeHistory, this`drawCallHistory
      ensures Valid()
      ensures fpsHistory == Trimmed(old(fpsHistory) + [fps])
      ensures frameTimeHistory == Trimmed(old(frameTimeHistory) + [frameTime])
      ensures drawCallHistory == Trimmed(old(drawCallHistory) + [drawCalls])
    {
      fpsHistory := fpsHistory + [fps];
      frameTimeHistory := frameTimeHistory + [frameTime];
      drawCallHistory := drawCallHistory + [drawCalls];
      if |fpsHistory| > MaxHistoryLength {
        fpsHistory := fpsHistory[1..];
        frameTimeHistory := frameTimeHistory[1..];
        drawCallHistory := drawCallHistory[1..];
      }
    }

    /** The adaptive step of `update`, taken only when `adaptiveQuality` is on. */
    method AdaptIfEnabled(deltaTime: real)
      modifies this`adaptiveTimer, this`isLowPerformance, this`settings
      ensures old(settings.adaptiveQuality) ==> Adaptive() == Adapted(old(Adaptive()), deltaTime, AverageFPS(fpsHistory, DefaultSamples))
      ensures !old(settings.adaptiveQuality) ==> Adaptive() == old(Adaptive())
    {
      if settings.adaptiveQuality {
        UpdateAdaptiveQuality(deltaTime);
      }
    }

    /** `updateAdaptiveQuality(deltaTime)`. */
    method UpdateAdaptiveQuality(deltaTime: real)
      modifies this`adaptiveTimer, this`isLowPerformance, this`settings
      ensures Adaptive() == Adapted(old(Adaptive()), deltaTime, AverageFPS(fpsHistory, DefaultSamples))
    {
      adaptiveTimer := adaptiveTimer + deltaTime;
      if adaptiveTimer >= AdaptiveCheckInterval {
        var avgFPS := AverageFPS(fpsHistory, DefaultSamples);
        var targetFPS := settings.targetFPS;
        if avgFPS.Some? && avgFPS.value < targetFPS * 0.8 && !isLowPerformance {
          isLowPerformance := true;
          settings := Degraded(settings);
        } else if avgFPS.Some? && avgFPS.value > targetFPS * 0.95 && isLowPerformance {
          isLowPerformance := false;
          settings := Restored(settings);
        }
        adaptiveTimer := 0.0;
      }
    }

    /** `recordDrawCall`. */
    method RecordDrawCall()
      modifies this`drawCalls
      ensures drawCalls == old(drawCalls) + 1
    {
      drawCalls := drawCalls + 1;
    }

    /** `recordActiveObjects(count)`. */
    method RecordActiveObjects(count: int)
      modifies this`activeObjects
      ensures activeObjects == count
    {
      activeObjects := count;
    }

    /** `getPerformanceGrade`. */
    function Grade(): (g: Grade)
      reads this
      ensures fpsHistory == [] ==> g == D
    {
      GradeOf(AverageFPS(fpsHistory, DefaultSamples), settings.targetFPS)
    }

    /** `getOptimizedSettings`. */
    function Optimized(): (o: OptimizedSettings)
      reads this
      ensures o.settings == settings
      ensures o.shouldUseSimplifiedEffects == isLowPerformance
      ensures o.shouldSkipNonEssentialUpdates <==>
        fpsHistory != [] && AverageFPS(fpsHistory, DefaultSamples).value < settings.targetFPS * 0.6
      ensures o.particleMultiplier == settings.particleQuality && o.effectsMultiplier == settings.effectsQuality
    {
      var avg := AverageFPS(fpsHistory, DefaultSamples);
      OptimizedSettings(settings, isLowPerformance, avg.Some? && avg.value < settings.targetFPS * 0.6,
        settings.particleQuality, settings.effectsQuality)
    }

    /** `setQualityLevel(level)`. */
    method SetQualityLevel(level: real)
      modifies this`settings
      ensures settings == AtQualityLevel(old(settings), level)
    {
      var clamped := Clamp01(level);
      settings := settings.(particleQuality := clamped, effectsQuality := clamped,
        maxParticles := (200.0 * clamped + 50.0).Floor,
        maxTrailPoints := (100.0 * clamped + 30.0).Floor);
    }
  }
}
