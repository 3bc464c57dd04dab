/**
 * js/sound-engine.js: the musical transport of `EonwispSoundModule` (tempo,
 * bar length, the time of the next bar), its layer and sample tables, and
 * the clamps it applies before scheduling gain ramps. The audio graph itself
 * (nodes, ramps, decoding, fetching) is outside the model; the context's
 * `currentTime` is a parameter named `now`. A missing option (`undefined` or
 * `null`, which `??` replaces) is `None`.
 */
module SoundEngine {
  import opened Wrappers
  import opened JsValues
  import opened MathUtilities

  // ---------------------------------------------------------------------------
  // Transport arithmetic
  // ---------------------------------------------------------------------------

  /** `_getBarDuration()`: `beatsPerBar / (bpm / 60)`, the length of one bar in seconds. */
  function BarDuration(bpm: real, beatsPerBar: real): (d: real)
    requires bpm != 0.0
    ensures d * bpm == beatsPerBar * 60.0
    ensures bpm > 0.0 && beatsPerBar > 0.0 ==> d > 0.0
    ensures beatsPerBar != 0.0 ==> d != 0.0
  {
    var beatsPerSecond := bpm / 60.0;
    var d := beatsPerBar / beatsPerSecond;
    assert d * beatsPerSecond == beatsPerBar;
    assert d * bpm == d * beatsPerSecond * 60.0;
    d
  }

  /**
   * The arithmetic of `_getNextBarTime()` once a start time exists: the first
   * bar line after the bars already elapsed, pushed one bar later if it is
   * still before `now`.
   */
  function NextBarTime(start: real, bar: real, now: real): (t: real)
    requires bar != 0.0
    ensures IsInteger((t - start) / bar)
    ensures bar > 0.0 ==> now < t <= now + bar
  {
    var elapsed := now - start;
    var barsElapsed := (elapsed / bar).Floor;
    var next := start + (barsElapsed + 1) as real * bar;
    OnGrid(start, bar, barsElapsed + 1, next);
    OnGrid(start, bar, barsElapsed + 2, next + bar);
    FloorBracket(elapsed, bar, barsElapsed);
    if next < now then next + bar else next
  }

  /** A whole number of bars after `start` lies on the bar grid. */
  lemma {:induction false} OnGrid(start: real, bar: real, k: int, t: real)
    requires bar != 0.0 && t == start + k as real * bar
    ensures IsInteger((t - start) / bar)
  {
    var x := k as real;
    assert t - start == x * bar;
    DivOfProduct(x, bar);
    assert (t - start) / bar == x;
    assert x.Floor == k;
  }

  /** With `b` the floor of `e / bar`, `b` bars fit in `e` and `b + 1` bars do not. */
  lemma {:induction false} FloorBracket(e: real, bar: real, b: int)
    requires bar != 0.0 && b == (e / bar).Floor
    ensures bar > 0.0 ==> b as real * bar <= e < (b + 1) as real * bar
  {
    if bar > 0.0 {
      var q := e / bar;
      DivOfProduct(e, bar);
      assert q * bar == e;
      assert b as real <= q < (b + 1) as real;
      MulNonneg(q - b as real, bar);
      MulPos((b + 1) as real - q, bar);
      assert (q - b as real) * bar == e - b as real * bar;
      assert ((b + 1) as real - q) * bar == (b + 1) as real * bar - e;
    }
  }

  /** For a positive bar length the first candidate is never before `now`: the push is never taken. */
  lemma {:induction false} NextBarNoPush(start: real, bar: real, now: real)
    requires bar > 0.0
    ensures start + ((now - start) / bar).Floor as real * bar + bar > now
    ensures NextBarTime(start, bar, now) == start + (((now - start) / bar).Floor + 1) as real * bar
  {
    var b := ((now - start) / bar).Floor;
    FloorBracket(now - start, bar, b);
    assert (b + 1) as real * bar == b as real * bar + bar;
  }

  // ---------------------------------------------------------------------------
  // Clamps
  // ---------------------------------------------------------------------------

  /** `setMasterVolume`'s target: `Math.min(Math.max(value, 0), 1)`. */
  function MasterVolumeTarget(value: real): (v: real)
    ensures 0.0 <= v <= 1.0
    ensures 0.0 <= value <= 1.0 ==> v == value
    ensures value < 0.0 ==> v == 0.0
    ensures value > 1.0 ==> v == 1.0
  {
    MinR(MaxR(value, 0.0), 1.0)
  }

  /** The master-volume clamp is `clamp(value, 0, 1)` from the maths utilities. */
  lemma {:induction false} MasterVolumeIsClamp(value: real)
    ensures MasterVolumeTarget(value) == Clamp(value, 0.0, 1.0)
  {
  }

  /** A ramp's length, `Math.max(time, 0.01)`: never shorter than 10 ms. */
  function RampTime(time: real): (t: real)
    ensures t >= 0.01 && (t == time || t == 0.01)
    ensures time >= 0.01 ==> t == time
  {
    MaxR(time, 0.01)
  }

  /** `setLayerMix`'s target gain: `Math.max(0, gain)`. */
  function LayerMixTarget(gain: real): (g: real)
    ensures g >= 0.0
    ensures gain >= 0.0 ==> g == gain
    ensures gain < 0.0 ==> g == 0.0
  {
    MaxR(0.0, gain)
  }

  /** A scheduled linear ramp: the value to reach and the time to reach it. */
  datatype Ramp = Ramp(target: real, endTime: real)

  /** The options `playSample` reads; `None` is a missing option. */
  datatype SampleOptions = SampleOptions(
    attack: Option<real>, release: Option<real>, volume: Option<real>, playbackRate: Option<real>,
    loop: bool, when: Option<real>, sustain: Option<real>, duration: Option<real>)

  /** `options.x ?? fallback`. */
  function Default(x: Option<real>, fallback: real): real
  {
    if x.Some? then x.value else fallback
  }

  /** The envelope `playSample` schedules for one play of a sample. */
  datatype Envelope = Envelope(
    attack: real, release: real, volume: real, startTime: real, playDuration: real, stopTime: real,
    releaseStart: Option<real>)

  /**
   * The timing of `playSample(name, options)` for a buffer of `bufferDuration`
   * seconds: attack at least 1 ms, release at least 10 ms, and a non-looping
   * play never longer than the buffer at its playback rate.
   */
  function SamplePlan(bufferDuration: real, options: SampleOptions, now: real): (e: Envelope)
    requires Default(options.playbackRate, 1.0) != 0.0
    ensures e.attack >= 0.001 && e.release >= 0.01
    ensures e.startTime == Default(options.when, now) && e.stopTime == e.startTime + e.playDuration
    ensures !options.loop ==> e.playDuration <= bufferDuration / Default(options.playbackRate, 1.0)
    ensures !options.loop && options.duration.None? ==> e.playDuration <= e.attack + Default(options.sustain, 0.0) + e.release
    ensures !options.loop <==> e.releaseStart.Some?
    ensures !options.loop ==> e.releaseStart.value >= e.startTime + e.attack && e.releaseStart.value >= e.stopTime - e.release
    ensures options.loop && options.duration.Some? ==> e.playDuration == options.duration.value
  {
    var attack := MaxR(Default(options.attack, 0.01), 0.001);
    var release := MaxR(Default(options.release, 0.2), 0.01);
    var volume := Default(options.volume, 1.0);
    var playbackRate := Default(options.playbackRate, 1.0);
    var startTime := Default(options.when, now);
    var sustainDuration := Default(options.sustain, 0.0);
    var rawDuration := bufferDuration / playbackRate;
    var requestedDuration :=
      if options.duration.Some? then options.duration.value
      else if options.loop then rawDuration
      else MinR(rawDuration, attack + sustainDuration + release);
    var playDuration := if options.loop then requestedDuration else MinR(rawDuration, requestedDuration);
    var stopTime := startTime + playDuration;
    var releaseStart := if options.loop then None else Some(MaxR(stopTime - release, startTime + attack));
    Envelope(attack, release, volume, startTime, playDuration, stopTime, releaseStart)
  }

  // ---------------------------------------------------------------------------
  // The module object
  // ---------------------------------------------------------------------------

  /** A registered music layer; `playing` stands for a non-null `source`. */
  datatype Layer = Layer(
    name: string, bufferDuration: real, loop: bool, defaultGain: real, fadeTime: real, playing: bool,
    bpm: Option<real>, beatsPerBar: Option<real>)

  /** The options `registerMusicLayer` reads; `loop` is false only when given as `false`. */
  datatype LayerOptions = LayerOptions(
    loopFalse: bool, gain: Option<real>, fadeTime: Option<real>, bpm: Option<real>, beatsPerBar: Option<real>)

  /** The options `playMusicLayer` reads. */
  datatype PlayOptions = PlayOptions(
    startAtNextBar: Option<bool>, fadeTime: Option<real>, offset: Option<real>, targetGain: Option<real>,
    when: Option<real>)

  /** Where `playMusicLayer` starts the layer and the fade-in it schedules. */
  datatype LayerStart = LayerStart(startTime: real, offset: real, fadeIn: Ramp)

  class EonwispSoundModule {
    var bpm: real
    var beatsPerBar: real
    var startTime: Option<real>
    var masterVolume: real
    var layers: map<string, Layer>
    /** Loaded samples by name, each as its buffer's duration in seconds. */
    var samples: map<string, real>

    /** The transport can measure bars: both tempo settings are positive. */
    predicate Valid()
      reads this
    {
      bpm > 0.0 && beatsPerBar > 0.0
    }

    /** `new EonwispSoundModule(options)`: defaults 120 bpm, four beats a bar, volume 0.8, no start time. */
    constructor (bpmOption: Option<real>, beatsPerBarOption: Option<real>, masterVolumeOption: Option<real>)
      ensures bpm == Default(bpmOption, 120.0) && beatsPerBar == Default(beatsPerBarOption, 4.0)
      ensures masterVolume == Default(masterVolumeOption, 0.8)
      ensures startTime.None? && layers == map[] && samples == map[]
    {
      bpm := Default(bpmOption, 120.0);
      beatsPerBar := Default(beatsPerBarOption, 4.0);
      masterVolume := Default(masterVolumeOption, 0.8);
      startTime := None;
      layers := map[];
      samples := map[];
    }

    /**
     * `setTransport({ bpm, beatsPerBar })`: each setting changes only to a
     * positive number; the start time is set to `now` only if there was none.
     */
    method SetTransport(newBpm: Option<real>, newBeatsPerBar: Option<real>, now: real)
      modifies this`bpm, this`beatsPerBar, this`startTime
      ensures bpm == (if newBpm.Some? && newBpm.value > 0.0 then newBpm.value else old(bpm))
      ensures beatsPerBar == (if newBeatsPerBar.Some? && newBeatsPerBar.value > 0.0 then newBeatsPerBar.value else old(beatsPerBar))
      ensures startTime == (if old(startTime).None? then Some(now) else old(startTime))
      ensures old(Valid()) ==> Valid()
    {
      if newBpm.Some? && newBpm.value > 0.0 {
        bpm := newBpm.value;
      }
      if newBeatsPerBar.Some? && newBeatsPerBar.value > 0.0 {
        beatsPerBar := newBeatsPerBar.value;
      }
      if startTime.None? {
        startTime := Some(now);
      }
    }

    /** `unlock()` after the context has resumed: the same start-time rule as `setTransport`. */
    method Unlock(now: real)
      modifies this`startTime
      ensures startTime == (if old(startTime).None? then Some(now) else old(startTime))
    {
      if startTime.None? {
        startTime := Some(now);
      }
    }

    /**
     * `_getNextBarTime()`: with no start time yet, the transport starts now and
     * now is returned; otherwise the next bar line, which for a valid
     * transport lies after `now` and at most one bar later.
     */
    method GetNextBarTime(now: real) returns (t: real)
      requires bpm != 0.0 && beatsPerBar != 0.0
      modifies this`startTime
      ensures old(startTime).None? ==> t == now && startTime == Some(now)
      ensures old(startTime).Some? ==>
        startTime == old(startTime) && t == NextBarTime(startTime.value, BarDuration(bpm, beatsPerBar), now)
      ensures old(startTime).Some? && Valid() ==> now < t <= now + BarDuration(bpm, beatsPerBar)
    {
      if startTime.None? {
        startTime := Some(now);
        return now;
      }
      var barDuration := BarDuration(bpm, beatsPerBar);
      t := NextBarTime(startTime.value, barDuration, now);
    }

    /** `setMasterVolume(value, { time })`: the ramp to the clamped volume. */
    function MasterVolumeRamp(value: real, time: real, now: real): (r: Ramp)
      ensures 0.0 <= r.target <= 1.0 && r.endTime >= now + 0.01
    {
      Ramp(MasterVolumeTarget(value), now + RampTime(time))
    }

    /** `loadSample(name, url)` once the buffer is decoded. */
    method LoadSample(name: string, bufferDuration: real)
      modifies this`samples
      ensures samples == old(samples)[name := bufferDuration]
    {
      samples := samples[name := bufferDuration];
    }

    /** `registerMusicLayer(name, url, options)` once the buffer is decoded, then `_syncTransport(layer)`. */
    method RegisterMusicLayer(name: string, bufferDuration: real, options: LayerOptions, now: real)
      modifies this`layers, this`bpm, this`beatsPerBar, this`startTime
      ensures layers == old(layers)[name := Layer(name, bufferDuration, !options.loopFalse,
        Default(options.gain, 1.0), Default(options.fadeTime, 0.8), false, options.bpm, options.beatsPerBar)]
      ensures bpm == (if options.bpm.Some? && options.bpm.value > 0.0 then options.bpm.value else old(bpm))
      ensures beatsPerBar ==
        (if options.beatsPerBar.Some? && options.beatsPerBar.value > 0.0 then options.beatsPerBar.value else old(beatsPerBar))
      ensures startTime == (if old(startTime).None? then Some(now) else old(startTime))
      ensures old(Valid()) ==> Valid()
    {
      var layer := Layer(name, bufferDuration, !options.loopFalse, Default(options.gain, 1.0),
        Default(options.fadeTime, 0.8), false, options.bpm, options.beatsPerBar);
      layers := layers[name := layer];
      var syncBpm := if options.bpm.Some? then options.bpm else Some(bpm);
      var syncBeats := if options.beatsPerBar.Some? then options.beatsPerBar else Some(beatsPerBar);
      SetTransport(syncBpm, syncBeats, now);
    }

    /**
     * `playMusicLayer(name, options)`: an unregistered name throws and changes
     * nothing; otherwise the layer plays from the given time, the next bar or
     * 50 ms from now, fading in to its target gain.
     */
    method PlayMusicLayer(name: string, options: PlayOptions, now: real) returns (r: Result<LayerStart>)
      requires bpm != 0.0 && beatsPerBar != 0.0
      modifies this`layers, this`startTime
      ensures name !in old(layers) <==> r.Err?
      ensures r.Err? ==> layers == old(layers) && startTime == old(startTime)
      ensures r.Ok? ==> layers == old(layers)[name := old(layers)[name].(playing := true)]
      ensures r.Ok? ==> r.value.fadeIn.endTime >= r.value.startTime + 0.01
      ensures r.Ok? ==> r.value.offset == Default(options.offset, 0.0)
      ensures r.Ok? ==> r.value.fadeIn == Ramp(Default(options.targetGain, old(layers)[name].defaultGain),
        r.value.startTime + MaxR(Default(options.fadeTime, old(layers)[name].fadeTime), 0.01))
      ensures r.Ok? && options.when.Some? ==> r.value.startTime == options.when.value && startTime == old(startTime)
      ensures r.Ok? && options.when.None? && options.startAtNextBar == Some(false) ==>
        r.value.startTime == now + 0.05 && startTime == old(startTime)
      ensures r.Ok? && options.when.None? && options.startAtNextBar != Some(false) && old(startTime).None? ==>
        r.value.startTime == now && startTime == Some(now)
      ensures r.Ok? && options.when.None? && options.startAtNextBar != Some(false) && old(startTime).Some? ==>
        startTime == old(startTime)
        && r.value.startTime == NextBarTime(old(startTime).value, BarDuration(bpm, beatsPerBar), now)
      ensures r.Ok? && options.when.None? && options.startAtNextBar != Some(false) && old(startTime).Some? && Valid() ==>
        now < r.value.startTime <= now + BarDuration(bpm, beatsPerBar)
    {
      if name !in layers {
        return Err("Music layer \"" + name + "\" was not registered.");
      }
      var layer := layers[name];
      var startAtNextBar := if options.startAtNextBar.Some? then options.startAtNextBar.value else true;
      var fadeTime := MaxR(Default(options.fadeTime, layer.fadeTime), 0.01);
      var startOffset := Default(options.offset, 0.0);
      var targetGain := Default(options.targetGain, layer.defaultGain);
      var start: real;
      if options.when.Some? {
        start := options.when.value;
      } else if startAtNextBar {
        start := GetNextBarTime(now);
      } else {
        start := now + 0.05;
      }
      layers := layers[name := layer.(playing := true)];
      r := Ok(LayerStart(start, startOffset, Ramp(targetGain, start + fadeTime)));
    }

    /** `stopMusicLayer(name)`: a no-op for an unknown or silent layer; otherwise the layer stops. */
    method StopMusicLayer(name: string)
      modifies this`layers
      ensures name !in old(layers) || !old(layers)[name].playing ==> layers == old(layers)
      ensures name in old(layers) && old(layers)[name].playing ==>
        layers == old(layers)[name := old(layers)[name].(playing := false)]
      ensures name in layers ==> !layers[name].playing
    {
      if name !in layers || !layers[name].playing {
        return;
      }
      layers := layers[name := layers[name].(playing := false)];
    }

    /** `setLayerMix(name, gain, { fadeTime })`: unknown names throw; the target gain is never negative. */
    function LayerMix(name: string, gain: real, fadeTime: real, now: real): (r: Result<Ramp>)
      reads this
      ensures r.Ok? <==> name in layers
      ensures r.Ok? ==> r.value.target >= 0.0 && r.value.endTime >= now + 0.01
      ensures r.Ok? && gain >= 0.0 ==> r.value.target == gain
    {
      if name !in layers then Err("Music layer \"" + name + "\" was not registered.")
      else Ok(Ramp(LayerMixTarget(gain), now + RampTime(fadeTime)))
    }

    /** `playSample(name, options)`: a sample that was not loaded throws; otherwise its envelope. */
    function PlaySample(name: string, options: SampleOptions, now: real): (r: Result<Envelope>)
      reads this
      requires Default(options.playbackRate, 1.0) != 0.0
      ensures r.Ok? <==> name in samples
      ensures r.Ok? ==> r.value == SamplePlan(samples[name], options, now)
    {
      if name !in samples then Err("Sample \"" + name + "\" was not loaded.")
      else Ok(SamplePlan(samples[name], options, now))
    }

    /** `dispose()`: every layer stopped, then both tables cleared. */
    method Dispose()
      modifies this`layers, this`samples
      ensures layers == map[] && samples == map[]
    {
      layers := map[];
      samples := map[];
    }
  }
}
