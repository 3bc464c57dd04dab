/**
 * js/config/GameConfig.js: the tunable constants of the game as a JavaScript
 * object, and the three `ConfigUtils` helpers. The two entries the source
 * draws with `Math.random()` take the roll as a parameter; the power-up
 * spawn-interval functions are opaque.
 */
module GameConfiguration {
  import opened Wrappers
  import opened JsValues

  /** `core.baseRadius` and `physics.maxLength`. */
  const BaseRadius: real := 30.0
  const MaxLength: real := 190.0

  /** `audio.amScaleFrequencies`: the A-minor scale from A2 to A5, in hertz. */
  const AmScaleFrequencies: seq<real> := [
    110.0, 123.47, 130.81, 146.83, 164.81, 174.61, 196.0, 220.0,
    246.94, 261.63, 293.66, 329.63, 349.23, 392.0, 440.0, 493.88,
    523.25, 587.33, 659.25, 698.46, 783.99, 880.0]

  function NumList(xs: seq<real>): seq<Value>
  {
    seq(|xs|, i requires 0 <= i < |xs| => Num(xs[i]))
  }

  /** A JavaScript array as the object it is: its elements under "0", "1", … and its `length`. */
  function ArrayValue(elems: seq<Value>): Value
  {
    Obj(Indexed(elems)["length" := Num(|elems| as real)])
  }

  function Indexed(elems: seq<Value>): map<string, Value>
  {
    if |elems| == 0 then map[]
    else Indexed(elems[..|elems| - 1])[DecimalName(|elems| - 1) := elems[|elems| - 1]]
  }

  /** The decimal digits of `i`, as `String(i)` writes them. */
  function DecimalName(i: nat): string
  {
    if i < 10 then [('0' as int + i) as char] else DecimalName(i / 10) + [('0' as int + i % 10) as char]
  }

  /**
   * `GameConfig` with `core.healingSpawnTimer = 900 + healingRoll * 600` and
   * `timers.dangerWaveCooldown = 900 + cooldownRoll * 600`.
   */
  function DefaultConfig(healingRoll: real, cooldownRoll: real): (c: Value)
  {
    Obj(map[
      "physics" := Physics(), "visual" := Visual(), "combat" := Combat(), "effects" := Effects(),
      "mobile" := Mobile(), "core" := Core(healingRoll), "colors" := Colors(), "audio" := Audio(),
      "timers" := Timers(cooldownRoll), "powerUps" := PowerUps(), "upgrades" := Upgrades(), "spawning" := Spawning()])
  }

  function Physics(): Value
  {
    Obj(map["stiffness" := Num(0.0085), "damping" := Num(0.8), "impulseMultiplier" := Num(0.225),
      "gravityPull" := Num(1.42), "orbitalImpulse" := Num(0.135), "retractionForce" := Num(4.04),
      "maxLength" := Num(MaxLength), "overshoot" := Num(0.976), "snapBackStrength" := Num(0.575),
      "coreBrake" := Num(0.925)])
  }

  function Visual(): Value
  {
    Obj(map["minThickness" := Num(4.6), "maxThickness" := Num(24.3), "stretchScaleY" := Num(0.544),
      "squashScaleX" := Num(1.346), "rotationThreshold" := Num(8.1), "trailDuration" := Num(24.0),
      "trailSize" := Num(7.1)])
  }

  function Combat(): Value
  {
    Obj(map["enemyHealth" := Num(1.0), "criticalSpeed" := Num(4.3), "hitVibration" := Num(0.795),
      "critVibrationMultiplier" := Num(1.0)])
  }

  function Effects(): Value
  {
    Obj(map["slowMoStrength" := Num(0.04), "slowMoDuration" := Num(40.0), "cameraZoom" := Num(1.02),
      "splashAmount" := Num(65.0)])
  }

  function Mobile(): Value
  {
    Obj(map["accelerometerMultiplier" := Num(2.0), "deadzone" := Num(0.2), "invertX" := Bool(false),
      "invertY" := Bool(true), "controlMode" := Str("joystick")])
  }

  function Core(healingRoll: real): Value
  {
    Obj(map["baseRadius" := Num(BaseRadius), "choiceInterval" := Num(1800.0),
      "healingSpawnTimer" := Num(900.0 + healingRoll * 600.0)])
  }

  function Colors(): Value
  {
    Obj(map["coreBase" := Num(0xaaaaff as real), "dartNear" := Num(0xff6bff as real), "dartFar" := Num(0x3f1ca4 as real)])
  }

  function Audio(): Value
  {
    Obj(map["amScaleFrequencies" := ArrayValue(NumList(AmScaleFrequencies))])
  }

  function Timers(cooldownRoll: real): Value
  {
    Obj(map["enemySpawn" := Num(60.0), "dangerWaveCooldown" := Num(900.0 + cooldownRoll * 600.0),
      "dangerWaveWarning" := Num(90.0), "dangerWaveActive" := Num(240.0), "coreHit" := Num(20.0),
      "hitTimer" := Num(10.0), "vibration" := Num(15.0), "coreHealing" := Num(90.0)])
  }

  function PowerUps(): Value
  {
    Obj(map[
      "doubleSize" := Obj(map["spawnInterval" := Fn, "duration" := Num(180.0), "easeOutDuration" := Num(24.0),
        "sizeIncrease" := Num(0.2)]),
      "ropeSize" := Obj(map["spawnInterval" := Fn, "multiplier" := Num(1.1)]),
      "mirror" := Obj(map["spawnInterval" := Fn, "duration" := Num(720.0)])])
  }

  function Upgrades(): Value
  {
    Obj(map["newCore" := Obj(map[
      "size" := Obj(map["label" := Str("Mass Amplifier"), "color" := Num(0xffe066 as real), "bonus" := Num(0.25)]),
      "healing" := Obj(map["label" := Str("Eternal Pulse"), "color" := Num(0x7dfbff as real), "rate" := Num(1.2)]),
      "mirror" := Obj(map["label" := Str("Echo Twin"), "color" := Num(0x9cf9ff as real)])])])
  }

  function Spawning(): Value
  {
    Obj(map["enemySpawnIntensity" := Num(1.0), "enemySpeedMultiplier" := Num(1.0),
      "difficultyScaling" := Obj(map["intensity" := Num(1.1), "speed" := Num(1.05)])])
  }

  /** The entries the game state reads from the default configuration. */
  lemma {:induction false} DefaultEntries(healingRoll: real, cooldownRoll: real)
    ensures var c := DefaultConfig(healingRoll, cooldownRoll);
      NumberAt(c, ["core", "baseRadius"]) == Some(BaseRadius)
      && NumberAt(c, ["physics", "maxLength"]) == Some(MaxLength)
      && NumberAt(c, ["spawning", "enemySpawnIntensity"]) == Some(1.0)
      && NumberAt(c, ["spawning", "enemySpeedMultiplier"]) == Some(1.0)
      && NumberAt(c, ["timers", "dangerWaveCooldown"]) == Some(900.0 + cooldownRoll * 600.0)
  {
    DefaultCore(healingRoll, cooldownRoll);
    DefaultPhysics(healingRoll, cooldownRoll);
    DefaultSpawning(healingRoll, cooldownRoll);
    DefaultTimers(healingRoll, cooldownRoll);
  }

  lemma {:induction false} DefaultCore(healingRoll: real, cooldownRoll: real)
    ensures NumberAt(DefaultConfig(healingRoll, cooldownRoll), ["core", "baseRadius"]) == Some(BaseRadius)
  {
    Sections(healingRoll, cooldownRoll);
    NumberTwo(DefaultConfig(healingRoll, cooldownRoll), "core", Core(healingRoll), "baseRadius", BaseRadius);
  }

  lemma {:induction false} DefaultPhysics(healingRoll: real, cooldownRoll: real)
    ensures NumberAt(DefaultConfig(healingRoll, cooldownRoll), ["physics", "maxLength"]) == Some(MaxLength)
  {
    Sections(healingRoll, cooldownRoll);
    NumberTwo(DefaultConfig(healingRoll, cooldownRoll), "physics", Physics(), "maxLength", MaxLength);
  }

  lemma {:induction false} DefaultSpawning(healingRoll: real, cooldownRoll: real)
    ensures var c := DefaultConfig(healingRoll, cooldownRoll);
      NumberAt(c, ["spawning", "enemySpawnIntensity"]) == Some(1.0)
      && NumberAt(c, ["spawning", "enemySpeedMultiplier"]) == Some(1.0)
  {
    Sections(healingRoll, cooldownRoll);
    NumberTwo(DefaultConfig(healingRoll, cooldownRoll), "spawning", Spawning(), "enemySpawnIntensity", 1.0);
    NumberTwo(DefaultConfig(healingRoll, cooldownRoll), "spawning", Spawning(), "enemySpeedMultiplier", 1.0);
  }

  lemma {:induction false} DefaultTimers(healingRoll: real, cooldownRoll: real)
    ensures NumberAt(DefaultConfig(healingRoll, cooldownRoll), ["timers", "dangerWaveCooldown"])
      == Some(900.0 + cooldownRoll * 600.0)
  {
    Sections(healingRoll, cooldownRoll);
    NumberTwo(DefaultConfig(healingRoll, cooldownRoll), "timers", Timers(cooldownRoll), "dangerWaveCooldown",
      900.0 + cooldownRoll * 600.0);
  }

  /** The sections of the default configuration that the game state reads from. */
  lemma {:induction false} Sections(healingRoll: real, cooldownRoll: real)
    ensures var c := DefaultConfig(healingRoll, cooldownRoll);
      c.Obj? && "core" in c.fields && "physics" in c.fields && "spawning" in c.fields && "timers" in c.fields
      && c.fields["core"] == Core(healingRoll) && c.fields["physics"] == Physics()
      && c.fields["spawning"] == Spawning() && c.fields["timers"] == Timers(cooldownRoll)
  {
  }

  lemma {:induction false} NumberTwo(c: Value, k1: string, section: Value, k2: string, n: real)
    requires c.Obj? && k1 in c.fields && c.fields[k1] == section
    requires section.Obj? && k2 in section.fields && section.fields[k2] == Num(n)
    ensures NumberAt(c, [k1, k2]) == Some(n)
  {
    ReadTwo(c, k1, k2, Num(n));
  }

  lemma {:induction false} ReadTwo(c: Value, k1: string, k2: string, v: Value)
    requires c.Obj? && k1 in c.fields && c.fields[k1].Obj? && k2 in c.fields[k1].fields && c.fields[k1].fields[k2] == v
    ensures ReadPath(c, [k1, k2]) == Ok(v)
  {
    assert [k1, k2][1..] == [k2];
    assert [k2][1..] == [];
  }

  /** The core starts well inside the rope's reach: a core at base radius is never in danger. */
  lemma {:induction false} BaseRadiusBelowMaxLength()
    ensures BaseRadius < MaxLength
  {
  }

  /** The scale has 22 notes, strictly rising from 110 Hz to 880 Hz (three octaves). */
  lemma {:induction false} ScaleRises()
    ensures |AmScaleFrequencies| == 22
    ensures AmScaleFrequencies[0] == 110.0 && AmScaleFrequencies[21] == 880.0
    ensures forall i, j :: 0 <= i < j < |AmScaleFrequencies| ==> AmScaleFrequencies[i] < AmScaleFrequencies[j]
  {
    forall i, j | 0 <= i < j < |AmScaleFrequencies| ensures AmScaleFrequencies[i] < AmScaleFrequencies[j] {
      ScaleStep(i, j);
    }
  }

  lemma {:induction false} ScaleStep(i: nat, j: nat)
    requires i < j < |AmScaleFrequencies|
    ensures AmScaleFrequencies[i] < AmScaleFrequencies[j]
    decreases j - i
  {
    if i + 1 < j {
      ScaleStep(i + 1, j);
    }
  }

  /** `ConfigUtils.getRandomSpawnInterval(min, max)` with the roll of `Math.random()` given. */
  function RandomSpawnInterval(min: real, max: real, roll: real): real
  {
    (min + roll * (max - min)) * 60.0
  }

  /** For a roll in [0, 1) the interval lies between `min` and `max` seconds, counted in frames at 60 fps. */
  lemma {:induction false} SpawnIntervalWithin(min: real, max: real, roll: real)
    requires min <= max && 0.0 <= roll < 1.0
    ensures min * 60.0 <= RandomSpawnInterval(min, max, roll) <= max * 60.0
  {
    var d := roll * (max - min);
    MulNonneg(roll, max - min);
    MulNonneg(1.0 - roll, max - min);
    assert (1.0 - roll) * (max - min) == (max - min) - d;
    assert RandomSpawnInterval(min, max, roll) == min * 60.0 + d * 60.0;
  }

  lemma {:induction false} MulNonneg(a: real, b: real)
    requires a >= 0.0 && b >= 0.0
    ensures a * b >= 0.0
  {
  }

  /**
   * `ConfigUtils.getDynamicValue(baseValue, multiplier = 1, additive = 0)`:
   * an argument left out (`None`) takes its default.
   */
  function DynamicValue(baseValue: real, multiplier: Option<real>, additive: Option<real>): (r: real)
    ensures multiplier.None? && additive.None? ==> r == baseValue
    ensures multiplier.None? && additive.Some? ==> r == baseValue + additive.value
    ensures multiplier.Some? && additive.None? ==> r == baseValue * multiplier.value
  {
    var m := if multiplier.Some? then multiplier.value else 1.0;
    var a := if additive.Some? then additive.value else 0.0;
    baseValue * m + a
  }

  /** With a non-negative multiplier a larger base never gives a smaller value; with a positive one the order is strict. */
  lemma {:induction false} DynamicValueMonotone(b1: real, b2: real, m: real, a: real)
    requires b1 <= b2 && m >= 0.0
    ensures DynamicValue(b1, Some(m), Some(a)) <= DynamicValue(b2, Some(m), Some(a))
    ensures b1 < b2 && m > 0.0 ==> DynamicValue(b1, Some(m), Some(a)) < DynamicValue(b2, Some(m), Some(a))
  {
    MulNonneg(b2 - b1, m);
    assert b2 * m - b1 * m == (b2 - b1) * m;
    if b1 < b2 && m > 0.0 {
      MulPos(b2 - b1, m);
    }
  }

  /** Scaling twice is one scaling by the product, with the first additive scaled by the second multiplier. */
  lemma {:induction false} DynamicValueCompose(b: real, m1: real, a1: real, m2: real, a2: real)
    ensures DynamicValue(DynamicValue(b, Some(m1), Some(a1)), Some(m2), Some(a2))
         == DynamicValue(b, Some(m1 * m2), Some(a1 * m2 + a2))
  {
    assert (b * m1 + a1) * m2 == b * (m1 * m2) + a1 * m2;
  }

  /** A non-zero multiplier can be undone: the base is recovered from the value. */
  lemma {:induction false} DynamicValueInverse(b: real, m: real, a: real)
    requires m != 0.0
    ensures (DynamicValue(b, Some(m), Some(a)) - a) / m == b
  {
    assert (b * m + a - a) / m == b * m / m;
  }

  lemma {:induction false} MulPos(a: real, b: real)
    requires a > 0.0 && b > 0.0
    ensures a * b > 0.0
  {
  }

  /** `ConfigUtils.clampValue(value, min, max)`: `Math.max(min, Math.min(max, value))`. */
  function ClampValue(value: real, min: real, max: real): (r: real)
    ensures min <= max ==> min <= r <= max
    ensures min <= value <= max ==> r == value
    ensures value < min ==> r == min
    ensures min <= max < value ==> r == max
    ensures max < min ==> r == min
  {
    var upper := if max <= value then max else value;
    if min >= upper then min else upper
  }

  /** Clamping twice with the same bounds changes nothing more. */
  lemma {:induction false} ClampIdempotent(value: real, min: real, max: real)
    ensures ClampValue(ClampValue(value, min, max), min, max) == ClampValue(value, min, max)
  {
  }
}
