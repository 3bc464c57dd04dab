/**
 * js/core/GameState.js: the central game state — score and combo bookkeeping,
 * the core radius and its danger state, game-flow flags, the size multiplier,
 * an event registry, run-time configuration updates along dotted paths, and
 * serialisation.
 *
 * Registered callbacks are foreign code: the model records, for every `emit`,
 * the event, its arguments and the callbacks it calls in order (the ghost
 * trace `emitted`), and leaves out what the callbacks do.
 */
module GameStates {
  import opened Wrappers
  import opened JsValues
  import GameConfiguration

  /** A registered callback, known by its identity only. */
  type Callback = nat

  /** One `emit(event, ...args)` and the callbacks it invoked, in order. */
  datatype Emission = Emission(event: string, args: seq<Value>, calls: seq<Callback>)

  datatype ScalePowerup = ScalePowerup(
    sizeIncrease: real, duration: real, easeOutDuration: real,
    originalSizeIncrease: real, isEasing: bool, easeTimer: real)

  /** A power-up as the object its event carries, one property per field. */
  function PowerupValue(p: ScalePowerup): Value
  {
    Obj(map["sizeIncrease" := Num(p.sizeIncrease), "duration" := Num(p.duration),
      "easeOutDuration" := Num(p.easeOutDuration), "originalSizeIncrease" := Num(p.originalSizeIncrease),
      "isEasing" := Bool(p.isEasing), "easeTimer" := Num(p.easeTimer)])
  }

  datatype PermanentEffects = PermanentEffects(sizeBonus: real, healingRate: real, mirrorTier: int)

  /** The core, spawning, size effects, upgrades and danger wave of a game state, read together. */
  datatype CoreStatus = CoreStatus(
    currentCoreRadius: real, isDangerState: bool, nextHitKills: bool,
    enemySpawnIntensity: Value, enemySpeedMultiplier: Value,
    doubleSize: real, sizeMultiplier: real, scalePowerups: seq<ScalePowerup>,
    permanentEffects: PermanentEffects, collectedUpgradeHistory: seq<string>,
    dangerWaveState: string, dangerWaveTimer: Value)

  /** The statistics and game-flow flags of a game state. */
  datatype Progress = Progress(
    score: int, kills: int, currentCombo: int, maxComboInGame: int, backshots: int, criticalHits: int,
    isPaused: bool, isGameOver: bool, isMobile: bool, experienceStarted: bool,
    playerState: string, isReturning: bool, coreRunCount: int)

  /** The statistics and flags `reset()` starts from: nothing scored, not paused, the player at the core. */
  const StartProgress := Progress(0, 0, 0, 0, 0, 0, false, false, false, false, "at_core", false, 0)

  /** What `serialize` returns. */
  datatype Snapshot = Snapshot(
    score: int, kills: int, currentCombo: int, maxComboInGame: int, backshots: int, criticalHits: int,
    coreRunCount: int, permanentEffects: PermanentEffects, collectedUpgradeHistory: seq<string>, config: Value)

  // ---------------------------------------------------------------------------
  // Callback lists
  // ---------------------------------------------------------------------------

  /** `callbacks.indexOf(cb)` for a registered callback. */
  function FirstIndex(s: seq<Callback>, cb: Callback): (i: nat)
    requires cb in s
    ensures i < |s| && s[i] == cb && cb !in s[..i]
  {
    if s[0] == cb then 0
    else
      var j := FirstIndex(s[1..], cb);
      assert s[..j + 1] == [s[0]] + s[1..][..j];
      j + 1
  }

  /** `callbacks.splice(callbacks.indexOf(cb), 1)` when present. */
  function RemoveFirst(s: seq<Callback>, cb: Callback): (r: seq<Callback>)
    ensures cb !in s ==> r == s
    ensures cb in s ==> |r| == |s| - 1
  {
    if |s| == 0 then []
    else if s[0] == cb then s[1..]
    else [s[0]] + RemoveFirst(s[1..], cb)
  }

  /** Only the first registration goes; the ones before and after it keep their order. */
  lemma {:induction false} RemoveFirstSplice(s: seq<Callback>, cb: Callback)
    requires cb in s
    ensures RemoveFirst(s, cb) == s[..FirstIndex(s, cb)] + s[FirstIndex(s, cb) + 1..]
  {
    if s[0] != cb {
      var t := s[1..];
      var j := FirstIndex(t, cb);
      assert FirstIndex(s, cb) == j + 1;
      RemoveFirstSplice(t, cb);
      assert RemoveFirst(s, cb) == [s[0]] + (t[..j] + t[j + 1..]);
      assert s[..j + 1] == [s[0]] + t[..j];
      assert s[j + 2..] == t[j + 1..];
    }
  }

  // ---------------------------------------------------------------------------
  // Dotted-path configuration updates
  // ---------------------------------------------------------------------------

  /**
   * The walk of `updateConfig`: a missing intermediate key gets a new empty
   * object; applying `in` to, or assigning into, a primitive throws a
   * TypeError. A function accepts both, but its own properties are not part
   * of `Value`, so a walk that reaches one leaves it as it is.
   */
  function SetPath(v: Value, keys: seq<string>, value: Value): (r: Result<Value>)
    requires |keys| >= 1
    ensures r.Ok? ==> v.Obj? || v.Fn?
    ensures v.Fn? ==> r == Ok(Fn)
    ensures r.Ok? && v.Obj? ==> r.value.Obj? && r.value.fields.Keys == v.fields.Keys + {keys[0]}
    ensures r.Ok? && v.Obj? ==> forall k :: k in v.fields && k != keys[0] ==> r.value.fields[k] == v.fields[k]
    ensures !v.Obj? && !v.Fn? ==> r.Err?
    decreases |keys|
  {
    if v.Fn? then Ok(Fn)
    else if !v.Obj? then Err("TypeError: cannot set '" + keys[0] + "'")
    else if |keys| == 1 then Ok(Obj(v.fields[keys[0] := value]))
    else
      var child := if keys[0] in v.fields then v.fields[keys[0]] else Obj(map[]);
      match SetPath(child, keys[1..], value)
      case Err(e) => Err(e)
      case Ok(c) => Ok(Obj(v.fields[keys[0] := c]))
  }

  /**
   * A write below a function-valued entry, such as `powerUps.doubleSize.spawnInterval.x`,
   * succeeds and leaves the entries as they are.
   */
  lemma {:induction false} SetPathIntoFunction(fields: map<string, Value>, k: string, rest: seq<string>, value: Value)
    requires k in fields && fields[k].Fn? && |rest| >= 1
    ensures SetPath(Obj(fields), [k] + rest, value) == Ok(Obj(fields))
  {
    assert ([k] + rest)[1..] == rest;
    assert SetPath(Fn, rest, value) == Ok(Fn);
    assert fields[k := Fn] == fields;
  }

  /** The walk of `updateConfig` reaches a function before it assigns the leaf. */
  predicate WalkMeetsFunction(v: Value, keys: seq<string>)
    requires |keys| >= 1
    decreases |keys|
  {
    v.Fn?
    || (v.Obj? && |keys| > 1
        && WalkMeetsFunction(if keys[0] in v.fields then v.fields[keys[0]] else Obj(map[]), keys[1..]))
  }

  /** `oldValue` of `updateConfig`: the leaf's value before the write, `undefined` where the walk creates objects. */
  function OldLeaf(v: Value, keys: seq<string>): Value
    requires |keys| >= 1
  {
    var parent := ReadPath(v, keys[..|keys| - 1]);
    if parent.Ok? then Get(parent.value, keys[|keys| - 1]) else Undefined
  }

  /** After a successful update, reading the path gives the new value. */
  lemma {:induction false} SetPathReadBack(v: Value, keys: seq<string>, value: Value)
    requires |keys| >= 1 && SetPath(v, keys, value).Ok? && !WalkMeetsFunction(v, keys)
    ensures ReadPath(SetPath(v, keys, value).value, keys) == Ok(value)
    decreases |keys|
  {
    var r := SetPath(v, keys, value).value;
    if |keys| > 1 {
      var child := if keys[0] in v.fields then v.fields[keys[0]] else Obj(map[]);
      SetPathReadBack(child, keys[1..], value);
    }
  }

  /**
   * Every other path reads as before, wherever it could be read before: a
   * path that leaves `keys` before the leaf is untouched.
   */
  lemma {:induction false} SetPathOthers(v: Value, keys: seq<string>, value: Value, p: seq<string>, j: nat)
    requires |keys| >= 1 && SetPath(v, keys, value).Ok?
    requires j < |keys| && j < |p| && p[..j] == keys[..j] && p[j] != keys[j]
    requires ReadPath(v, p).Ok?
    ensures ReadPath(SetPath(v, keys, value).value, p) == ReadPath(v, p)
    decreases |keys|
  {
    var r := SetPath(v, keys, value).value;
    if j > 0 {
      assert p[0] == keys[0] by { assert p[..j][0] == keys[..j][0]; }
      var child := if keys[0] in v.fields then v.fields[keys[0]] else Obj(map[]);
      assert p[1..][..j - 1] == keys[1..][..j - 1];
      assert keys[0] in v.fields;
      SetPathOthers(child, keys[1..], value, p[1..], j - 1);
    }
  }

  // ---------------------------------------------------------------------------
  // Sets in insertion order
  // ---------------------------------------------------------------------------

  /** `new Set(xs)` read back with `Array.from`: duplicates dropped, first occurrences kept in order. */
  function Dedup(xs: seq<string>): (r: seq<string>)
    ensures forall x :: x in r <==> x in xs
    ensures Unique(r)
  {
    if |xs| == 0 then []
    else
      var d := Dedup(xs[..|xs| - 1]);
      if xs[|xs| - 1] in d then d else d + [xs[|xs| - 1]]
  }

  predicate Unique(s: seq<string>)
  {
    forall i, j :: 0 <= i < j < |s| ==> s[i] != s[j]
  }

  /** A list without duplicates survives the round trip through a `Set` unchanged. */
  lemma {:induction false} DedupUnique(xs: seq<string>)
    requires Unique(xs)
    ensures Dedup(xs) == xs
    decreases |xs|
  {
    if |xs| > 0 {
      var init := xs[..|xs| - 1];
      DedupUnique(init);
      assert xs[|xs| - 1] !in init;
      assert init + [xs[|xs| - 1]] == xs;
    }
  }

  // ---------------------------------------------------------------------------
  // The size multiplier
  // ---------------------------------------------------------------------------

  function SumIncrease(ps: seq<ScalePowerup>): real
  {
    if |ps| == 0 then 0.0 else SumIncrease(ps[..|ps| - 1]) + ps[|ps| - 1].sizeIncrease
  }

  /** Adding a power-up adds exactly its own size increase. */
  lemma {:induction false} SumIncreaseSnoc(ps: seq<ScalePowerup>, p: ScalePowerup)
    ensures SumIncrease(ps + [p]) == SumIncrease(ps) + p.sizeIncrease
  {
    assert (ps + [p])[..|ps|] == ps;
  }

  /** Power-ups that only grow keep the multiplier at least `1 + sizeBonus`. */
  lemma {:induction false} SumIncreaseNonneg(ps: seq<ScalePowerup>)
    requires forall i :: 0 <= i < |ps| ==> ps[i].sizeIncrease >= 0.0
    ensures SumIncrease(ps) >= 0.0
    decreases |ps|
  {
    if |ps| > 0 {
      SumIncreaseNonneg(ps[..|ps| - 1]);
    }
  }

  // ---------------------------------------------------------------------------
  // The game state
  // ---------------------------------------------------------------------------

  /** The configuration entries `reset` reads, present and numeric where it needs a number. */
  /** `config.<section>` can be read through: neither the configuration nor the section is `undefined` or `null`. */
  predicate HasSection(config: Value, section: string)
  {
    !(config.Undefined? || config.Null?) && !(Get(config, section).Undefined? || Get(config, section).Null?)
  }

  /** What `config.<section>.<key>` reads once the section can be read through. */
  function Entry(config: Value, section: string, key: string): Value
  {
    Get(Get(config, section), key)
  }

  /** A two-step read succeeds exactly when the section can be read through, and then finds `Entry`. */
  lemma {:induction false} EntryIsRead(config: Value, section: string, key: string)
    ensures ReadPath(config, [section, key]).Ok? <==> HasSection(config, section)
    ensures HasSection(config, section) ==> ReadPath(config, [section, key]) == Ok(Entry(config, section, key))
  {
    assert [section, key][1..] == [key];
    assert [key][1..] == [];
  }

  /**
   * The core status `reset()` leaves: the core at the configured base radius and out of
   * danger, spawning pressure as configured, no size effects, no upgrades, and the danger
   * wave cooling down for the configured time; `None` where one of the reads
   * throws (a section that is missing) or the base radius is not a number.
   */
  function StartCore(config: Value): Option<CoreStatus>
  {
    if HasSection(config, "core") && Entry(config, "core", "baseRadius").Num?
      && HasSection(config, "spawning") && HasSection(config, "timers")
    then
      Some(CoreStatus(Entry(config, "core", "baseRadius").n, false, false,
        Entry(config, "spawning", "enemySpawnIntensity"), Entry(config, "spawning", "enemySpeedMultiplier"),
        0.0, 1.0, [], PermanentEffects(0.0, 0.0, 0), [], "cooldown", Entry(config, "timers", "dangerWaveCooldown")))
    else None
  }

  /**
   * A configuration `reset` can run over: every section it reads through is
   * there, and the base radius is a number, as the real `currentCoreRadius` needs.
   */
  predicate ResettableConfig(config: Value)
  {
    StartCore(config).Some?
  }

  /** `ResettableConfig` holds exactly when every read `reset` performs succeeds, the first one with a number. */
  lemma {:induction false} ResettableReads(config: Value)
    ensures ResettableConfig(config) <==>
      NumberAt(config, ["core", "baseRadius"]).Some?
      && ReadPath(config, ["spawning", "enemySpawnIntensity"]).Ok?
      && ReadPath(config, ["spawning", "enemySpeedMultiplier"]).Ok?
      && ReadPath(config, ["timers", "dangerWaveCooldown"]).Ok?
    ensures ResettableConfig(config) ==>
      NumberAt(config, ["core", "baseRadius"]) == Some(Entry(config, "core", "baseRadius").n)
      && ReadPath(config, ["spawning", "enemySpawnIntensity"]) == Ok(Entry(config, "spawning", "enemySpawnIntensity"))
      && ReadPath(config, ["spawning", "enemySpeedMultiplier"]) == Ok(Entry(config, "spawning", "enemySpeedMultiplier"))
      && ReadPath(config, ["timers", "dangerWaveCooldown"]) == Ok(Entry(config, "timers", "dangerWaveCooldown"))
  {
    EntryIsRead(config, "core", "baseRadius");
    EntryIsRead(config, "spawning", "enemySpawnIntensity");
    EntryIsRead(config, "spawning", "enemySpeedMultiplier");
    EntryIsRead(config, "timers", "dangerWaveCooldown");
  }

  /**
   * The constructor as written runs `reset()` before `this.config` exists, so
   * the very first read, `this.config.core`, is a read of `undefined`.
   */
  function ConstructorFirstRead(): (r: Result<Value>)
    ensures r.Err?
  {
    ReadPath(Undefined, ["core", "baseRadius"])
  }

  /** The default configuration holds every entry `reset` reads, with the values the game state starts from. */
  lemma {:induction false} DefaultResettable(healingRoll: real, cooldownRoll: real)
    ensures var c := GameConfiguration.DefaultConfig(healingRoll, cooldownRoll);
      ResettableConfig(c)
      && NumberAt(c, ["core", "baseRadius"]).value == GameConfiguration.BaseRadius
      && ReadPath(c, ["timers", "dangerWaveCooldown"]).value == Num(900.0 + cooldownRoll * 600.0)
  {
    GameConfiguration.DefaultEntries(healingRoll, cooldownRoll);
    ResettableReads(GameConfiguration.DefaultConfig(healingRoll, cooldownRoll));
  }

  class GameState {
    var score: int
    var kills: int
    var currentCombo: int
    var maxComboInGame: int
    var backshots: int
    var criticalHits: int
    var isPaused: bool
    var isGameOver: bool
    var isMobile: bool
    var experienceStarted: bool
    var playerState: string
    var isReturning: bool
    var currentCoreRadius: real
    var isDangerState: bool
    var nextHitKills: bool
    var coreRunCount: int
    var enemySpawnIntensity: Value
    var enemySpeedMultiplier: Value
    var doubleSize: real
    var sizeMultiplier: real
    var scalePowerups: seq<ScalePowerup>
    var permanentEffects: PermanentEffects
    /** A `Set` of upgrade names, in insertion order. */
    var collectedUpgradeHistory: seq<string>
    var dangerWaveState: string
    var dangerWaveTimer: Value
    var config: Value
    var callbacks: map<string, seq<Callback>>
    ghost var emitted: seq<Emission>

    /** The callbacks `emit(event)` calls, in registration order. */
    function CallsFor(event: string): (cs: seq<Callback>)
      reads this
      ensures event !in callbacks ==> cs == []
    {
      if event in callbacks then callbacks[event] else []
    }

    /** Statistics and game-flow flags as `reset()` leaves them. */
    predicate ProgressAtStart()
      reads this`score, this`kills, this`currentCombo, this`maxComboInGame, this`backshots, this`criticalHits
      reads this`isPaused, this`isGameOver, this`isMobile, this`experienceStarted, this`playerState, this`isReturning
      reads this`coreRunCount
    {
      ProgressNow() == StartProgress
    }

    /** The statistics and game-flow flags. */
    function ProgressNow(): Progress
      reads this`score, this`kills, this`currentCombo, this`maxComboInGame, this`backshots, this`criticalHits
      reads this`isPaused, this`isGameOver, this`isMobile, this`experienceStarted, this`playerState, this`isReturning
      reads this`coreRunCount
    {
      Progress(score, kills, currentCombo, maxComboInGame, backshots, criticalHits,
        isPaused, isGameOver, isMobile, experienceStarted, playerState, isReturning, coreRunCount)
    }

    /** The core, spawning, effects and danger wave as `reset()` leaves them, read from the configuration. */
    predicate CoreAtStart()
      reads this`config, this`currentCoreRadius, this`isDangerState, this`nextHitKills
      reads this`enemySpawnIntensity, this`enemySpeedMultiplier, this`doubleSize, this`sizeMultiplier
      reads this`scalePowerups, this`permanentEffects, this`collectedUpgradeHistory
      reads this`dangerWaveState, this`dangerWaveTimer
    {
      StartCore(config) == Some(CoreNow())
    }

    /** The core, spawning, effects and danger wave. */
    function CoreNow(): CoreStatus
      reads this`currentCoreRadius, this`isDangerState, this`nextHitKills
      reads this`enemySpawnIntensity, this`enemySpeedMultiplier, this`doubleSize, this`sizeMultiplier
      reads this`scalePowerups, this`permanentEffects, this`collectedUpgradeHistory
      reads this`dangerWaveState, this`dangerWaveTimer
    {
      CoreStatus(currentCoreRadius, isDangerState, nextHitKills, enemySpawnIntensity, enemySpeedMultiplier,
        doubleSize, sizeMultiplier, scalePowerups, permanentEffects, collectedUpgradeHistory,
        dangerWaveState, dangerWaveTimer)
    }

    /**
     * A fresh state over the game configuration (the default one is
     * `GameConfiguration.DefaultConfig`, see `DefaultResettable`), which is
     * assigned before `reset` runs. The source's copy is shallow; here the
     * configuration is a value, so sections are not shared between states.
     */
    constructor (gameConfig: Value)
      requires ResettableConfig(gameConfig)
      ensures config == gameConfig && callbacks == map[] && emitted == []
      ensures ProgressAtStart() && CoreAtStart()
    {
      config := gameConfig;
      callbacks := map[];
      emitted := [];
      new;
      Reset();
    }

    /** `reset()`: every statistic, flag and effect back to its start value; configuration and callbacks stay. */
    method Reset()
      requires ResettableConfig(config)
      modifies this`score, this`kills, this`currentCombo, this`maxComboInGame, this`backshots, this`criticalHits
      modifies this`isPaused, this`isGameOver, this`isMobile, this`experienceStarted, this`playerState, this`isReturning
      modifies this`currentCoreRadius, this`isDangerState, this`nextHitKills, this`coreRunCount
      modifies this`enemySpawnIntensity, this`enemySpeedMultiplier, this`doubleSize, this`sizeMultiplier
      modifies this`scalePowerups, this`permanentEffects, this`collectedUpgradeHistory
      modifies this`dangerWaveState, this`dangerWaveTimer
      ensures ProgressAtStart()
      ensures CoreAtStart()
      ensures unchanged(this`callbacks, this`emitted)
    {
      ResetCore();
      ResetProgress();
    }

    /** The statistics and game-flow half of `reset()`. */
    method ResetProgress()
      modifies this`score, this`kills, this`currentCombo, this`maxComboInGame, this`backshots, this`criticalHits
      modifies this`isPaused, this`isGameOver, this`isMobile, this`experienceStarted, this`playerState, this`isReturning
      modifies this`coreRunCount
      ensures ProgressAtStart()
      ensures CoreNow() == old(CoreNow()) && unchanged(this`config, this`callbacks, this`emitted)
    {
      ResetStats();
      ResetFlow();
    }

    /** Score, kills, combos, backshots, critical hits and core runs back to zero. */
    method ResetStats()
      modifies this`score, this`kills, this`currentCombo, this`maxComboInGame, this`backshots, this`criticalHits
      modifies this`coreRunCount
      ensures score == 0 && kills == 0 && currentCombo == 0 && maxComboInGame == 0 && backshots == 0
      ensures criticalHits == 0 && coreRunCount == 0
    {
      score, kills, currentCombo, maxComboInGame, backshots, criticalHits := 0, 0, 0, 0, 0, 0;
      coreRunCount := 0;
    }

    /** The game-flow flags and the player's position back to the start of a run. */
    method ResetFlow()
      modifies this`isPaused, this`isGameOver, this`isMobile, this`experienceStarted, this`playerState, this`isReturning
      ensures !isPaused && !isGameOver && !isMobile && !experienceStarted
      ensures playerState == "at_core" && !isReturning
    {
      isPaused, isGameOver, isMobile, experienceStarted := false, false, false, false;
      playerState, isReturning := "at_core", false;
    }

    /** The core, spawning, effects and danger-wave half of `reset()`, read from the configuration. */
    method ResetCore()
      requires ResettableConfig(config)
      modifies this`currentCoreRadius, this`isDangerState, this`nextHitKills
      modifies this`enemySpawnIntensity, this`enemySpeedMultiplier, this`doubleSize, this`sizeMultiplier
      modifies this`scalePowerups, this`permanentEffects, this`collectedUpgradeHistory
      modifies this`dangerWaveState, this`dangerWaveTimer
      ensures CoreAtStart()
      ensures unchanged(this`callbacks, this`emitted)
    {
      ResetDanger();
      ResetGrowth();
    }

    /** The core radius, its danger flags and the danger-wave timer. */
    method ResetDanger()
      requires ResettableConfig(config)
      modifies this`currentCoreRadius, this`isDangerState, this`nextHitKills, this`dangerWaveState, this`dangerWaveTimer
      ensures currentCoreRadius == Entry(config, "core", "baseRadius").n && !isDangerState && !nextHitKills
      ensures dangerWaveState == "cooldown" && dangerWaveTimer == Entry(config, "timers", "dangerWaveCooldown")
    {
      currentCoreRadius := Entry(config, "core", "baseRadius").n;
      isDangerState, nextHitKills := false, false;
      dangerWaveState := "cooldown";
      dangerWaveTimer := Entry(config, "timers", "dangerWaveCooldown");
    }

    /** Spawning pressure, size effects, permanent effects and the upgrade history. */
    method ResetGrowth()
      requires ResettableConfig(config)
      modifies this`enemySpawnIntensity, this`enemySpeedMultiplier, this`doubleSize, this`sizeMultiplier
      modifies this`scalePowerups, this`permanentEffects, this`collectedUpgradeHistory
      ensures enemySpawnIntensity == Entry(config, "spawning", "enemySpawnIntensity")
      ensures enemySpeedMultiplier == Entry(config, "spawning", "enemySpeedMultiplier")
      ensures doubleSize == 0.0 && sizeMultiplier == 1.0 && scalePowerups == []
      ensures permanentEffects == PermanentEffects(0.0, 0.0, 0) && collectedUpgradeHistory == []
    {
      enemySpawnIntensity := Entry(config, "spawning", "enemySpawnIntensity");
      enemySpeedMultiplier := Entry(config, "spawning", "enemySpeedMultiplier");
      doubleSize, sizeMultiplier, scalePowerups := 0.0, 1.0, [];
      permanentEffects := PermanentEffects(0.0, 0.0, 0);
      collectedUpgradeHistory := [];
    }

    /** `on(event, callback)`: appended after the callbacks already registered for the event. */
    method On(event: string, cb: Callback)
      modifies this`callbacks
      ensures callbacks == old(callbacks)[event := old(CallsFor(event)) + [cb]]
    {
      if event !in callbacks {
        callbacks := callbacks[event := []];
      }
      callbacks := callbacks[event := callbacks[event] + [cb]];
    }

    /** `off(event, callback)`: drops the first registration of the callback; unknown events and callbacks change nothing. */
    method Off(event: string, cb: Callback)
      modifies this`callbacks
      ensures event !in old(callbacks) ==> callbacks == old(callbacks)
      ensures event in old(callbacks) ==> callbacks == old(callbacks)[event := RemoveFirst(old(callbacks)[event], cb)]
      ensures event in old(callbacks) && cb !in old(callbacks)[event] ==> callbacks == old(callbacks)
    {
      if event !in callbacks {
        return;
      }
      callbacks := callbacks[event := RemoveFirst(callbacks[event], cb)];
    }

    /** `emit(event, ...args)`: calls the event's callbacks in registration order. */
    method Emit(event: string, args: seq<Value>)
      modifies this`emitted
      ensures emitted == old(emitted) + [Emission(event, args, CallsFor(event))]
    {
      emitted := emitted + [Emission(event, args, CallsFor(event))];
    }

    /** `addScore(points)`. */
    method AddScore(points: int)
      modifies this`score, this`emitted
      ensures score == old(score) + points
      ensures emitted == old(emitted) + [Emission("scoreChanged", [Num(score as real), Num(old(score) as real)], CallsFor("scoreChanged"))]
    {
      var oldScore := score;
      score := score + points;
      Emit("scoreChanged", [Num(score as real), Num(oldScore as real)]);
    }

    /** `addKill()`. */
    method AddKill()
      modifies this`kills, this`emitted
      ensures kills == old(kills) + 1
      ensures emitted == old(emitted) + [Emission("killAdded", [Num(kills as real)], CallsFor("killAdded"))]
    {
      kills := kills + 1;
      Emit("killAdded", [Num(kills as real)]);
    }

    /** `updateCombo(newCombo)`: the in-game maximum never decreases and is at least the current combo. */
    method UpdateCombo(newCombo: int)
      modifies this`currentCombo, this`maxComboInGame, this`emitted
      ensures currentCombo == newCombo
      ensures maxComboInGame >= old(maxComboInGame) && maxComboInGame >= currentCombo
      ensures maxComboInGame == old(maxComboInGame) || maxComboInGame == newCombo
      ensures emitted == old(emitted) +
        [Emission("comboChanged", [Num(newCombo as real), Num(old(currentCombo) as real)], CallsFor("comboChanged"))]
    {
      var oldCombo := currentCombo;
      currentCombo := newCombo;
      maxComboInGame := if maxComboInGame >= newCombo then maxComboInGame else newCombo;
      Emit("comboChanged", [Num(currentCombo as real), Num(oldCombo as real)]);
    }

    /** What `updateCoreRadius` emits before `coreRadiusChanged`: an event only when the danger state flips. */
    static function DangerEvents(wasInDanger: bool, inDanger: bool): (events: seq<string>)
      ensures |events| <= 1
      ensures events == [] <==> wasInDanger == inDanger
    {
      if inDanger && !wasInDanger then ["dangerStateEntered"]
      else if !inDanger && wasInDanger then ["dangerStateExited"]
      else []
    }

    /**
     * `updateCoreRadius(newRadius)`: never below the base radius; in danger
     * exactly when beyond `physics.maxLength` as `>` converts it (`null` is 0,
     * a numeric string its number, anything else NaN, which compares false);
     * entering danger arms `nextHitKills`. Reading `core.baseRadius` or
     * `physics.maxLength` through a missing section throws: `ok` is false, and
     * in the second case the radius has already been written.
     */
    method UpdateCoreRadius(newRadius: real) returns (ok: bool)
      requires ReadPath(config, ["core", "baseRadius"]).Ok? ==> ToNumber(ReadPath(config, ["core", "baseRadius"]).value).Some?
      modifies this`currentCoreRadius, this`isDangerState, this`nextHitKills, this`emitted
      ensures var base := ReadPath(config, ["core", "baseRadius"]);
        base.Err? ==> !ok && currentCoreRadius == old(currentCoreRadius)
      ensures var base := ReadPath(config, ["core", "baseRadius"]);
        base.Ok? ==> var b := ToNumber(base.value).value;
          currentCoreRadius >= b && currentCoreRadius >= newRadius && (currentCoreRadius == b || currentCoreRadius == newRadius)
      ensures ok <==> ReadPath(config, ["core", "baseRadius"]).Ok? && ReadPath(config, ["physics", "maxLength"]).Ok?
      ensures !ok ==> isDangerState == old(isDangerState) && nextHitKills == old(nextHitKills) && emitted == old(emitted)
      ensures ok ==> (isDangerState <==> Exceeds(currentCoreRadius, ReadPath(config, ["physics", "maxLength"]).value))
      ensures ok ==> nextHitKills == if isDangerState && !old(isDangerState) then true else old(nextHitKills)
      ensures ok ==> var danger := DangerEvents(old(isDangerState), isDangerState);
        emitted == old(emitted)
          + (if danger == [] then [] else [Emission(danger[0], [], CallsFor(danger[0]))])
          + [Emission("coreRadiusChanged", [Num(currentCoreRadius), Num(old(currentCoreRadius))], CallsFor("coreRadiusChanged"))]
    {
      var oldRadius := currentCoreRadius;
      var baseRead := ReadPath(config, ["core", "baseRadius"]);
      if baseRead.Err? {
        return false;
      }
      var base := ToNumber(baseRead.value).value;
      currentCoreRadius := if base >= newRadius then base else newRadius;
      var wasInDanger := isDangerState;
      var maxLength := ReadPath(config, ["physics", "maxLength"]);
      if maxLength.Err? {
        return false;
      }
      isDangerState := Exceeds(currentCoreRadius, maxLength.value);
      if isDangerState && !wasInDanger {
        nextHitKills := true;
        Emit("dangerStateEntered", []);
      } else if !isDangerState && wasInDanger {
        Emit("dangerStateExited", []);
      }
      Emit("coreRadiusChanged", [Num(currentCoreRadius), Num(oldRadius)]);
      ok := true;
    }

    /** `setPlayerState(newState)`: changes and emits only when the state differs. */
    method SetPlayerState(newState: string)
      modifies this`playerState, this`emitted
      ensures playerState == newState
      ensures old(playerState) == newState ==> emitted == old(emitted)
      ensures old(playerState) != newState ==>
        emitted == old(emitted) + [Emission("playerStateChanged", [Str(newState), Str(old(playerState))], CallsFor("playerStateChanged"))]
    {
      var oldState := playerState;
      if oldState != newState {
        playerState := newState;
        Emit("playerStateChanged", [Str(newState), Str(oldState)]);
      }
    }

    /** `startGame(isMobileDetected)`. */
    method StartGame(isMobileDetected: bool)
      modifies this`isMobile, this`experienceStarted, this`isPaused, this`isGameOver, this`emitted
      ensures isMobile == isMobileDetected && experienceStarted && !isPaused && !isGameOver
      ensures emitted == old(emitted) +
        [Emission("gameStarted", [Obj(map["isMobile" := Bool(isMobileDetected)])], CallsFor("gameStarted"))]
    {
      isMobile := isMobileDetected;
      experienceStarted := true;
      isPaused := false;
      isGameOver := false;
      Emit("gameStarted", [Obj(map["isMobile" := Bool(isMobile)])]);
    }

    /** `pauseGame()`: nothing happens when already paused or over. */
    method PauseGame()
      modifies this`isPaused, this`emitted
      ensures old(isPaused) || isGameOver ==> isPaused == old(isPaused) && emitted == old(emitted)
      ensures !old(isPaused) && !isGameOver ==>
        isPaused && emitted == old(emitted) + [Emission("gamePaused", [], CallsFor("gamePaused"))]
    {
      if !isPaused && !isGameOver {
        isPaused := true;
        Emit("gamePaused", []);
      }
    }

    /** `resumeGame()`: acts only when paused. */
    method ResumeGame()
      modifies this`isPaused, this`emitted
      ensures !isPaused
      ensures !old(isPaused) ==> emitted == old(emitted)
      ensures old(isPaused) ==> emitted == old(emitted) + [Emission("gameResumed", [], CallsFor("gameResumed"))]
    {
      if isPaused {
        isPaused := false;
        Emit("gameResumed", []);
      }
    }

    /** The summary `endGame` sends with `gameEnded`. */
    function EndSummary(): Value
      reads this
    {
      Obj(map["score" := Num(score as real), "kills" := Num(kills as real), "maxCombo" := Num(maxComboInGame as real),
        "backshots" := Num(backshots as real), "criticalHits" := Num(criticalHits as real)])
    }

    /** `endGame()`: the first call ends and pauses the game and emits; later calls do nothing. */
    method EndGame()
      modifies this`isGameOver, this`isPaused, this`emitted
      ensures isGameOver
      ensures old(isGameOver) ==> isPaused == old(isPaused) && emitted == old(emitted)
      ensures !old(isGameOver) ==> isPaused && emitted == old(emitted) + [Emission("gameEnded", [EndSummary()], CallsFor("gameEnded"))]
    {
      if !isGameOver {
        isGameOver := true;
        isPaused := true;
        Emit("gameEnded", [EndSummary()]);
      }
    }

    /** `refreshSizeMultiplier()`: one plus the permanent bonus plus every active power-up's increase. */
    method RefreshSizeMultiplier()
      modifies this`sizeMultiplier, this`emitted
      ensures sizeMultiplier == 1.0 + permanentEffects.sizeBonus + SumIncrease(scalePowerups)
      ensures emitted == old(emitted) + [Emission("sizeMultiplierChanged", [Num(sizeMultiplier)], CallsFor("sizeMultiplierChanged"))]
    {
      sizeMultiplier := 1.0 + permanentEffects.sizeBonus;
      var i := 0;
      while i < |scalePowerups|
        invariant 0 <= i <= |scalePowerups|
        invariant sizeMultiplier == 1.0 + permanentEffects.sizeBonus + SumIncrease(scalePowerups[..i])
        invariant emitted == old(emitted)
      {
        assert scalePowerups[..i + 1] == scalePowerups[..i] + [scalePowerups[i]];
        SumIncreaseSnoc(scalePowerups[..i], scalePowerups[i]);
        sizeMultiplier := sizeMultiplier + scalePowerups[i].sizeIncrease;
        i := i + 1;
      }
      assert scalePowerups[..i] == scalePowerups;
      Emit("sizeMultiplierChanged", [Num(sizeMultiplier)]);
    }

    /**
     * `addScalePowerup(sizeIncrease, duration, easeOutDuration)`: the multiplier grows by
     * exactly `sizeIncrease`; listeners hear the new multiplier, then the power-up itself.
     */
    method AddScalePowerup(sizeIncrease: real, duration: real, easeOutDuration: real)
      modifies this`scalePowerups, this`sizeMultiplier, this`emitted
      ensures scalePowerups == old(scalePowerups) + [ScalePowerup(sizeIncrease, duration, easeOutDuration, sizeIncrease, false, easeOutDuration)]
      ensures sizeMultiplier == 1.0 + permanentEffects.sizeBonus + SumIncrease(old(scalePowerups)) + sizeIncrease
      ensures emitted == old(emitted) + [
        Emission("sizeMultiplierChanged", [Num(sizeMultiplier)], CallsFor("sizeMultiplierChanged")),
        Emission("scalePowerupAdded", [PowerupValue(scalePowerups[|scalePowerups| - 1])], CallsFor("scalePowerupAdded"))]
    {
      var powerup := ScalePowerup(sizeIncrease, duration, easeOutDuration, sizeIncrease, false, easeOutDuration);
      SumIncreaseSnoc(scalePowerups, powerup);
      scalePowerups := scalePowerups + [powerup];
      RefreshSizeMultiplier();
      Emit("scalePowerupAdded", [PowerupValue(powerup)]);
    }

    /**
     * `updateConfig(path, value)`: sets the entry at the dotted path, creating
     * missing intermediate objects. When the walk meets a value that is not an
     * object the source throws; then `ok` is false and nothing changes.
     */
    method UpdateConfig(path: string, value: Value) returns (ok: bool)
      modifies this`config, this`emitted
      ensures var r := SetPath(old(config), Split(path, '.'), value);
        ok == r.Ok? && config == (if ok then r.value else old(config))
      ensures ok && !WalkMeetsFunction(old(config), Split(path, '.')) ==> ReadPath(config, Split(path, '.')) == Ok(value)
      ensures ok ==>
        emitted == old(emitted) + [Emission("configChanged", [Str(path), value, OldLeaf(old(config), Split(path, '.'))],
          CallsFor("configChanged"))]
      ensures !ok ==> emitted == old(emitted)
    {
      var keys := Split(path, '.');
      match SetPath(config, keys, value)
      case Err(_) =>
        ok := false;
      case Ok(c) =>
        if !WalkMeetsFunction(config, keys) {
          SetPathReadBack(config, keys, value);
        }
        var oldValue := OldLeaf(config, keys);
        config := c;
        ok := true;
        Emit("configChanged", [Str(path), value, oldValue]);
    }

    /** The `maxLength` getter. */
    function MaxLengthSetting(): Result<Value>
      reads this
    {
      ReadPath(config, ["physics", "maxLength"])
    }

    /**
     * `isWarningState`: beyond 90% of `maxLength`, which `*` converts as
     * `ToNumber` does (NaN compares false); the getter throws when
     * `physics` is missing.
     */
    function IsWarningState(): (w: Result<bool>)
      reads this
      ensures w.Err? <==> MaxLengthSetting().Err?
      ensures w.Ok? ==> (w.value <==>
        ToNumber(MaxLengthSetting().value).Some? && currentCoreRadius > ToNumber(MaxLengthSetting().value).value * 0.9)
    {
      match MaxLengthSetting()
      case Err(e) => Err(e)
      case Ok(m) => Ok(match ToNumber(m) case None => false case Some(x) => currentCoreRadius > x * 0.9)
    }

    /** The warning state comes before the danger state: a core in danger beyond a non-negative `maxLength` is in warning. */
    lemma {:induction false} DangerImpliesWarning()
      requires MaxLengthSetting().Ok? && Exceeds(currentCoreRadius, MaxLengthSetting().value)
      requires ToNumber(MaxLengthSetting().value).value >= 0.0
      ensures IsWarningState() == Ok(true)
    {
    }

    /** `serialize()`. */
    function Serialize(): Snapshot
      reads this
    {
      Snapshot(score, kills, currentCombo, maxComboInGame, backshots, criticalHits, coreRunCount,
        permanentEffects, collectedUpgradeHistory, config)
    }

    /** `deserialize(data)` for data of the shape `serialize` produces: the upgrade history goes through a `Set`. */
    method Deserialize(data: Snapshot)
      modifies this`score, this`kills, this`currentCombo, this`maxComboInGame, this`backshots, this`criticalHits
      modifies this`coreRunCount, this`permanentEffects, this`collectedUpgradeHistory, this`config
      ensures Serialize() == data.(collectedUpgradeHistory := Dedup(data.collectedUpgradeHistory))
    {
      score, kills, currentCombo, maxComboInGame := data.score, data.kills, data.currentCombo, data.maxComboInGame;
      backshots, criticalHits, coreRunCount := data.backshots, data.criticalHits, data.coreRunCount;
      permanentEffects := data.permanentEffects;
      collectedUpgradeHistory := Dedup(data.collectedUpgradeHistory);
      config := data.config;
    }
  }

  /** Serialising, restoring and serialising again gives the same snapshot. */
  lemma {:induction false} SnapshotRoundTrip(s: Snapshot)
    requires Unique(s.collectedUpgradeHistory)
    ensures s.(collectedUpgradeHistory := Dedup(s.collectedUpgradeHistory)) == s
  {
    DedupUnique(s.collectedUpgradeHistory);
  }
}
