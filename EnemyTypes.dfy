/**
 * js/config/EnemyTypes.js: the four enemy kinds (health, core damage, spawn
 * set-up and per-frame movement), the danger-wave patterns, and the weighted
 * random choice of the next enemy kind.
 *
 * `Math.random()`, `Math.hypot`, `Math.atan2`, `Math.cos` and `Math.sin` are
 * parameters: a roll, a distance, a heading, and the two trigonometric
 * functions. Optional-chain reads of the game state arrive as `Value`s or
 * `Option`s (`None` for `undefined`).
 */
module EnemyKinds {
  import opened Wrappers
  import opened JsValues
  import opened MathUtilities

  datatype Kind = Red | Orange | Pink | Green

  function KindName(k: Kind): (s: string)
    ensures |s| >= 3
  {
    match k
    case Red => "red"
    case Orange => "orange"
    case Pink => "pink"
    case Green => "green"
  }

  // ---------------------------------------------------------------------------
  // Weighted choice of the next enemy
  // ---------------------------------------------------------------------------

  datatype WeightEntry = WeightEntry(kind: Kind, weight: real)

  /** The weight table of `chooseEnemyType`: red flat, the others growing with kills, score and combo. */
  function Weights(kills: real, score: real, combo: real): (ws: seq<WeightEntry>)
    ensures |ws| == 4
    ensures ws[0].kind == Red && ws[1].kind == Orange && ws[2].kind == Pink && ws[3].kind == Green
  {
    [WeightEntry(Red, 6.0),
     WeightEntry(Orange, 2.0 + MinR(3.0, kills / 15.0)),
     WeightEntry(Pink, 1.0 + MinR(3.0, score / 800.0)),
     WeightEntry(Green, 0.8 + MinR(2.5, combo / 8.0))]
  }

  /** For non-negative progress every weight is positive and bounded. */
  lemma {:induction false} WeightBounds(kills: real, score: real, combo: real)
    requires kills >= 0.0 && score >= 0.0 && combo >= 0.0
    ensures var ws := Weights(kills, score, combo);
      ws[0].weight == 6.0
      && 2.0 <= ws[1].weight <= 5.0
      && 1.0 <= ws[2].weight <= 4.0
      && 0.8 <= ws[3].weight <= 3.3
  {
  }

  /** The sum of the first `n` weights. */
  function PrefixSum(ws: seq<WeightEntry>, n: nat): real
    requires n <= |ws|
  {
    if n == 0 then 0.0 else PrefixSum(ws, n - 1) + ws[n - 1].weight
  }

  /** The cumulative weight up to and including entry `j`. */
  function Cumulative(ws: seq<WeightEntry>, j: nat): real
    requires j < |ws|
  {
    PrefixSum(ws, j + 1)
  }

  /** Positive weights give a positive running total. */
  lemma {:induction false} PrefixSumPositive(ws: seq<WeightEntry>, n: nat)
    requires 0 < n <= |ws|
    requires forall i :: 0 <= i < |ws| ==> ws[i].weight > 0.0
    ensures PrefixSum(ws, n) > 0.0
  {
    if n > 1 {
      PrefixSumPositive(ws, n - 1);
    }
  }

  /** The first entry at or after `i` whose cumulative weight reaches `roll`. */
  function FirstReachFrom(ws: seq<WeightEntry>, roll: real, i: nat): (r: Option<nat>)
    requires i <= |ws|
    ensures r.Some? ==> i <= r.value < |ws| && roll <= Cumulative(ws, r.value)
    ensures r.Some? ==> forall j :: i <= j < r.value ==> Cumulative(ws, j) < roll
    ensures r.None? ==> forall j :: i <= j < |ws| ==> Cumulative(ws, j) < roll
    decreases |ws| - i
  {
    if i == |ws| then None
    else if roll <= Cumulative(ws, i) then Some(i)
    else FirstReachFrom(ws, roll, i + 1)
  }

  /** The kind the roll lands on, red when it lands past the end. */
  function Landed(ws: seq<WeightEntry>, roll: real): Kind
  {
    match FirstReachFrom(ws, roll, 0)
    case Some(i) => ws[i].kind
    case None => Red
  }

  /**
   * `EnemySelection.chooseEnemyType(kills, score, currentCombo)` with the
   * roll of `Math.random()` given: subtract weights from `random * total`
   * until it drops to zero or below.
   */
  method ChooseEnemyType(kills: real, score: real, combo: real, random: real) returns (kind: Kind)
    ensures var ws := Weights(kills, score, combo);
      kind == Landed(ws, Scaled(random, PrefixSum(ws, |ws|)))
  {
    var ws := Weights(kills, score, combo);
    kind := Land(ws, Scaled(random, PrefixSum(ws, |ws|)));
  }

  /** `Math.random() * total`. */
  function Scaled(random: real, total: real): real
  {
    random * total
  }

  /** The loop of `chooseEnemyType` over a weight table. */
  method Land(ws: seq<WeightEntry>, target: real) returns (kind: Kind)
    ensures kind == Landed(ws, target)
  {
    var roll := target;
    var i := 0;
    while i < |ws|
      invariant 0 <= i <= |ws|
      invariant roll == target - PrefixSum(ws, i)
      invariant FirstReachFrom(ws, target, 0) == FirstReachFrom(ws, target, i)
    {
      roll := roll - ws[i].weight;
      assert roll == target - Cumulative(ws, i);
      if roll <= 0.0 {
        assert FirstReachFrom(ws, target, i) == Some(i);
        return ws[i].kind;
      }
      i := i + 1;
    }
    return Red;
  }

  /** A roll in [0, 1) scales into [0, total). */
  lemma {:induction false} ScaledBelow(a: real, b: real)
    requires 0.0 <= a < 1.0 && b > 0.0
    ensures 0.0 <= Scaled(a, b) < b
  {
    assert b - a * b == (1.0 - a) * b;
  }

  /** With positive weights, a roll below the total lands on an entry. */
  lemma {:induction false} LandsBelowTotal(ws: seq<WeightEntry>, roll: real)
    requires |ws| > 0 && roll < PrefixSum(ws, |ws|)
    ensures FirstReachFrom(ws, roll, 0).Some?
  {
    assert Cumulative(ws, |ws| - 1) == PrefixSum(ws, |ws|);
  }

  /**
   * With a roll in [0, 1) and non-negative progress the roll always lands on
   * an entry: the fallback `'red'` after the loop is never reached.
   */
  lemma {:induction false} ChoiceAlwaysLands(kills: real, score: real, combo: real, random: real)
    requires kills >= 0.0 && score >= 0.0 && combo >= 0.0 && 0.0 <= random < 1.0
    ensures var ws := Weights(kills, score, combo);
      FirstReachFrom(ws, Scaled(random, PrefixSum(ws, |ws|)), 0).Some?
  {
    var ws := Weights(kills, score, combo);
    WeightBounds(kills, score, combo);
    assert forall i :: 0 <= i < |ws| ==> ws[i].weight > 0.0;
    PrefixSumPositive(ws, |ws|);
    ScaledBelow(random, PrefixSum(ws, |ws|));
    LandsBelowTotal(ws, Scaled(random, PrefixSum(ws, |ws|)));
  }

  /** A roll of zero lands on red, the first entry. */
  lemma {:induction false} ZeroRollIsRed(kills: real, score: real, combo: real)
    ensures Landed(Weights(kills, score, combo), 0.0) == Red
  {
    var ws := Weights(kills, score, combo);
    assert PrefixSum(ws, 0) == 0.0;
    assert Cumulative(ws, 0) == 6.0;
    assert FirstReachFrom(ws, 0.0, 0) == Some(0);
  }

  // ---------------------------------------------------------------------------
  // Danger waves
  // ---------------------------------------------------------------------------

  datatype WaveEntry = WaveEntry(kind: Kind, count: nat, interval: nat, initialDelay: Option<nat>)

  datatype Pattern = Pattern(name: string, entries: seq<WaveEntry>)

  /** `DangerWavePatterns`. */
  const DangerWavePatterns: seq<Pattern> := [
    Pattern("Crimson Swarm", [WaveEntry(Red, 10, 3, None)]),
    Pattern("Amber Giants", [WaveEntry(Orange, 8, 6, None)]),
    Pattern("Emerald Charge", [WaveEntry(Green, 5, 8, None)]),
    Pattern("Spiral Pressure", [WaveEntry(Pink, 4, 10, None), WaveEntry(Red, 6, 4, Some(18))])]

  predicate HasKind(p: Pattern, k: Kind)
  {
    exists i :: 0 <= i < |p.entries| && p.entries[i].kind == k
  }

  /** The filter of `chooseDangerWavePattern`: green needs 8 kills, pink a score of 150. */
  predicate Allowed(p: Pattern, kills: real, score: real)
  {
    !(kills < 8.0 && HasKind(p, Green)) && !(score < 150.0 && HasKind(p, Pink))
  }

  function AllowedOf(ps: seq<Pattern>, kills: real, score: real): (r: seq<Pattern>)
    ensures forall p :: p in r <==> p in ps && Allowed(p, kills, score)
  {
    if |ps| == 0 then []
    else (if Allowed(ps[0], kills, score) then [ps[0]] else []) + AllowedOf(ps[1..], kills, score)
  }

  /** `pool[Math.floor(roll * pool.length)]`, the pool being the allowed patterns or, if none, all of them. */
  function ChooseDangerWavePattern(kills: real, score: real, random: real): (p: Pattern)
    requires 0.0 <= random < 1.0
    ensures p in DangerWavePatterns
  {
    var available := AllowedOf(DangerWavePatterns, kills, score);
    var pool := if |available| > 0 then available else DangerWavePatterns;
    ScaledBelow(random, |pool| as real);
    pool[Scaled(random, |pool| as real).Floor]
  }

  /** The red swarm is always allowed, so the fallback to the full list never happens. */
  lemma {:induction false} CrimsonAlwaysAvailable(kills: real, score: real)
    ensures DangerWavePatterns[0] in AllowedOf(DangerWavePatterns, kills, score)
  {
    var p := DangerWavePatterns[0];
    assert p.entries[0].kind == Red;
    assert !HasKind(p, Green) && !HasKind(p, Pink);
  }

  /** The chosen wave respects the filter: no green before 8 kills, no pink below a score of 150. */
  lemma {:induction false} ChosenWaveAllowed(kills: real, score: real, random: real)
    requires 0.0 <= random < 1.0
    ensures Allowed(ChooseDangerWavePattern(kills, score, random), kills, score)
  {
    CrimsonAlwaysAvailable(kills, score);
    var available := AllowedOf(DangerWavePatterns, kills, score);
    assert |available| > 0;
    ScaledBelow(random, |available| as real);
    assert available[Scaled(random, |available| as real).Floor] in available;
  }

  /** Early in a run only the two single-colour waves without green or pink can come. */
  lemma {:induction false} EarlyWaves(kills: real, score: real)
    requires kills < 8.0 && score < 150.0
    ensures AllowedOf(DangerWavePatterns, kills, score) == DangerWavePatterns[..2]
  {
    var ps := DangerWavePatterns;
    assert ps[2].entries[0].kind == Green && HasKind(ps[2], Green);
    assert ps[3].entries[0].kind == Pink && HasKind(ps[3], Pink);
    assert !HasKind(ps[0], Green) && !HasKind(ps[0], Pink) by { assert ps[0].entries[0].kind == Red; }
    assert !HasKind(ps[1], Green) && !HasKind(ps[1], Pink) by { assert ps[1].entries[0].kind == Orange; }
    assert AllowedOf(ps[3..], kills, score) == [] by {
      assert ps[3..][1..] == [];
    }
    assert AllowedOf(ps[2..], kills, score) == [] by {
      assert ps[2..][1..] == ps[3..];
    }
    assert AllowedOf(ps[1..], kills, score) == [ps[1]] by {
      assert ps[1..][1..] == ps[2..];
    }
    assert ps[1..] == ps[1..][..];
  }

  // ---------------------------------------------------------------------------
  // Health and core damage
  // ---------------------------------------------------------------------------

  /** `v || fallback`, read as a number. */
  function OrDefault(v: Value, fallback: real): Option<real>
  {
    if Truthy(v) then ToNumber(v) else Some(fallback)
  }

  /** `getHealth()`, given `config.combat.enemyHealth` as read (`Undefined` when absent). */
  function Health(k: Kind, enemyHealth: Value): Option<real>
  {
    var base := OrDefault(enemyHealth, 1.0);
    match k
    case Red => MaxOrNaN(1.0, base)
    case Orange => MaxOrNaN(2.0, Scale(base, 3.0))
    case Pink => MaxOrNaN(2.0, Scale(base, 1.8))
    case Green => MaxOrNaN(2.0, Scale(base, 2.2))
  }

  function Scale(x: Option<real>, f: real): Option<real>
  {
    match x
    case None => None
    case Some(n) => Some(n * f)
  }

  /** Health floors: red at least 1, the others at least 2; a numeric or missing entry never gives NaN. */
  lemma {:induction false} HealthFloor(k: Kind, enemyHealth: Value)
    ensures Health(k, enemyHealth).Some? ==> Health(k, enemyHealth).value >= (if k == Red then 1.0 else 2.0)
    ensures enemyHealth.Num? || enemyHealth.Undefined? ==> Health(k, enemyHealth).Some?
  {
  }

  /** With the entry missing: red 1, orange 3, pink held up to its floor 2, green 2.2. */
  lemma {:induction false} DefaultHealth()
    ensures Health(Red, Undefined) == Some(1.0) && Health(Orange, Undefined) == Some(3.0)
    ensures Health(Pink, Undefined) == Some(2.0) && Health(Green, Undefined) == Some(2.2)
  {
  }

  datatype GreenPhase = Approach | Charge | Dash

  /** `getCoreDamage(enemy)`, given `config.physics.maxLength` as read; only green depends on its phase. */
  function CoreDamage(k: Kind, maxLength: Value, phase: GreenPhase): Option<real>
  {
    var length := OrDefault(maxLength, 190.0);
    match k
    case Red => Scale(length, 0.10)
    case Orange => Scale(length, 0.14)
    case Pink => Scale(length, 0.12)
    case Green => Scale(length, if phase == Dash then 0.22 else 0.16)
  }

  /** A dashing green hits harder than any other enemy, for any positive rope length. */
  lemma {:induction false} DashHitsHardest(maxLength: real, k: Kind, phase: GreenPhase)
    requires maxLength > 0.0
    ensures CoreDamage(Green, Num(maxLength), Dash).value >= CoreDamage(k, Num(maxLength), phase).value
    ensures CoreDamage(Green, Num(maxLength), Dash) == Some(0.22 * maxLength)
    ensures CoreDamage(Green, Num(maxLength), Approach) == Some(0.16 * maxLength)
  {
  }

  // ---------------------------------------------------------------------------
  // Movement
  // ---------------------------------------------------------------------------

  /** The part of an enemy's PIXI display object the rules touch. */
  class Sprite {
    var x: real
    var y: real
    var rotation: real

    constructor (x0: real, y0: real)
      ensures x == x0 && y == y0 && rotation == 0.0
    {
      x, y, rotation := x0, y0, 0.0;
    }

    /**
     * One straight step toward (`tx`, `ty`): `hypot` is `Math.hypot(dx, dy)`,
     * replaced by 1 when it is zero, as `|| 1` does.
     */
    method StepToward(tx: real, ty: real, hypot: real, speed: real, delta: real)
      requires hypot >= 0.0
      modifies this`x, this`y
      ensures var d := if hypot == 0.0 then 1.0 else hypot;
        x == old(x) + (tx - old(x)) / d * speed * delta && y == old(y) + (ty - old(y)) / d * speed * delta
    {
      var dx := tx - x;
      var dy := ty - y;
      var distance := if hypot == 0.0 then 1.0 else hypot;
      x := x + dx / distance * speed * delta;
      y := y + dy / distance * speed * delta;
    }
  }

  /** The speeds `onSpawn` gives red and orange. */
  function SeekerSpeed(k: Kind): (s: real)
    requires k == Red || k == Orange
    ensures s > 0.0
  {
    if k == Red then 2.4 else 1.35
  }

  /**
   * Red and orange `update`: straight toward the core at the enemy's current
   * speed, which `onSpawn` set to `SeekerSpeed`.
   */
  method SeekerUpdate(gfx: Sprite, speed: real, coreX: real, coreY: real, hypot: real, delta: real)
    requires hypot >= 0.0
    modifies gfx`x, gfx`y
    ensures var d := if hypot == 0.0 then 1.0 else hypot;
      gfx.x == old(gfx.x) + (coreX - old(gfx.x)) / d * speed * delta
      && gfx.y == old(gfx.y) + (coreY - old(gfx.y)) / d * speed * delta
  {
    gfx.StepToward(coreX, coreY, hypot, speed, delta);
  }

  // ---------------------------------------------------------------------------
  // Pink: a shrinking orbit that shoots
  // ---------------------------------------------------------------------------

  /** `enemy.data` of an orbiting enemy. */
  class OrbitState {
    var angle: real
    var radius: real
    var inwardSpeed: real
    var angularSpeed: real
    var shootTimer: real
    var projectileCooldown: real

    /** `onSpawn`: the spawn angle and radius, with the pink constants. */
    constructor PinkSpawn(spawnAngle: real, spawnRadius: real)
      ensures angle == spawnAngle && radius == spawnRadius
      ensures inwardSpeed == 0.8 && angularSpeed == 0.045 && shootTimer == 90.0 && projectileCooldown == 120.0
    {
      angle, radius := spawnAngle, spawnRadius;
      inwardSpeed, angularSpeed := 0.8, 0.045;
      shootTimer, projectileCooldown := 90.0, 120.0;
    }

    /** Any orbit set-up, as the orbiter initialiser copies it from its configuration. */
    constructor (angle0: real, radius0: real, inward: real, angular: real, timer: real, cooldown: real)
      ensures angle == angle0 && radius == radius0 && inwardSpeed == inward && angularSpeed == angular
      ensures shootTimer == timer && projectileCooldown == cooldown
    {
      angle, radius, inwardSpeed, angularSpeed := angle0, radius0, inward, angular;
      shootTimer, projectileCooldown := timer, cooldown;
    }

    /**
     * One frame of orbiting: spiral inward but never inside `coreRadius + 40`,
     * turn, place the sprite on the circle, count the shot timer down and
     * rearm it to the cooldown when it fires.
     */
    method Advance(gfx: Sprite, delta: real, coreRadius: real, coreX: real, coreY: real,
                   cos: real -> real, sin: real -> real) returns (fired: bool)
      modifies this`radius, this`angle, this`shootTimer, gfx
      ensures radius == MaxR(coreRadius + 40.0, old(radius) - inwardSpeed * delta)
      ensures radius >= coreRadius + 40.0
      ensures angle == old(angle) + angularSpeed * delta
      ensures gfx.x == coreX + cos(angle) * radius && gfx.y == coreY + sin(angle) * radius && gfx.rotation == angle
      ensures fired <==> old(shootTimer) - delta <= 0.0
      ensures shootTimer == if fired then projectileCooldown else old(shootTimer) - delta
    {
      radius := MaxR(coreRadius + 40.0, radius - inwardSpeed * delta);
      angle := angle + angularSpeed * delta;
      gfx.x := coreX + cos(angle) * radius;
      gfx.y := coreY + sin(angle) * radius;
      gfx.rotation := angle;
      shootTimer := shootTimer - delta;
      fired := shootTimer <= 0.0;
      if fired {
        shootTimer := projectileCooldown;
      }
    }
  }

  /** `value || fallback` for a number read from the game state (`None` when absent). */
  function NumberOr(v: Option<real>, fallback: real): real
  {
    if v.None? || v.value == 0.0 then fallback else v.value
  }

  /**
   * Pink `update`: the core radius defaults to 30 and the core position to
   * the origin; projectiles are created only when the enemy system offers
   * `createPinkArcProjectiles`, but the timer rearms either way.
   */
  method PinkUpdate(data: OrbitState?, gfx: Sprite, delta: real, currentCoreRadius: Option<real>,
                    coreX: Option<real>, coreY: Option<real>, canShoot: bool,
                    cos: real -> real, sin: real -> real) returns (shot: bool)
    modifies data, gfx
    ensures data != null ==>
      data.inwardSpeed == old(data.inwardSpeed) && data.angularSpeed == old(data.angularSpeed)
      && data.projectileCooldown == old(data.projectileCooldown)
    ensures data == null ==> !shot && gfx.x == old(gfx.x) && gfx.y == old(gfx.y) && gfx.rotation == old(gfx.rotation)
    ensures data != null ==> data.radius >= NumberOr(currentCoreRadius, 30.0) + 40.0
    ensures data != null ==>
      data.radius == MaxR(NumberOr(currentCoreRadius, 30.0) + 40.0, old(data.radius) - data.inwardSpeed * delta)
    ensures data != null ==> data.angle == old(data.angle) + data.angularSpeed * delta
    ensures data != null ==>
      gfx.x == NumberOr(coreX, 0.0) + cos(data.angle) * data.radius
      && gfx.y == NumberOr(coreY, 0.0) + sin(data.angle) * data.radius
      && gfx.rotation == data.angle
    ensures data != null && old(data.shootTimer) - delta <= 0.0 ==> data.shootTimer == data.projectileCooldown
    ensures data != null && old(data.shootTimer) - delta > 0.0 ==> data.shootTimer == old(data.shootTimer) - delta
    ensures shot <==> data != null && canShoot && old(data.shootTimer) - delta <= 0.0
  {
    if data == null {
      return false;
    }
    var fired := data.Advance(gfx, delta, NumberOr(currentCoreRadius, 30.0), NumberOr(coreX, 0.0), NumberOr(coreY, 0.0), cos, sin);
    shot := fired && canShoot;
  }

  // ---------------------------------------------------------------------------
  // Green: approach, charge, dash
  // ---------------------------------------------------------------------------

  function PhaseRank(p: GreenPhase): nat
  {
    match p
    case Approach => 0
    case Charge => 1
    case Dash => 2
  }

  /** A green enemy: its phase, speed and `data` timers. */
  class GreenDasher {
    var phase: GreenPhase
    var speed: real
    var chargeTimer: real
    var pulseTime: real
    var blinkTimer: real
    var squashTimer: real
    var dashSpeed: real
    var approachTargetRadius: real

    /**
     * `onSpawn`: approach at speed 4.2 and stop at the larger of
     * `coreRadius + 80` and 45% of the rope length (defaults 30 and 190).
     */
    constructor Spawn(currentCoreRadius: Option<real>, maxLength: Option<real>)
      ensures phase == Approach && speed == 4.2 && chargeTimer == 120.0 && pulseTime == 0.0 && dashSpeed == 13.0
      ensures approachTargetRadius == MaxR(NumberOr(currentCoreRadius, 30.0) + 80.0, NumberOr(maxLength, 190.0) * 0.45)
      ensures approachTargetRadius >= NumberOr(currentCoreRadius, 30.0) + 80.0
    {
      phase, speed := Approach, 4.2;
      chargeTimer, pulseTime, dashSpeed := 120.0, 0.0, 13.0;
      blinkTimer, squashTimer := 0.0, 0.0;
      approachTargetRadius := MaxR(NumberOr(currentCoreRadius, 30.0) + 80.0, NumberOr(maxLength, 190.0) * 0.45);
    }

    /**
     * `update`: approach until within `approachTargetRadius`, then charge for
     * 120 frames, then dash at `dashSpeed`; the switch into the dash moves in
     * the same frame. `hypot` is the distance to the core and `heading` the
     * angle `Math.atan2(dy, dx)`.
     */
    method Update(gfx: Sprite, delta: real, coreX: real, coreY: real, hypot: real, heading: real)
      requires hypot >= 0.0
      modifies this`phase, this`chargeTimer, this`pulseTime, this`blinkTimer, this`squashTimer, gfx`x, gfx`y, gfx`rotation
      ensures PhaseRank(old(phase)) <= PhaseRank(phase) <= PhaseRank(old(phase)) + 1
      ensures old(phase) == Approach && phase == Approach ==>
        chargeTimer == old(chargeTimer) && pulseTime == old(pulseTime)
        && blinkTimer == old(blinkTimer) && squashTimer == old(squashTimer)
      ensures old(phase) == Approach && phase == Charge ==> pulseTime == 0.0 && blinkTimer == 0.0 && squashTimer == 0.0
      ensures old(phase) == Charge ==>
        blinkTimer == old(blinkTimer) + delta && squashTimer == old(squashTimer) + delta && pulseTime == old(pulseTime)
      ensures old(phase) == Dash ==>
        pulseTime == old(pulseTime) && blinkTimer == old(blinkTimer) && squashTimer == old(squashTimer)
      ensures var d := if hypot == 0.0 then 1.0 else hypot;
        old(phase) == Approach ==>
          (if d > approachTargetRadius then phase == Approach else phase == Charge && chargeTimer == 120.0)
      ensures old(phase) == Charge ==> chargeTimer == old(chargeTimer) - delta && (phase == Dash <==> chargeTimer <= 0.0)
      ensures old(phase) == Dash ==> phase == Dash && chargeTimer == old(chargeTimer)
      ensures var d := if hypot == 0.0 then 1.0 else hypot;
        var moveSpeed := if phase == Dash then dashSpeed else if phase == Approach then speed else 0.0;
        gfx.x == old(gfx.x) + (coreX - old(gfx.x)) / d * moveSpeed * delta
        && gfx.y == old(gfx.y) + (coreY - old(gfx.y)) / d * moveSpeed * delta
      ensures gfx.rotation == heading + Pi / 2.0
    {
      var distance := if hypot == 0.0 then 1.0 else hypot;
      if phase == Approach {
        if distance > approachTargetRadius {
          gfx.StepToward(coreX, coreY, hypot, speed, delta);
        } else {
          phase := Charge;
          chargeTimer, pulseTime, blinkTimer, squashTimer := 120.0, 0.0, 0.0, 0.0;
        }
      } else if phase == Charge {
        chargeTimer := chargeTimer - delta;
        blinkTimer := blinkTimer + delta;
        squashTimer := squashTimer + delta;
        if chargeTimer <= 0.0 {
          phase := Dash;
        }
      }
      if phase == Dash {
        gfx.StepToward(coreX, coreY, hypot, dashSpeed, delta);
      }
      gfx.rotation := heading + Pi / 2.0;
    }
  }
}
