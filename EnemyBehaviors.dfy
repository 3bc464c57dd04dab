/**
 * js/systems/EnemyBehaviors.js: the per-enemy handlers of the named enemy
 * kinds (crimson seeker, amber titan, astral orbiter, emerald bow). The
 * handlers are modelled directly: the attribute values they read from the
 * enemy's configuration arrive as parameters, `Math.atan2`, `Math.hypot`,
 * `Math.cos` and `Math.sin` results arrive as parameters, and the callbacks
 * into the enemy system (`createSplash`, projectile creation) become result
 * values.
 */
module EnemyBehavior {
  import opened Wrappers
  import opened EnemyKinds
  import opened MathUtilities

  // ---------------------------------------------------------------------------
  // Crimson seeker
  // ---------------------------------------------------------------------------

  /** `updateCrimsonSeeker`: one straight step of length `speed * delta` toward the core. */
  method UpdateCrimsonSeeker(gfx: Sprite, speed: real, delta: real, coreX: real, coreY: real, hypot: real)
    requires hypot >= 0.0
    modifies gfx`x, gfx`y
    ensures var d := if hypot == 0.0 then 1.0 else hypot;
      gfx.x == old(gfx.x) + (coreX - old(gfx.x)) / d * speed * delta
      && gfx.y == old(gfx.y) + (coreY - old(gfx.y)) / d * speed * delta
  {
    gfx.StepToward(coreX, coreY, hypot, speed, delta);
  }

  // ---------------------------------------------------------------------------
  // Amber titan: frontal shield, side stun
  // ---------------------------------------------------------------------------

  /** What `createSplash` is called with: a colour and a particle count, at the enemy's position. */
  datatype Splash = Splash(color: int, amount: int)

  /**
   * `|hitAngle - facingAngle|` folded back into a half turn, as the hit
   * handler does before comparing it with π/3.
   */
  function FoldAngle(hitAngle: real, facingAngle: real): (d: real)
    ensures d <= Pi
    ensures Abs(hitAngle - facingAngle) <= 2.0 * Pi ==> d >= 0.0
    ensures d == Abs(hitAngle - facingAngle) || d == 2.0 * Pi - Abs(hitAngle - facingAngle)
    ensures Abs(hitAngle - facingAngle) <= Pi ==> d == Abs(hitAngle - facingAngle)
  {
    var diff := Abs(hitAngle - facingAngle);
    if diff > Pi then 2.0 * Pi - diff else diff
  }

  /** The fold does not depend on which of the two angles comes first. */
  lemma {:induction false} FoldSymmetric(a: real, b: real)
    ensures FoldAngle(a, b) == FoldAngle(b, a)
  {
    assert Abs(a - b) == Abs(b - a);
  }

  /** A hit within π/3 of the facing direction is frontal; every other hit is a side hit. */
  predicate Frontal(angleDiff: real)
  {
    angleDiff <= Pi / 3.0
  }

  /** An amber titan's shield and stun state, as `initAmberTitan` creates it on the enemy. */
  class AmberTitan {
    var speed: real
    var originalSpeed: real
    var shieldHealth: int
    var maxShieldHealth: int
    var isStunned: bool
    var stunTimer: real
    var isShieldBroken: bool
    var health: real

    /**
     * The shield has 0 to 3 points left and is broken exactly when none are
     * left; a stunned titan stands still with time left on its stun, and a
     * titan that is not stunned moves at its configured speed.
     */
    predicate Valid()
      reads this
    {
      maxShieldHealth == 3 && 0 <= shieldHealth <= maxShieldHealth
      && (isShieldBroken <==> shieldHealth == 0)
      && (isStunned ==> stunTimer > 0.0 && speed == 0.0)
      && (!isStunned ==> speed == originalSpeed)
    }

    /** `initAmberTitan`: speed from the configuration, a full three-point shield, not stunned. */
    constructor Init(configSpeed: real, health0: real)
      ensures speed == configSpeed && originalSpeed == configSpeed
      ensures shieldHealth == 3 && maxShieldHealth == 3
      ensures !isStunned && stunTimer == 0.0 && !isShieldBroken
      ensures health == health0
      ensures Valid()
    {
      speed, originalSpeed := configSpeed, configSpeed;
      shieldHealth, maxShieldHealth := 3, 3;
      isStunned, stunTimer, isShieldBroken := false, 0.0, false;
      health := health0;
    }

    /**
     * `updateAmberTitan`: a running stun counts down, and once it is used up
     * the titan is released at its original speed; a titan that is not
     * stunned (any more) steps toward the core.
     */
    method Update(gfx: Sprite, delta: real, coreX: real, coreY: real, hypot: real)
      requires hypot >= 0.0
      modifies this`stunTimer, this`isStunned, this`speed, gfx`x, gfx`y
      ensures stunTimer == if old(isStunned) && old(stunTimer) > 0.0 then old(stunTimer) - delta else old(stunTimer)
      ensures isStunned <==> old(isStunned) && !(old(stunTimer) > 0.0 && old(stunTimer) - delta <= 0.0)
      ensures speed == if old(isStunned) && !isStunned then originalSpeed else old(speed)
      ensures isStunned ==> gfx.x == old(gfx.x) && gfx.y == old(gfx.y)
      ensures var d := if hypot == 0.0 then 1.0 else hypot;
        !isStunned ==>
          gfx.x == old(gfx.x) + (coreX - old(gfx.x)) / d * speed * delta
          && gfx.y == old(gfx.y) + (coreY - old(gfx.y)) / d * speed * delta
      ensures old(Valid()) ==> Valid()
    {
      if isStunned && stunTimer > 0.0 {
        stunTimer := stunTimer - delta;
        if stunTimer <= 0.0 {
          isStunned := false;
          speed := originalSpeed;
        }
      }
      if !isStunned {
        gfx.StepToward(coreX, coreY, hypot, speed, delta);
      }
    }

    /**
     * `onAmberTitanHit` with the two `Math.atan2` angles given (player and
     * core, both seen from the titan). Returns `preventDamage` and the
     * splash it asks for.
     */
    method OnHit(hitAngle: real, facingAngle: real) returns (preventDamage: bool, splash: Option<Splash>)
      modifies this`shieldHealth, this`isShieldBroken, this`health, this`isStunned, this`stunTimer, this`speed
      ensures var frontal := Frontal(FoldAngle(hitAngle, facingAngle));
        (!old(isShieldBroken) && frontal ==> ShieldHit(old(shieldHealth), old(health), preventDamage, splash))
        && (old(isShieldBroken) && frontal ==> ShieldUntouched(old(shieldHealth), old(health), preventDamage, splash))
        && (!frontal && !old(isStunned) ==> Stunned(old(shieldHealth), old(health), preventDamage, splash))
        && (!frontal && old(isStunned) ==> Crushed(old(shieldHealth), old(stunTimer), preventDamage, splash))
      ensures Frontal(FoldAngle(hitAngle, facingAngle)) ==>
        isStunned == old(isStunned) && stunTimer == old(stunTimer) && speed == old(speed)
      ensures !Frontal(FoldAngle(hitAngle, facingAngle)) ==> isShieldBroken == old(isShieldBroken)
      ensures !Frontal(FoldAngle(hitAngle, facingAngle)) && old(isStunned) ==> speed == old(speed)
      ensures old(Valid()) ==> Valid()
    {
      var frontal := Frontal(FoldAngle(hitAngle, facingAngle));
      if !isShieldBroken && frontal {
        shieldHealth := shieldHealth - 1;
        splash := None;
        if shieldHealth <= 0 {
          isShieldBroken := true;
          splash := Some(Splash(0xd4941f, 30));
          health := 1.0;
        }
        preventDamage := !isShieldBroken;
      } else {
        splash := None;
        if !frontal {
          if !isStunned {
            isStunned := true;
            stunTimer := 90.0;
            speed := 0.0;
            splash := Some(Splash(0xffff00, 20));
          } else {
            health := 0.0;
            splash := Some(Splash(0xff0000, 50));
          }
        }
        preventDamage := false;
      }
    }

    /**
     * A frontal hit on an intact shield takes one point off it; the last
     * point breaks it, leaves the titan one health point and splashes gold;
     * damage is blocked exactly while the shield holds.
     */
    predicate ShieldHit(oldShield: int, oldHealth: real, preventDamage: bool, splash: Option<Splash>)
      reads this
    {
      shieldHealth == oldShield - 1
      && (isShieldBroken <==> shieldHealth <= 0)
      && health == (if isShieldBroken then 1.0 else oldHealth)
      && (preventDamage <==> !isShieldBroken)
      && splash == (if isShieldBroken then Some(Splash(0xd4941f, 30)) else None)
    }

    /** A frontal hit on a broken shield changes nothing and does not block damage. */
    predicate ShieldUntouched(oldShield: int, oldHealth: real, preventDamage: bool, splash: Option<Splash>)
      reads this
    {
      shieldHealth == oldShield && isShieldBroken && health == oldHealth && !preventDamage && splash.None?
    }

    /** A side hit on a titan that is not stunned stuns it for 90 frames and stops it. */
    predicate Stunned(oldShield: int, oldHealth: real, preventDamage: bool, splash: Option<Splash>)
      reads this
    {
      isStunned && stunTimer == 90.0 && speed == 0.0
      && shieldHealth == oldShield && health == oldHealth
      && !preventDamage && splash == Some(Splash(0xffff00, 20))
    }

    /** A side hit on a stunned titan kills it. */
    predicate Crushed(oldShield: int, oldStunTimer: real, preventDamage: bool, splash: Option<Splash>)
      reads this
    {
      health == 0.0 && isStunned && stunTimer == oldStunTimer
      && shieldHealth == oldShield
      && !preventDamage && splash == Some(Splash(0xff0000, 50))
    }
  }

  // ---------------------------------------------------------------------------
  // Astral orbiter
  // ---------------------------------------------------------------------------

  /**
   * `updateAstralOrbiter`: the shared orbit step with the game state's core
   * radius as read; `fired` says that `createPinkArcProjectiles` was called.
   */
  method UpdateAstralOrbiter(data: OrbitState?, gfx: Sprite, delta: real, currentCoreRadius: real,
                             coreX: real, coreY: real, cos: real -> real, sin: real -> real) returns (fired: bool)
    modifies data, gfx
    ensures data != null ==>
      data.inwardSpeed == old(data.inwardSpeed) && data.angularSpeed == old(data.angularSpeed)
      && data.projectileCooldown == old(data.projectileCooldown)
    ensures data == null ==> !fired && gfx.x == old(gfx.x) && gfx.y == old(gfx.y) && gfx.rotation == old(gfx.rotation)
    ensures data != null ==> data.radius >= currentCoreRadius + 40.0
    ensures data != null ==> data.radius == MaxR(currentCoreRadius + 40.0, old(data.radius) - data.inwardSpeed * delta)
    ensures data != null ==> data.angle == old(data.angle) + data.angularSpeed * delta
    ensures data != null ==>
      gfx.x == coreX + cos(data.angle) * data.radius && gfx.y == coreY + sin(data.angle) * data.radius
      && gfx.rotation == data.angle
    ensures fired <==> data != null && old(data.shootTimer) - delta <= 0.0
    ensures data != null ==> data.shootTimer == if fired then data.projectileCooldown else old(data.shootTimer) - delta
  {
    if data == null {
      return false;
    }
    fired := data.Advance(gfx, delta, currentCoreRadius, coreX, coreY, cos, sin);
  }

  // ---------------------------------------------------------------------------
  // Emerald bow: approach a firing position, lock, shoot a bounded quiver
  // ---------------------------------------------------------------------------

  /**
   * `initEmeraldBow`'s firing distance from the core: in the danger state at
   * least 60 beyond the core and 70% of the rope; otherwise at least 50
   * beyond the core and 60% of the rope, capped at 85% of the rope.
   */
  function TargetDistance(isDangerState: bool, currentCoreRadius: real, maxLength: real): (r: real)
    ensures isDangerState ==> r >= currentCoreRadius + 60.0 && r >= maxLength * 0.7
    ensures isDangerState ==> r == currentCoreRadius + 60.0 || r == maxLength * 0.7
    ensures !isDangerState ==> r <= maxLength * 0.85
    ensures !isDangerState && currentCoreRadius + 50.0 <= maxLength * 0.85 ==> r >= currentCoreRadius + 50.0
    ensures !isDangerState && currentCoreRadius + 50.0 > maxLength * 0.85 ==> r == maxLength * 0.85
  {
    if isDangerState then MaxR(currentCoreRadius + 60.0, maxLength * 0.7)
    else MinR(maxLength * 0.85, MaxR(currentCoreRadius + 50.0, maxLength * 0.6))
  }

  /** For a non-negative rope the calm distance always lies within [60%, 85%] of it. */
  lemma {:induction false} CalmDistanceWithinRope(currentCoreRadius: real, maxLength: real)
    requires maxLength >= 0.0
    ensures maxLength * 0.6 <= TargetDistance(false, currentCoreRadius, maxLength) <= maxLength * 0.85
  {
  }

  datatype BowState = Approaching | Locked

  /** `gfx.alpha` after `brokenParts` hits: fading by 0.15 per hit, never below 0.4. */
  function BowAlpha(brokenParts: int): (a: real)
    ensures a >= 0.4
    ensures brokenParts >= 0 ==> a <= 1.0
    ensures brokenParts == 0 ==> a == 1.0
    ensures brokenParts >= 4 ==> a == 0.4
  {
    MaxR(0.4, 1.0 - brokenParts as real / 4.0 * 0.6)
  }

  /** Each further hit leaves the bow at most as opaque as before. */
  lemma {:induction false} BowFades(p: int, q: int)
    requires p <= q
    ensures BowAlpha(q) <= BowAlpha(p)
  {
    assert q as real / 4.0 * 0.6 >= p as real / 4.0 * 0.6;
  }

  /** An emerald bow's `state` and `enemy.data`. */
  class EmeraldBow {
    var state: BowState
    var speed: real
    var targetX: real
    var targetY: real
    var targetAngle: real
    var ammoRemaining: int
    var shootTimer: real
    var brokenParts: int
    var isLocked: bool
    var lockX: real
    var lockY: real
    var lastShotDirection: Option<(real, real)>

    /**
     * `initEmeraldBow`: the firing position lies on the spawn ray at
     * `TargetDistance` from the core, the bow faces back toward the core
     * once there, and the quiver and timer come from the configuration.
     */
    constructor Init(spawnAngle: real, isDangerState: bool, currentCoreRadius: real, maxLength: real,
                     coreX: real, coreY: real, cos: real -> real, sin: real -> real,
                     maxAmmo: int, shootInterval: real)
      ensures state == Approaching && speed == 2.8 && !isLocked && brokenParts == 0
      ensures targetX == coreX + cos(spawnAngle) * TargetDistance(isDangerState, currentCoreRadius, maxLength)
      ensures targetY == coreY + sin(spawnAngle) * TargetDistance(isDangerState, currentCoreRadius, maxLength)
      ensures targetAngle == spawnAngle + Pi
      ensures ammoRemaining == maxAmmo && shootTimer == shootInterval && lastShotDirection.None?
    {
      var targetDistance := TargetDistance(isDangerState, currentCoreRadius, maxLength);
      state, speed := Approaching, 2.8;
      targetX := coreX + cos(spawnAngle) * targetDistance;
      targetY := coreY + sin(spawnAngle) * targetDistance;
      targetAngle := spawnAngle + Pi;
      ammoRemaining, shootTimer := maxAmmo, shootInterval;
      brokenParts, isLocked := 0, false;
      lockX, lockY := 0.0, 0.0;
      lastShotDirection := None;
    }

    /**
     * `updateEmeraldBow`, with `hypot` the distance to the firing position
     * and `heading` and `coreAngle` the `Math.atan2` angles toward the firing
     * position and toward the core. Farther than 5 the bow steps toward its
     * position; within 5 it snaps there and locks. A locked bow holds its
     * lock position and, while it has arrows, counts its timer down and
     * shoots at the core when the timer runs out. Returns the angle of the
     * arrow it shot, if any.
     */
    method Update(gfx: Sprite, delta: real, hypot: real, heading: real, coreAngle: real,
                  cos: real -> real, sin: real -> real, shootInterval: real) returns (shot: Option<real>)
      requires hypot >= 0.0
      modifies this`state, this`isLocked, this`lockX, this`lockY, this`ammoRemaining, this`shootTimer
      modifies this`lastShotDirection, gfx
      ensures old(state) == Approaching && hypot > 5.0 ==>
        Stepped(gfx, old(gfx.x), old(gfx.y), hypot, heading, delta)
        && isLocked == old(isLocked)
      ensures old(state) == Approaching && hypot <= 5.0 ==>
        state == Locked && isLocked && gfx.x == targetX && gfx.y == targetY && gfx.rotation == targetAngle
        && lockX == targetX && lockY == targetY
      ensures old(state) == Locked ==> state == Locked && isLocked == old(isLocked) && lockX == old(lockX) && lockY == old(lockY)
      ensures old(state) == Locked && isLocked ==> gfx.x == lockX && gfx.y == lockY && gfx.rotation == targetAngle
      ensures shot.Some? <==>
        old(state) == Locked && old(isLocked) && old(ammoRemaining) > 0 && old(shootTimer) - delta <= 0.0
      ensures shot.Some? ==>
        shot.value == coreAngle && lastShotDirection == Some((cos(coreAngle), sin(coreAngle)))
        && shootTimer == shootInterval
      ensures old(state) == Approaching && hypot > 5.0 ==> lockX == old(lockX) && lockY == old(lockY)
      ensures old(state) == Locked && !old(isLocked) ==>
        gfx.x == old(gfx.x) && gfx.y == old(gfx.y) && gfx.rotation == old(gfx.rotation)
      ensures old(state) == Locked && old(isLocked) && old(ammoRemaining) > 0 && shot.None? ==>
        shootTimer == old(shootTimer) - delta
      ensures !(old(state) == Locked && old(isLocked) && old(ammoRemaining) > 0) ==> shootTimer == old(shootTimer)
      ensures shot.None? ==> lastShotDirection == old(lastShotDirection)
      ensures ammoRemaining == old(ammoRemaining) - (if shot.Some? then 1 else 0)
      ensures old(ammoRemaining) >= 0 ==> ammoRemaining >= 0
    {
      shot := None;
      if state == Approaching {
        if hypot > 5.0 {
          gfx.StepToward(targetX, targetY, hypot, speed, delta);
          gfx.rotation := heading;
        } else {
          state := Locked;
          gfx.x, gfx.y := targetX, targetY;
          gfx.rotation := targetAngle;
          isLocked := true;
          lockX, lockY := gfx.x, gfx.y;
        }
      } else if isLocked {
        gfx.x, gfx.y := lockX, lockY;
        gfx.rotation := targetAngle;
        if ammoRemaining > 0 {
          shootTimer := shootTimer - delta;
          if shootTimer <= 0.0 {
            lastShotDirection := Some((cos(coreAngle), sin(coreAngle)));
            shot := Some(coreAngle);
            ammoRemaining := ammoRemaining - 1;
            shootTimer := shootInterval;
          }
        }
      }
    }

    /** One step of `speed * delta` toward the firing position, turned along `heading`. */
    predicate Stepped(gfx: Sprite, x0: real, y0: real, hypot: real, heading: real, delta: real)
      requires hypot != 0.0
      reads this, gfx
    {
      state == Approaching
      && gfx.x == x0 + (targetX - x0) / hypot * speed * delta
      && gfx.y == y0 + (targetY - y0) / hypot * speed * delta
      && gfx.rotation == heading
    }

    /**
     * `onEmeraldBowHit`: one more broken part, the bow fades to `BowAlpha`,
     * and an arrow is deflected when there is hit information and the bow
     * has shot before.
     */
    method OnHit(hitInfo: bool) returns (alpha: real, deflect: bool)
      modifies this`brokenParts
      ensures brokenParts == old(brokenParts) + 1
      ensures alpha == BowAlpha(brokenParts)
      ensures deflect <==> hitInfo && lastShotDirection.Some?
    {
      brokenParts := brokenParts + 1;
      alpha := BowAlpha(brokenParts);
      deflect := hitInfo && lastShotDirection.Some?;
    }
  }

  // ---------------------------------------------------------------------------
  // Death of an orbiter: purge its nearby arcs
  // ---------------------------------------------------------------------------

  /**
   * An enemy projectile as the death handler reads it: an explicit position
   * when `x`/`y` are defined, otherwise a polar one around the core (a
   * missing `angle` counts as 0; a missing `radius` gives no position).
   */
  datatype Projectile = Projectile(ownerType: string, x: Option<real>, y: Option<real>,
                                   angle: Option<real>, radius: Option<real>)

  function PositionX(p: Projectile, coreX: real, cos: real -> real): Option<real>
  {
    if p.x.Some? then p.x
    else if p.radius.None? then None
    else Some(coreX + cos(if p.angle.Some? then p.angle.value else 0.0) * p.radius.value)
  }

  function PositionY(p: Projectile, coreY: real, sin: real -> real): Option<real>
  {
    if p.y.Some? then p.y
    else if p.radius.None? then None
    else Some(coreY + sin(if p.angle.Some? then p.angle.value else 0.0) * p.radius.value)
  }

  /**
   * A pink projectile whose position is within 140 of the dying enemy at
   * (`ex`, `ey`); `hypot(dx, dy) <= 140` is compared squared.
   */
  predicate Near(p: Projectile, ex: real, ey: real, coreX: real, coreY: real, cos: real -> real, sin: real -> real)
  {
    p.ownerType == "pink"
    && PositionX(p, coreX, cos).Some? && PositionY(p, coreY, sin).Some?
    && var dx := PositionX(p, coreX, cos).value - ex;
    var dy := PositionY(p, coreY, sin).value - ey;
    dx * dx + dy * dy <= 140.0 * 140.0
  }

  /** The projectiles that survive the purge, in their original order. */
  function Purge(ps: seq<Projectile>, ex: real, ey: real, coreX: real, coreY: real,
                 cos: real -> real, sin: real -> real): (r: seq<Projectile>)
    ensures |r| <= |ps|
  {
    if |ps| == 0 then []
    else
      var head := if Near(ps[0], ex, ey, coreX, coreY, cos, sin) then [] else [ps[0]];
      head + Purge(ps[1..], ex, ey, coreX, coreY, cos, sin)
  }

  /** The purge keeps exactly the projectiles that are not near pink arcs. */
  lemma {:induction false} PurgeMembers(ps: seq<Projectile>, ex: real, ey: real, coreX: real, coreY: real,
                                        cos: real -> real, sin: real -> real, q: Projectile)
    ensures q in Purge(ps, ex, ey, coreX, coreY, cos, sin) <==> q in ps && !Near(q, ex, ey, coreX, coreY, cos, sin)
  {
    if |ps| > 0 {
      PurgeMembers(ps[1..], ex, ey, coreX, coreY, cos, sin, q);
      assert ps == [ps[0]] + ps[1..];
    }
  }

  /** A list with nothing to purge is left as it is. */
  lemma {:induction false} PurgeNothingNear(ps: seq<Projectile>, ex: real, ey: real, coreX: real, coreY: real,
                                            cos: real -> real, sin: real -> real)
    requires forall i :: 0 <= i < |ps| ==> !Near(ps[i], ex, ey, coreX, coreY, cos, sin)
    ensures Purge(ps, ex, ey, coreX, coreY, cos, sin) == ps
  {
    if |ps| > 0 {
      PurgeNothingNear(ps[1..], ex, ey, coreX, coreY, cos, sin);
      assert ps == [ps[0]] + ps[1..];
    }
  }

  /** Purging a second time removes nothing more. */
  lemma {:induction false} PurgeIdempotent(ps: seq<Projectile>, ex: real, ey: real, coreX: real, coreY: real,
                        cos: real -> real, sin: real -> real)
    ensures var once := Purge(ps, ex, ey, coreX, coreY, cos, sin);
      Purge(once, ex, ey, coreX, coreY, cos, sin) == once
  {
    var once := Purge(ps, ex, ey, coreX, coreY, cos, sin);
    forall i | 0 <= i < |once| ensures !Near(once[i], ex, ey, coreX, coreY, cos, sin) {
      PurgeMembers(ps, ex, ey, coreX, coreY, cos, sin, once[i]);
    }
    PurgeNothingNear(once, ex, ey, coreX, coreY, cos, sin);
  }

  lemma {:induction false} PurgeStep(ps: seq<Projectile>, k: nat, ex: real, ey: real, coreX: real, coreY: real,
                  cos: real -> real, sin: real -> real)
    requires k < |ps|
    ensures Purge(ps[k..], ex, ey, coreX, coreY, cos, sin)
      == (if Near(ps[k], ex, ey, coreX, coreY, cos, sin) then [] else [ps[k]])
         + Purge(ps[k + 1..], ex, ey, coreX, coreY, cos, sin)
  {
    assert ps[k..][1..] == ps[k + 1..];
  }

  /** The game state's `enemyProjectiles` list, which the death handler splices. */
  class ProjectileList {
    var enemyProjectiles: seq<Projectile>

    constructor (ps: seq<Projectile>)
      ensures enemyProjectiles == ps
    {
      enemyProjectiles := ps;
    }

    /**
     * `onEnemyDeath`: when an astral orbiter at (`ex`, `ey`) dies, its
     * nearby pink projectiles are spliced out walking the list backwards;
     * every other death leaves the list alone.
     */
    method OnEnemyDeath(enemyType: string, ex: real, ey: real, coreX: real, coreY: real,
                        cos: real -> real, sin: real -> real)
      modifies this`enemyProjectiles
      ensures enemyType == "astralOrbiter" ==>
        enemyProjectiles == Purge(old(enemyProjectiles), ex, ey, coreX, coreY, cos, sin)
      ensures enemyType != "astralOrbiter" ==> enemyProjectiles == old(enemyProjectiles)
    {
      if enemyType == "astralOrbiter" {
        ghost var ps := enemyProjectiles;
        var i := |enemyProjectiles|;
        while i > 0
          invariant 0 <= i <= |ps|
          invariant enemyProjectiles == ps[..i] + Purge(ps[i..], ex, ey, coreX, coreY, cos, sin)
        {
          i := i - 1;
          PurgeStep(ps, i, ex, ey, coreX, coreY, cos, sin);
          assert ps[..i + 1] == ps[..i] + [ps[i]];
          if Near(enemyProjectiles[i], ex, ey, coreX, coreY, cos, sin) {
            enemyProjectiles := enemyProjectiles[..i] + enemyProjectiles[i + 1..];
          }
        }
        assert ps[0..] == ps;
      }
    }
  }
}
