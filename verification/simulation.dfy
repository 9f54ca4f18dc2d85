/**
 Turns of the most complete stage: what one pass of the scheduler does to a
 tank and to a bullet, what `n` passes do, and the state the stage starts
 from (populate, initialise from `entitiesRawData`, then one
 `processComponents()` for the initial render).
 */
module Simulation {
  import opened Common
  import opened Components
  import opened Store
  import opened Archetypes
  import opened Systems
  import opened Scheduler

  /** The sum of the track speeds of entity `e`. */
  function TrackSum(w: World, e: nat): int
    requires w.Valid() && e < ENTITIES_COUNT
  {
    w.trackLefts[e].speed + w.trackRights[e].speed
  }

  /** A tank whose transform, motion, turret and both tracks are active. */
  predicate Driving(w: World, e: nat)
  {
    e < TANKS_COUNT && TurretGate(w, e) && MotionGate(w, e)
  }

  /**
   A pass never changes the tracks, hulls or payloads and never deactivates
   anything; the only components it activates are the transform and motion
   of bullet slots. A well-formed store stays well-formed.
   */
  lemma TickFrame(trig: Trig, w: World)
    requires w.Valid()
    ensures var r := Tick(trig, w);
      r.trackLefts == w.trackLefts && r.trackRights == w.trackRights
      && r.hulls == w.hulls && r.payloads == w.payloads
    ensures var r := Tick(trig, w);
      forall k, e :: 0 <= e < ENTITIES_COUNT && w.IsActive(k, e) ==> r.IsActive(k, e)
    ensures var r := Tick(trig, w);
      forall k, e :: 0 <= e < ENTITIES_COUNT && r.IsActive(k, e) && !w.IsActive(k, e) ==>
        (k == TRANSFORM || k == MOTION) && TANKS_COUNT <= e
    ensures WellFormed(w) ==> WellFormed(Tick(trig, w))
  {
    forall k, e | 0 <= e < ENTITIES_COUNT
      ensures w.IsActive(k, e) ==> Tick(trig, w).IsActive(k, e)
      ensures Tick(trig, w).IsActive(k, e) && !w.IsActive(k, e) ==> (k == TRANSFORM || k == MOTION) && TANKS_COUNT <= e
    {
      TickActivity(trig, w, k, e);
    }
    if WellFormed(w) {
      TickKeepsWellFormed(trig, w);
    }
  }

  /** The activity of one component across a pass. */
  lemma TickActivity(trig: Trig, w: World, k: Kind, e: nat)
    requires w.Valid() && e < ENTITIES_COUNT
    ensures w.IsActive(k, e) ==> Tick(trig, w).IsActive(k, e)
    ensures Tick(trig, w).IsActive(k, e) && !w.IsActive(k, e) ==> (k == TRANSFORM || k == MOTION) && TANKS_COUNT <= e
  {
    var n := ENTITIES_COUNT;
    var w1 := RefreshMotions(w, n);
    var w2 := IntegrateAll(w1, n);
    var r := AdvanceTurrets(trig, w2, n);
    assert w1.IsActive(k, e) == w.IsActive(k, e);
    assert w2.IsActive(k, e) == w1.IsActive(k, e);
    if e < TANKS_COUNT || (k != TRANSFORM && k != MOTION) {
      assert r.IsActive(k, e) == w2.IsActive(k, e);
    }
  }

  /** A pass keeps every turret's active flag, so a well-formed store stays well-formed. */
  lemma TickKeepsWellFormed(trig: Trig, w: World)
    requires WellFormed(w)
    ensures WellFormed(Tick(trig, w))
  {
    var w2 := IntegrateAll(RefreshMotions(w, ENTITIES_COUNT), ENTITIES_COUNT);
    assert w2.turrets == w.turrets;
  }

  /**
   One pass moves a driving tank forward by the sum of its track speeds (plus
   its sideways motion), sets its forward speed to that sum and steps its
   turret once; it stays a driving tank.
   */
  lemma TankTick(trig: Trig, w: World, e: nat)
    requires WellFormed(w) && Driving(w, e)
    ensures var r := Tick(trig, w);
      && r.turrets[e] == TurretStep(w.turrets[e])
      && r.motions[e] == w.motions[e].(dy := TrackSum(w, e) as real)
      && r.transforms[e] == w.transforms[e].(x := w.transforms[e].x + w.motions[e].dx,
                                             y := w.transforms[e].y + TrackSum(w, e) as real)
      && Driving(r, e) && TrackSum(r, e) == TrackSum(w, e)
  {
    var n := ENTITIES_COUNT;
    var w1 := RefreshMotions(w, n);
    var w2 := IntegrateAll(w1, n);
    var r := AdvanceTurrets(trig, w2, n);
    TickFrame(trig, w);
    assert w1.motions[e] == w.motions[e].(dy := TrackSum(w, e) as real);
    assert TransformGate(w1, e);
    assert w2.transforms[e] == Integrate(w1.transforms[e], w1.motions[e]);
    assert !BulletFired(w2, e, n);
    assert TurretGate(w2, e);
  }

  /**
   A tank that fires in a pass launches its bullet from the position the tank
   reached in that same pass (positions are integrated before turrets run), with
   the tank's refreshed motion plus the muzzle velocity; the bullet does not
   move until the next pass.
   */
  lemma BulletLaunch(trig: Trig, w: World, e: nat)
    requires WellFormed(w) && Driving(w, e) && Fires(w.turrets[e])
    ensures var r, b, t := Tick(trig, w), BulletSlot(e), TurretStep(w.turrets[e]);
      && r.transforms[b] == Transform(true, r.transforms[e].x, r.transforms[e].y)
      && r.motions[b] == Motion(true, r.motions[e].dx - trig.sin(t.angle) * t.gunPower as real,
                                r.motions[e].dy + trig.cos(t.angle) * t.gunPower as real)
      && r.turrets[e].reloadCountdown == w.turrets[e].reloadTime
  {
    var n := ENTITIES_COUNT;
    var w1 := RefreshMotions(w, n);
    var w2 := IntegrateAll(w1, n);
    var b := BulletSlot(e);
    TankTick(trig, w, e);
    assert TurretGate(w2, e);
    assert BulletFired(w2, b, n);
  }

  /**
   A bullet whose tank does not fire in a pass, and which has no tracks, keeps
   its motion and moves by it (once it is active).
   */
  lemma BulletFlight(trig: Trig, w: World, b: nat)
    requires WellFormed(w) && TANKS_COUNT <= b < ENTITIES_COUNT
    requires !MotionGate(w, b) && TransformGate(w, b)
    requires !(TurretGate(w, b - TANKS_COUNT) && Fires(w.turrets[b - TANKS_COUNT]))
    ensures var r := Tick(trig, w);
      r.motions[b] == w.motions[b] && r.transforms[b] == Integrate(w.transforms[b], w.motions[b])
  {
    var n := ENTITIES_COUNT;
    var w1 := RefreshMotions(w, n);
    var w2 := IntegrateAll(w1, n);
    var k := b - TANKS_COUNT;
    assert w2.turrets[k] == w.turrets[k];
    assert TurretGate(w2, k) == TurretGate(w, k) by {
      assert w2.transforms[k].isActive == w.transforms[k].isActive;
      assert w2.motions[k].isActive == w.motions[k].isActive;
    }
    assert !BulletFired(w2, b, n);
  }

  /** `n` passes of the reference turn. */
  function TickN(trig: Trig, w: World, n: nat): (r: World)
    requires w.Valid()
    ensures r.Valid()
  {
    if n == 0 then w else Tick(trig, TickN(trig, w, n - 1))
  }

  /** `n` presses of the space key: `processComponents()` run `n` times. */
  function Ticks(trig: Trig, w: World, n: nat): (r: Result<World>)
    requires w.Valid()
    ensures r.Ok? ==> r.value.Valid()
  {
    if n == 0 then Ok(w)
    else match Ticks(trig, w, n - 1)
      case Err(f) => Err(f)
      case Ok(w') => ProcessComponents(trig, w')
  }

  /** From a well-formed store every run of turns succeeds, stays well-formed and is the reference turn iterated. */
  lemma {:induction false} TicksAreTickN(trig: Trig, w: World, n: nat)
    requires WellFormed(w)
    ensures Ticks(trig, w, n) == Ok(TickN(trig, w, n))
    ensures WellFormed(TickN(trig, w, n))
  {
    TickNWellFormed(trig, w, n);
    if n > 0 {
      TicksAreTickN(trig, w, n - 1);
      var prev := TickN(trig, w, n - 1);
      assert Ticks(trig, w, n) == ProcessComponents(trig, prev);
      ProcessComponentsIsTick(trig, prev);
    }
  }


  /** Every number of reference turns keeps a store well-formed. */
  lemma {:induction false} TickNWellFormed(trig: Trig, w: World, n: nat)
    requires WellFormed(w)
    ensures WellFormed(TickN(trig, w, n))
  {
    if n > 0 {
      TickNWellFormed(trig, w, n - 1);
      TickKeepsWellFormed(trig, TickN(trig, w, n - 1));
    }
  }

  /** Tank `e` of `r` is tank `e` of `w` after `n` passes: the conclusion of `TankAfterTicks`. */
  predicate TankAfter(w: World, r: World, e: nat, n: nat)
    requires w.Valid() && r.Valid() && e < TANKS_COUNT
  {
    && r.turrets[e] == StepN(w.turrets[e], n)
    && r.transforms[e].x == w.transforms[e].x + n as real * w.motions[e].dx
    && r.transforms[e].y == w.transforms[e].y + (n * TrackSum(w, e)) as real
    && r.motions[e].dx == w.motions[e].dx
    && (n > 0 ==> r.motions[e].dy == TrackSum(w, e) as real)
    && Driving(r, e) && TrackSum(r, e) == TrackSum(w, e)
  }

  /** One more pass extends `TankAfter` by one. */
  lemma TankAfterStep(w: World, prev: World, r: World, e: nat, n: nat)
    requires w.Valid() && prev.Valid() && r.Valid() && e < TANKS_COUNT
    requires TankAfter(w, prev, e, n)
    requires r.turrets[e] == TurretStep(prev.turrets[e])
    requires r.motions[e] == prev.motions[e].(dy := TrackSum(prev, e) as real)
    requires r.transforms[e] == prev.transforms[e].(x := prev.transforms[e].x + prev.motions[e].dx,
                                                    y := prev.transforms[e].y + TrackSum(prev, e) as real)
    requires Driving(r, e) && TrackSum(r, e) == TrackSum(prev, e)
    ensures TankAfter(w, r, e, n + 1)
  {
    var s, dx := TrackSum(w, e), w.motions[e].dx;
    assert (n + 1) * s == n * s + s;
    assert ((n + 1) * s) as real == (n * s) as real + s as real;
    assert (n + 1) as real * dx == n as real * dx + dx;
  }

  /**
   After `n` passes a driving tank has moved `n` times the sum of its track
   speeds forward and `n` times its sideways speed across, and its turret is
   the turret stepped `n` times (see `ReloadCycle` for the countdown).
   */
  lemma {:induction false} TankAfterTicks(trig: Trig, w: World, e: nat, n: nat)
    requires WellFormed(w) && Driving(w, e)
    ensures TankAfter(w, TickN(trig, w, n), e, n)
  {
    if n > 0 {
      TankAfterTicks(trig, w, e, n - 1);
      TankAfterTickN(trig, w, e, n);
    }
  }

  /** The `n`-th turn extends `TankAfter` from `n - 1` to `n` turns. */
  lemma TankAfterTickN(trig: Trig, w: World, e: nat, n: nat)
    requires WellFormed(w) && e < TANKS_COUNT && n > 0
    requires TankAfter(w, TickN(trig, w, n - 1), e, n - 1)
    ensures TankAfter(w, TickN(trig, w, n), e, n)
  {
    var prev := TickN(trig, w, n - 1);
    TickNWellFormed(trig, w, n - 1);
    TankAfterTick(trig, w, prev, e, n - 1);
    TickNUnfolds(trig, w, n - 1);
  }

  /** One more pass extends `TankAfter` by one turn. */
  lemma TankAfterTick(trig: Trig, w: World, prev: World, e: nat, n: nat)
    requires w.Valid() && WellFormed(prev) && e < TANKS_COUNT
    requires TankAfter(w, prev, e, n)
    ensures TankAfter(w, Tick(trig, prev), e, n + 1)
  {
    TankTick(trig, prev, e);
    TankAfterStep(w, prev, Tick(trig, prev), e, n);
  }

  // ---- Worked examples ----

  /** A tank at (64, 0) with track speeds 2 and 3: after one pass its forward speed is 5 and it stands at (64, 5). */
  lemma MotionIntegrationExample(trig: Trig, w: World, e: nat)
    requires WellFormed(w) && Driving(w, e)
    requires w.transforms[e].x == 64.0 && w.transforms[e].y == 0.0 && w.motions[e].dx == 0.0
    requires w.trackLefts[e].speed == 2 && w.trackRights[e].speed == 3
    ensures ProcessComponents(trig, w).Ok?
    ensures var r := ProcessComponents(trig, w).value;
      r.motions[e].dy == 5.0 && r.transforms[e].x == 64.0 && r.transforms[e].y == 5.0
  {
    ProcessComponentsIsTick(trig, w);
    TankTick(trig, w, e);
  }

  /**
   A tank at (64, 5) moving (0, 5) whose turret points at angle 0 with gun
   power 10 and fires: its bullet moves (0, 15) from (64, 5).
   */
  lemma FiringKinematicsExample(trig: Trig, w: World, e: nat)
    requires w.Valid() && e < TANKS_COUNT
    requires trig.sin(0.0) == 0.0 && trig.cos(0.0) == 1.0
    requires w.transforms[e] == Transform(true, 64.0, 5.0) && w.motions[e] == Motion(true, 0.0, 5.0)
    requires w.turrets[e].angle == 0.0 && w.turrets[e].angleDelta == 0.0
    requires w.turrets[e].gunPower == 10 && w.turrets[e].reloadCountdown == 1
    ensures UpdateTurret(trig, w, e).Ok?
    ensures var r, b := UpdateTurret(trig, w, e).value, BulletSlot(e);
      r.motions[b] == Motion(true, 0.0, 15.0) && r.transforms[b] == Transform(true, 64.0, 5.0)
  {
  }

  // ---- The stage as shipped ----

  /** Populate, initialise from `entitiesRawData`, then one pass for the initial render. */
  function Startup(trig: Trig, rng: Rng): (r: Result<World>)
  {
    match InitialiseComponentArrays(EntityArcheTypes, PrototypeWorld(), EntitiesRawData, rng)
    case Err(f) => Err(f)
    case Ok(w) => ProcessComponents(trig, w)
  }

  /** The store right after initialisation, before the render pass. */
  function Initialised(rng: Rng): (w: World)
    ensures w.Valid()
  {
    ShippedInitialisation(rng);
    InitialiseComponentArrays(EntityArcheTypes, PrototypeWorld(), EntitiesRawData, rng).value
  }

  lemma InitialisedIsWellFormed(rng: Rng)
    ensures WellFormed(Initialised(rng))
    ensures forall e :: 0 <= e < TANKS_COUNT ==> Driving(Initialised(rng), e) && FreshTank(Initialised(rng), e)
  {
    ShippedInitialisation(rng);
    var w := Initialised(rng);
    forall e | TANKS_COUNT <= e < ENTITIES_COUNT
      ensures !w.turrets[e].isActive
    {
      assert FreshBullet(w, e);
    }
    forall e | 0 <= e < TANKS_COUNT
      ensures Driving(w, e) && FreshTank(w, e)
    {
      assert FreshTank(w, e);
    }
  }

  /**
   The stage as shipped, for every choice of random draws and trigonometry:
   startup succeeds, and after it and `n` further turns (`n + 1` passes in
   all, since the initial render pass also simulates) tank `e` stands at its
   listed x, has driven `n + 1` times its track-speed sum forward, its
   countdown is `reloadTime - (n + 1) % reloadTime`, and it has fired
   `(n + 1) / reloadTime` times. No turn fails.
   */
  lemma ShippedRun(trig: Trig, rng: Rng, n: nat, e: nat)
    requires e < TANKS_COUNT
    ensures Startup(trig, rng).Ok?
    ensures Ticks(trig, Startup(trig, rng).value, n).Ok?
    ensures var w0, r := Initialised(rng), Ticks(trig, Startup(trig, rng).value, n).value;
      var turret := w0.turrets[e];
      && r.transforms[e].x == TANK_X[e]
      && r.transforms[e].y == ((n + 1) * TrackSum(w0, e)) as real
      && 2 * TRACK_SPEED_MIN <= TrackSum(w0, e) <= 2 * (TRACK_SPEED_MAX - 1)
      && TURRET_RELOADTIME_MIN <= turret.reloadTime
      && r.turrets[e].reloadCountdown == turret.reloadTime - (n + 1) % turret.reloadTime
      && FireCount(turret, n + 1) == (n + 1) / turret.reloadTime
  {
    var w0 := Initialised(rng);
    ShippedInitialisation(rng);
    InitialisedIsWellFormed(rng);
    ProcessComponentsIsTick(trig, w0);
    assert Startup(trig, rng) == Ok(Tick(trig, w0));
    TickFrame(trig, w0);
    var w1 := Tick(trig, w0);
    TicksAreTickN(trig, w1, n);
    TickNShift(trig, w0, n);
    TankAfterTicks(trig, w0, e, n + 1);
    ReloadCycle(w0.turrets[e], n + 1);
  }

  /** `n` passes after one pass are `n + 1` passes. */
  lemma {:induction false} TickNShift(trig: Trig, w: World, n: nat)
    requires w.Valid()
    ensures TickN(trig, Tick(trig, w), n) == TickN(trig, w, n + 1)
  {
    if n > 0 {
      TickNShift(trig, w, n - 1);
      TickNUnfolds(trig, Tick(trig, w), n - 1);
      TickNUnfolds(trig, w, n);
    }
  }

  /** One more reference turn on top of `n`. */
  lemma TickNUnfolds(trig: Trig, w: World, n: nat)
    requires w.Valid()
    ensures TickN(trig, w, n + 1) == Tick(trig, TickN(trig, w, n))
  {
  }
}
