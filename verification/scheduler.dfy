/**
 The system registry and the system-major scheduler (`processComponents`).

 A system is an update function together with the kinds it depends on. One
 pass runs the systems in list order; each system visits the entities
 `0 .. ENTITIES_COUNT - 1` in ascending order and updates an entity only when
 every kind it depends on is active for that entity in the store as it is
 at that moment, so the writes of earlier systems and lower entities are
 visible to later ones.
 */
module Scheduler {
  import opened Common
  import opened Components
  import opened Store
  import opened Systems

  /** The update functions the systems list names. The render systems draw and leave the store alone. */
  datatype Update = RenderHull | RenderTurret | RenderBullet | MotionFromTracks | TransformFromMotion | TurretFire

  datatype System = System(update: Update, componentDependencies: seq<Kind>)

  const RENDER_HULL := System(RenderHull, [TRANSFORM, HULL])
  const RENDER_TURRET := System(RenderTurret, [TRANSFORM, TURRET])
  const RENDER_BULLET := System(RenderBullet, [TRANSFORM, PAYLOAD])
  const MOTION_FROM_TRACKS := System(MotionFromTracks, [MOTION, TRACK_LEFT, TRACK_RIGHT])
  const TRANSFORM_FROM_MOTION := System(TransformFromMotion, [TRANSFORM, MOTION])
  const TURRET_FIRE := System(TurretFire, [TRANSFORM, MOTION, TURRET])

  /** `ECS.systems`, in the order in which they run. */
  const SYSTEMS: seq<System> :=
    [RENDER_HULL, RENDER_TURRET, RENDER_BULLET, MOTION_FROM_TRACKS, TRANSFORM_FROM_MOTION, TURRET_FIRE]

  /** The loop `depsMet = depsMet && array[e].isActive` over the remaining dependencies. */
  function DepsFold(w: World, deps: seq<Kind>, e: nat, depsMet: bool): (r: bool)
    ensures r <==> depsMet && forall i :: 0 <= i < |deps| ==> w.IsActive(deps[i], e)
    decreases |deps|
  {
    if deps == [] then depsMet
    else
      var rest := DepsFold(w, deps[1..], e, depsMet && w.IsActive(deps[0], e));
      assert forall i :: 1 <= i < |deps| ==> deps[i] == deps[1..][i - 1];
      rest
  }

  /**
   `systemDependenciesMetByEntity(system, e)`: true exactly when every kind the
   system depends on is active for `e`; a system without dependencies always runs.
   */
  function SystemDependenciesMetByEntity(w: World, s: System, e: nat): (r: bool)
    ensures r <==> forall c :: c in s.componentDependencies ==> w.IsActive(c, e)
    ensures s.componentDependencies == [] ==> r
  {
    DepsFold(w, s.componentDependencies, e, true)
  }

  /** `system.update(e)`. */
  function RunUpdate(trig: Trig, u: Update, w: World, e: nat): (r: Result<World>)
    requires w.Valid() && e < ENTITIES_COUNT
    ensures r.Ok? ==> r.value.Valid()
  {
    match u
    case RenderHull | RenderTurret | RenderBullet => Ok(w)
    case MotionFromTracks => Ok(UpdateMotionFromTracks(w, e))
    case TransformFromMotion => Ok(UpdateTransform(w, e))
    case TurretFire => UpdateTurret(trig, w, e)
  }

  /** One system over the entities `0 .. n - 1`, in ascending order. */
  function RunSystemUpTo(trig: Trig, s: System, w: World, n: nat): (r: Result<World>)
    requires w.Valid() && n <= ENTITIES_COUNT
    ensures r.Ok? ==> r.value.Valid()
    decreases n
  {
    if n == 0 then Ok(w)
    else match RunSystemUpTo(trig, s, w, n - 1)
      case Err(f) => Err(f)
      case Ok(w') =>
        if SystemDependenciesMetByEntity(w', s, n - 1) then RunUpdate(trig, s.update, w', n - 1) else Ok(w')
  }

  function RunSystem(trig: Trig, s: System, w: World): (r: Result<World>)
    requires w.Valid()
    ensures r.Ok? ==> r.value.Valid()
  {
    RunSystemUpTo(trig, s, w, ENTITIES_COUNT)
  }

  /** The systems of `systems`, one after another, each over all entities. */
  function ProcessSystems(trig: Trig, systems: seq<System>, w: World): (r: Result<World>)
    requires w.Valid()
    ensures r.Ok? ==> r.value.Valid()
    decreases |systems|
  {
    if systems == [] then Ok(w)
    else match RunSystem(trig, systems[0], w)
      case Err(f) => Err(f)
      case Ok(w') => ProcessSystems(trig, systems[1..], w')
  }

  /** `processComponents()`: one turn. */
  function ProcessComponents(trig: Trig, w: World): (r: Result<World>)
    requires w.Valid()
    ensures r.Ok? ==> r.value.Valid()
  {
    ProcessSystems(trig, SYSTEMS, w)
  }

  // ---- Ordering of a pass ----

  /** Running `a ++ b` is running `a`, then running `b` on what `a` left: the pass is system-major. */
  lemma {:induction false} ProcessSystemsAppend(trig: Trig, a: seq<System>, b: seq<System>, w: World)
    requires w.Valid()
    ensures ProcessSystems(trig, a + b, w) ==
              match ProcessSystems(trig, a, w)
              case Err(f) => Err(f)
              case Ok(w') => ProcessSystems(trig, b, w')
    decreases |a|
  {
    if a != [] {
      assert (a + b)[0] == a[0] && (a + b)[1..] == a[1..] + b;
      match RunSystem(trig, a[0], w)
      case Err(f) =>
      case Ok(w') => ProcessSystemsAppend(trig, a[1..], b, w');
    } else {
      assert a + b == b;
    }
  }

  /** A render system leaves the store as it found it. */
  lemma {:induction false} RenderSystemLeavesStore(trig: Trig, s: System, w: World, n: nat)
    requires w.Valid() && n <= ENTITIES_COUNT
    requires s.update == RenderHull || s.update == RenderTurret || s.update == RenderBullet
    ensures RunSystemUpTo(trig, s, w, n) == Ok(w)
    decreases n
  {
    if n > 0 {
      RenderSystemLeavesStore(trig, s, w, n - 1);
    }
  }

  /** The three render systems together leave the store as it is, so a pass is its simulation systems alone. */
  lemma ProcessComponentsSkipsRenders(trig: Trig, w: World)
    requires w.Valid()
    ensures ProcessComponents(trig, w) == ProcessSystems(trig, SYSTEMS[3..], w)
  {
    RenderSystemLeavesStore(trig, RENDER_HULL, w, ENTITIES_COUNT);
    RenderSystemLeavesStore(trig, RENDER_TURRET, w, ENTITIES_COUNT);
    RenderSystemLeavesStore(trig, RENDER_BULLET, w, ENTITIES_COUNT);
    var s1, s2, s3 := SYSTEMS[1..], SYSTEMS[2..], SYSTEMS[3..];
    assert s1[0] == RENDER_TURRET && s1[1..] == s2;
    assert s2[0] == RENDER_BULLET && s2[1..] == s3;
    assert ProcessSystems(trig, s2, w) == ProcessSystems(trig, s3, w);
    assert ProcessSystems(trig, s1, w) == ProcessSystems(trig, s2, w);
  }

  // ---- Reference definitions: each simulation system applied to the first `n` entities at once ----

  predicate MotionGate(w: World, e: nat)
  {
    w.IsActive(MOTION, e) && w.IsActive(TRACK_LEFT, e) && w.IsActive(TRACK_RIGHT, e)
  }

  predicate TransformGate(w: World, e: nat)
  {
    w.IsActive(TRANSFORM, e) && w.IsActive(MOTION, e)
  }

  predicate TurretGate(w: World, e: nat)
  {
    w.IsActive(TRANSFORM, e) && w.IsActive(MOTION, e) && w.IsActive(TURRET, e)
  }

  /** Every entity below `n` with active motion and tracks drives at the sum of its track speeds. */
  function RefreshMotions(w: World, n: nat): (r: World)
    requires w.Valid()
    ensures r.Valid()
  {
    w.(motions := seq(ENTITIES_COUNT, e requires 0 <= e < ENTITIES_COUNT =>
         if e < n && MotionGate(w, e)
         then w.motions[e].(dy := (w.trackLefts[e].speed + w.trackRights[e].speed) as real)
         else w.motions[e]))
  }

  /** Every entity below `n` with active transform and motion moves by its motion. */
  function IntegrateAll(w: World, n: nat): (r: World)
    requires w.Valid()
    ensures r.Valid()
  {
    w.(transforms := seq(ENTITIES_COUNT, e requires 0 <= e < ENTITIES_COUNT =>
         if e < n && TransformGate(w, e) then Integrate(w.transforms[e], w.motions[e]) else w.transforms[e]))
  }

  /** Bullet slot `b` belongs to a tank below `n` whose turret runs and fires this pass. */
  predicate BulletFired(w: World, b: nat, n: nat)
    requires w.Valid()
  {
    TANKS_COUNT <= b < ENTITIES_COUNT && b - TANKS_COUNT < n
    && TurretGate(w, b - TANKS_COUNT) && Fires(w.turrets[b - TANKS_COUNT])
  }

  /** Every tank below `n` with an active turret steps it, and the bullets of those that fire are launched. */
  function AdvanceTurrets(trig: Trig, w: World, n: nat): (r: World)
    requires w.Valid()
    ensures r.Valid()
  {
    w.(turrets := seq(ENTITIES_COUNT, e requires 0 <= e < ENTITIES_COUNT =>
         if e < n && TurretGate(w, e) then TurretStep(w.turrets[e]) else w.turrets[e]),
       transforms := seq(ENTITIES_COUNT, b requires 0 <= b < ENTITIES_COUNT =>
         if BulletFired(w, b, n)
         then FiredBulletTransform(w.transforms[b - TANKS_COUNT], w.transforms[b])
         else w.transforms[b]),
       motions := seq(ENTITIES_COUNT, b requires 0 <= b < ENTITIES_COUNT =>
         if BulletFired(w, b, n)
         then FiredBulletMotion(trig, w.motions[b - TANKS_COUNT], TurretStep(w.turrets[b - TANKS_COUNT]), w.motions[b])
         else w.motions[b]))
  }

  /** No entity in a bullet slot has an active turret: the condition under which no turret can fire out of range. */
  predicate WellFormed(w: World)
  {
    w.Valid() && forall e :: TANKS_COUNT <= e < ENTITIES_COUNT ==> !w.turrets[e].isActive
  }

  /** One turn, as the three simulation systems' reference definitions composed. */
  function Tick(trig: Trig, w: World): (r: World)
    requires w.Valid()
    ensures r.Valid()
  {
    AdvanceTurrets(trig, IntegrateAll(RefreshMotions(w, ENTITIES_COUNT), ENTITIES_COUNT), ENTITIES_COUNT)
  }

  // ---- Each system's entity loop computes its reference definition ----

  lemma {:induction false} MotionSystemComputesRefresh(trig: Trig, w: World, n: nat)
    requires w.Valid() && n <= ENTITIES_COUNT
    ensures RunSystemUpTo(trig, MOTION_FROM_TRACKS, w, n) == Ok(RefreshMotions(w, n))
    decreases n
  {
    if n == 0 {
      NoneRefreshed(w);
    } else {
      MotionSystemComputesRefresh(trig, w, n - 1);
      var prev := RefreshMotions(w, n - 1);
      MotionLoopStep(w, n - 1);
      assert SystemDependenciesMetByEntity(prev, MOTION_FROM_TRACKS, n - 1) == MotionGate(prev, n - 1);
    }
  }

  /** The reference definitions over no entities change nothing. */
  lemma NoneRefreshed(w: World)
    requires w.Valid()
    ensures RefreshMotions(w, 0) == w
  {
    assert RefreshMotions(w, 0).motions == w.motions;
  }

  lemma NoneIntegrated(w: World)
    requires w.Valid()
    ensures IntegrateAll(w, 0) == w
  {
    assert IntegrateAll(w, 0).transforms == w.transforms;
  }

  lemma NoneAdvanced(trig: Trig, w: World)
    requires w.Valid()
    ensures AdvanceTurrets(trig, w, 0) == w
  {
    assert AdvanceTurrets(trig, w, 0).turrets == w.turrets;
    assert AdvanceTurrets(trig, w, 0).transforms == w.transforms;
    assert AdvanceTurrets(trig, w, 0).motions == w.motions;
  }

  /** The motion loop visiting entity `e`: it finds `w`'s gate at `e` and its update yields the next prefix. */
  lemma MotionLoopStep(w: World, e: nat)
    requires w.Valid() && e < ENTITIES_COUNT
    ensures MotionGate(RefreshMotions(w, e), e) == MotionGate(w, e)
    ensures MotionGate(w, e) ==> UpdateMotionFromTracks(RefreshMotions(w, e), e) == RefreshMotions(w, e + 1)
    ensures !MotionGate(w, e) ==> RefreshMotions(w, e) == RefreshMotions(w, e + 1)
  {
    var prev, next := RefreshMotions(w, e), RefreshMotions(w, e + 1);
    assert prev.motions[e] == w.motions[e];
    if MotionGate(w, e) {
      assert UpdateMotionFromTracks(prev, e).motions == next.motions;
    } else {
      assert prev.motions == next.motions;
    }
  }

  lemma {:induction false} TransformSystemComputesIntegration(trig: Trig, w: World, n: nat)
    requires w.Valid() && n <= ENTITIES_COUNT
    ensures RunSystemUpTo(trig, TRANSFORM_FROM_MOTION, w, n) == Ok(IntegrateAll(w, n))
    decreases n
  {
    if n == 0 {
      NoneIntegrated(w);
    } else {
      TransformSystemComputesIntegration(trig, w, n - 1);
      var prev := IntegrateAll(w, n - 1);
      TransformLoopStep(w, n - 1);
      assert SystemDependenciesMetByEntity(prev, TRANSFORM_FROM_MOTION, n - 1) == TransformGate(prev, n - 1);
    }
  }

  /** The transform loop visiting entity `e`: it finds `w`'s gate at `e` and its update yields the next prefix. */
  lemma TransformLoopStep(w: World, e: nat)
    requires w.Valid() && e < ENTITIES_COUNT
    ensures TransformGate(IntegrateAll(w, e), e) == TransformGate(w, e)
    ensures TransformGate(w, e) ==> UpdateTransform(IntegrateAll(w, e), e) == IntegrateAll(w, e + 1)
    ensures !TransformGate(w, e) ==> IntegrateAll(w, e) == IntegrateAll(w, e + 1)
  {
    var prev, next := IntegrateAll(w, e), IntegrateAll(w, e + 1);
    assert prev.transforms[e] == w.transforms[e];
    if TransformGate(w, e) {
      assert UpdateTransform(prev, e).transforms == next.transforms;
    } else {
      assert prev.transforms == next.transforms;
    }
  }

  /** The turret loop visiting a tank `e`: the store it finds still holds `w`'s values at `e` and at `e`'s bullet slot. */
  lemma TurretLoopStep(trig: Trig, w: World, e: nat)
    requires WellFormed(w) && e < ENTITIES_COUNT
    ensures var prev := AdvanceTurrets(trig, w, e);
      TurretGate(prev, e) == TurretGate(w, e)
    ensures var prev := AdvanceTurrets(trig, w, e);
      TurretGate(w, e) ==> UpdateTurret(trig, prev, e) == Ok(AdvanceTurrets(trig, w, e + 1))
    ensures !TurretGate(w, e) ==> AdvanceTurrets(trig, w, e) == AdvanceTurrets(trig, w, e + 1)
  {
    var prev := AdvanceTurrets(trig, w, e);
    assert prev.turrets[e] == w.turrets[e];
    if e < TANKS_COUNT {
      assert prev.transforms[e] == w.transforms[e] && prev.motions[e] == w.motions[e];
      if TurretGate(w, e) {
        TurretLoopRuns(trig, w, e);
      } else {
        TurretLoopSkips(trig, w, e);
      }
    } else {
      assert !TurretGate(w, e);
      TurretLoopSkips(trig, w, e);
    }
  }

  /** A tank whose turret runs: its update on the store the loop finds is the next prefix. */
  lemma TurretLoopRuns(trig: Trig, w: World, e: nat)
    requires WellFormed(w) && e < TANKS_COUNT && TurretGate(w, e)
    ensures UpdateTurret(trig, AdvanceTurrets(trig, w, e), e) == Ok(AdvanceTurrets(trig, w, e + 1))
  {
    var prev := AdvanceTurrets(trig, w, e);
    var next := AdvanceTurrets(trig, w, e + 1);
    var b := BulletSlot(e);
    assert prev.turrets[e] == w.turrets[e];
    assert prev.transforms[e] == w.transforms[e] && prev.motions[e] == w.motions[e];
    assert prev.transforms[b] == w.transforms[b] && prev.motions[b] == w.motions[b];
    var r := UpdateTurret(trig, prev, e);
    assert r.Ok?;
    assert r.value.turrets == next.turrets;
    assert r.value.transforms == next.transforms;
    assert r.value.motions == next.motions;
  }

  /** An entity whose turret does not run leaves the prefix as it is. */
  lemma TurretLoopSkips(trig: Trig, w: World, e: nat)
    requires WellFormed(w) && e < ENTITIES_COUNT && !TurretGate(w, e)
    ensures AdvanceTurrets(trig, w, e) == AdvanceTurrets(trig, w, e + 1)
  {
    var prev := AdvanceTurrets(trig, w, e);
    var next := AdvanceTurrets(trig, w, e + 1);
    assert prev.turrets == next.turrets;
    assert prev.transforms == next.transforms;
    assert prev.motions == next.motions;
  }

  lemma {:induction false} TurretSystemComputesAdvance(trig: Trig, w: World, n: nat)
    requires WellFormed(w) && n <= ENTITIES_COUNT
    ensures RunSystemUpTo(trig, TURRET_FIRE, w, n) == Ok(AdvanceTurrets(trig, w, n))
    decreases n
  {
    if n == 0 {
      NoneAdvanced(trig, w);
    } else {
      TurretSystemComputesAdvance(trig, w, n - 1);
      var prev := AdvanceTurrets(trig, w, n - 1);
      TurretLoopStep(trig, w, n - 1);
      assert SystemDependenciesMetByEntity(prev, TURRET_FIRE, n - 1) == TurretGate(prev, n - 1);
    }
  }

  /**
   On a well-formed store one pass of the scheduler succeeds and equals the
   three reference definitions applied in the registry's order: first all
   motions are refreshed from the tracks, then every position integrates the
   refreshed motion, then the turrets step and fire.
   */
  lemma ProcessComponentsIsTick(trig: Trig, w: World)
    requires WellFormed(w)
    ensures ProcessComponents(trig, w) == Ok(Tick(trig, w))
  {
    var n := ENTITIES_COUNT;
    ProcessComponentsSkipsRenders(trig, w);
    MotionSystemComputesRefresh(trig, w, n);
    var w1 := RefreshMotions(w, n);
    TransformSystemComputesIntegration(trig, w1, n);
    var w2 := IntegrateAll(w1, n);
    assert WellFormed(w2);
    TurretSystemComputesAdvance(trig, w2, n);
    var s3, s4, s5 := SYSTEMS[3..], SYSTEMS[4..], SYSTEMS[5..];
    assert s3[0] == MOTION_FROM_TRACKS && s3[1..] == s4;
    assert s4[0] == TRANSFORM_FROM_MOTION && s4[1..] == s5;
    assert s5[0] == TURRET_FIRE && s5[1..] == [];
    assert ProcessSystems(trig, s3, w) == ProcessSystems(trig, s4, w1);
    assert ProcessSystems(trig, s4, w1) == ProcessSystems(trig, s5, w2);
    assert ProcessSystems(trig, s5, w2) == Ok(AdvanceTurrets(trig, w2, n));
  }
}
