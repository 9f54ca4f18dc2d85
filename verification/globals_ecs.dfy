/**
 The stage in which the runtime is written with free functions over global
 arrays: five component kinds (no hull, no payload), an entity-major populate
 loop, the same archetype-driven initialisation and the same three simulation
 systems, run system-major with dependency gating but without render systems.

 Its store is `World4`. `Embed` adds the two missing columns as prototypes;
 every operation of this stage commutes with `Embed`, so this stage is the most
 complete stage restricted to stores whose hull and payload columns are
 untouched, with the render systems removed.
 */
module GlobalsEcs {
  import opened Common
  import opened Components
  import opened Store
  import opened Archetypes
  import opened Systems
  import opened Scheduler

  /** The kinds this stage has arrays for. */
  type Kind4 = k: Kind | k != HULL && k != PAYLOAD witness TRANSFORM

  /** `componentsByIndex`, in `COMPONENT` order. */
  const COMPONENTS4: seq<Kind4> := [TRANSFORM, MOTION, TURRET, TRACK_LEFT, TRACK_RIGHT]

  datatype World4 = World4(transforms: seq<Transform>, motions: seq<Motion>, turrets: seq<Turret>,
                           trackLefts: seq<Track>, trackRights: seq<Track>)
  {
    predicate Valid()
    {
      && |transforms| == ENTITIES_COUNT && |motions| == ENTITIES_COUNT && |turrets| == ENTITIES_COUNT
      && |trackLefts| == ENTITIES_COUNT && |trackRights| == ENTITIES_COUNT
    }

    function Length(k: Kind4): nat
    {
      match k
      case TRANSFORM => |transforms|
      case MOTION => |motions|
      case TURRET => |turrets|
      case TRACK_LEFT => |trackLefts|
      case TRACK_RIGHT => |trackRights|
    }

    predicate IsActive(k: Kind4, e: nat)
    {
      match k
      case TRANSFORM => e < |transforms| && transforms[e].isActive
      case MOTION => e < |motions| && motions[e].isActive
      case TURRET => e < |turrets| && turrets[e].isActive
      case TRACK_LEFT => e < |trackLefts| && trackLefts[e].isActive
      case TRACK_RIGHT => e < |trackRights| && trackRights[e].isActive
    }

    predicate IsPrototype(k: Kind4, e: nat)
    {
      match k
      case TRANSFORM => e < |transforms| && transforms[e] == TransformPrototype
      case MOTION => e < |motions| && motions[e] == MotionPrototype
      case TURRET => e < |turrets| && turrets[e] == TurretPrototype
      case TRACK_LEFT => e < |trackLefts| && trackLefts[e] == TrackPrototype
      case TRACK_RIGHT => e < |trackRights| && trackRights[e] == TrackPrototype
    }

    /** `component.array[e] = structuredClone(component.prototype)` at the next unfilled index. */
    function AppendPrototype(k: Kind4): World4
    {
      match k
      case TRANSFORM => this.(transforms := transforms + [TransformPrototype])
      case MOTION => this.(motions := motions + [MotionPrototype])
      case TURRET => this.(turrets := turrets + [TurretPrototype])
      case TRACK_LEFT => this.(trackLefts := trackLefts + [TrackPrototype])
      case TRACK_RIGHT => this.(trackRights := trackRights + [TrackPrototype])
    }
  }

  /** This stage's store inside the most complete stage's, with prototype hulls and payloads. */
  function Embed(w: World4): (r: World)
    requires w.Valid()
    ensures r.Valid()
    ensures forall k: Kind4, e :: r.IsActive(k, e) == w.IsActive(k, e)
    ensures forall e :: 0 <= e < ENTITIES_COUNT ==> !r.IsActive(HULL, e) && !r.IsActive(PAYLOAD, e)
  {
    World(w.transforms, w.motions, w.turrets, w.trackLefts, w.trackRights,
          seq(ENTITIES_COUNT, _ => HullPrototype), seq(ENTITIES_COUNT, _ => PayloadPrototype))
  }

  /** The five columns this stage has. */
  function Project(w: World): (r: World4)
    requires w.Valid()
    ensures r.Valid()
  {
    World4(w.transforms, w.motions, w.turrets, w.trackLefts, w.trackRights)
  }

  /** A store whose hulls and payloads are all prototypes. */
  predicate Inert(w: World)
  {
    w.hulls == seq(ENTITIES_COUNT, _ => HullPrototype) && w.payloads == seq(ENTITIES_COUNT, _ => PayloadPrototype)
  }

  /** `Project` undoes `Embed`, and `Embed` undoes `Project` exactly on stores whose extra columns are inert. */
  lemma EmbedProjectRoundTrip(w4: World4, w: World)
    requires w4.Valid() && w.Valid()
    ensures Project(Embed(w4)) == w4
    ensures Embed(Project(w)) == w <==> Inert(w)
  {
  }

  function Lift(r: Result<World4>): Result<World>
    requires r.Ok? ==> r.value.Valid()
  {
    match r
    case Err(f) => Err(f)
    case Ok(w) => Ok(Embed(w))
  }

  // ---- Populate ----

  function PrototypeWorld4(): (w: World4)
    ensures w.Valid()
  {
    Project(PrototypeWorld())
  }

  /**
   The populate loop of this stage, entity-major: for each entity, every
   array's slot receives a clone of its prototype. Afterwards every slot of
   every array is its prototype, so nothing is active.
   */
  method PopulateComponentArrays4() returns (w: World4)
    ensures w.Valid()
    ensures forall k: Kind4, e :: 0 <= e < ENTITIES_COUNT ==> w.IsPrototype(k, e) && !w.IsActive(k, e)
    ensures Embed(w) == PrototypeWorld()
  {
    w := World4([], [], [], [], []);
    for e := 0 to ENTITIES_COUNT
      invariant forall k: Kind4 :: w.Length(k) == e
      invariant forall k: Kind4, i :: 0 <= i < w.Length(k) ==> w.IsPrototype(k, i)
    {
      w := AppendEntity4(w, e);
    }
    assert w.Length(TRANSFORM) == ENTITIES_COUNT && w.Length(MOTION) == ENTITIES_COUNT;
    assert w.Length(TURRET) == ENTITIES_COUNT && w.Length(TRACK_LEFT) == ENTITIES_COUNT;
    assert w.Length(TRACK_RIGHT) == ENTITIES_COUNT;
    PrototypeColumns4(w);
  }

  /** The inner loop over `components` for entity `e`: every array grows by one prototype. */
  method AppendEntity4(w: World4, e: nat) returns (r: World4)
    requires forall k: Kind4 :: w.Length(k) == e
    requires forall k: Kind4, i :: 0 <= i < w.Length(k) ==> w.IsPrototype(k, i)
    ensures forall k: Kind4 :: r.Length(k) == e + 1
    ensures forall k: Kind4, i :: 0 <= i < r.Length(k) ==> r.IsPrototype(k, i)
  {
    r := w;
    for c := 0 to |COMPONENTS4|
      invariant forall k: Kind4 :: r.Length(k) == if Index(k) < c then e + 1 else e
      invariant forall k: Kind4, i :: 0 <= i < r.Length(k) ==> r.IsPrototype(k, i)
    {
      var k := COMPONENTS4[c];
      assert Index(k) == c;
      AppendPrototypeFacts4(r, k);
      r := r.AppendPrototype(k);
    }
  }

  lemma AppendPrototypeFacts4(w: World4, k: Kind4)
    ensures w.AppendPrototype(k).Length(k) == w.Length(k) + 1
    ensures forall k': Kind4 :: k' != k ==> w.AppendPrototype(k).Length(k') == w.Length(k')
    ensures forall k': Kind4, e :: 0 <= e < w.Length(k') && w.IsPrototype(k', e) ==> w.AppendPrototype(k).IsPrototype(k', e)
    ensures w.AppendPrototype(k).IsPrototype(k, w.Length(k))
  {
    var r := w.AppendPrototype(k);
    forall k': Kind4, e | 0 <= e < w.Length(k') && w.IsPrototype(k', e)
      ensures r.IsPrototype(k', e)
    {
      match k'
      case TRANSFORM =>
      case MOTION =>
      case TURRET =>
      case TRACK_LEFT =>
      case TRACK_RIGHT =>
    }
  }

  lemma PrototypeColumns4(w: World4)
    requires w.Valid()
    requires forall k: Kind4, e :: 0 <= e < w.Length(k) ==> w.IsPrototype(k, e)
    ensures Embed(w) == PrototypeWorld()
    ensures forall k: Kind4, e :: 0 <= e < ENTITIES_COUNT ==> w.IsPrototype(k, e) && !w.IsActive(k, e)
  {
    var p := PrototypeWorld();
    forall e | 0 <= e < ENTITIES_COUNT
      ensures w.transforms[e] == p.transforms[e] && w.motions[e] == p.motions[e]
      ensures w.turrets[e] == p.turrets[e] && w.trackLefts[e] == p.trackLefts[e]
      ensures w.trackRights[e] == p.trackRights[e]
    {
      assert w.IsPrototype(TRANSFORM, e) && w.IsPrototype(MOTION, e) && w.IsPrototype(TURRET, e);
      assert w.IsPrototype(TRACK_LEFT, e) && w.IsPrototype(TRACK_RIGHT, e);
    }
    assert w.transforms == p.transforms && w.motions == p.motions && w.turrets == p.turrets;
    assert w.trackLefts == p.trackLefts && w.trackRights == p.trackRights;
  }

  // ---- Initialise ----

  /** This stage's archetype table: a tank has no hull, a bullet no payload. */
  function EntityArcheTypes4(a: ArcheType): Option<seq<Kind>>
  {
    match a
    case NONE => None
    case TANK => Some([TRANSFORM, MOTION, TURRET, TRACK_LEFT, TRACK_RIGHT])
    case BULLET => Some([TRANSFORM, MOTION])
  }

  /** The initialise loop of this stage: the same per-kind initialisers, over this stage's table. */
  function Initialise4(w: World4, raw: seq<RawEntity>, rng: Rng): (r: Result<World4>)
    requires w.Valid()
    ensures r.Ok? ==> r.value.Valid()
  {
    match InitialiseComponentArrays(EntityArcheTypes4, Embed(w), raw, rng)
    case Err(f) => Err(f)
    case Ok(w') => Ok(Project(w'))
  }

  lemma ShippedTank4(rng: Rng, e: nat)
    requires e < TANKS_COUNT
    requires InitialiseComponentArrays(EntityArcheTypes4, PrototypeWorld(), EntitiesRawData, rng).Ok?
    ensures var w := InitialiseComponentArrays(EntityArcheTypes4, PrototypeWorld(), EntitiesRawData, rng).value;
      && w.transforms[e] == Transform(true, TANK_X[e], 0.0)
      && w.motions[e] == Motion(true, 0.0, 0.0)
      && w.turrets[e].isActive && w.trackLefts[e].isActive && w.trackRights[e].isActive
      && DefaultTurretRanges(w.turrets[e])
      && TRACK_SPEED_MIN <= w.trackLefts[e].speed <= TRACK_SPEED_MAX - 1
      && TRACK_SPEED_MIN <= w.trackRights[e].speed <= TRACK_SPEED_MAX - 1
  {
    var p := PrototypeWorld();
    var w := InitialiseComponentArrays(EntityArcheTypes4, p, EntitiesRawData, rng).value;
    assert EntitiesRawData[e] == TankAt(TANK_X[e]);
    InitialisedSlot(EntityArcheTypes4, p, EntitiesRawData, rng, TRANSFORM, e);
    InitialisedSlot(EntityArcheTypes4, p, EntitiesRawData, rng, MOTION, e);
    InitialisedSlot(EntityArcheTypes4, p, EntitiesRawData, rng, TURRET, e);
    InitialisedSlot(EntityArcheTypes4, p, EntitiesRawData, rng, TRACK_LEFT, e);
    InitialisedSlot(EntityArcheTypes4, p, EntitiesRawData, rng, TRACK_RIGHT, e);
    assert w.turrets[e] == DefaultTurret(TurretPrototype, rng(e, TURRET)).(isActive := true);
  }

  lemma ShippedBullet4(rng: Rng, e: nat)
    requires TANKS_COUNT <= e < ENTITIES_COUNT
    requires InitialiseComponentArrays(EntityArcheTypes4, PrototypeWorld(), EntitiesRawData, rng).Ok?
    ensures var w := InitialiseComponentArrays(EntityArcheTypes4, PrototypeWorld(), EntitiesRawData, rng).value;
      && w.transforms[e] == Transform(true, 0.0, 0.0) && w.motions[e] == Motion(true, 0.0, 0.0)
      && w.turrets[e] == TurretPrototype && w.trackLefts[e] == TrackPrototype && w.trackRights[e] == TrackPrototype
  {
    var p := PrototypeWorld();
    assert EntitiesRawData[e] == BulletAtOrigin;
    InitialisedSlot(EntityArcheTypes4, p, EntitiesRawData, rng, TRANSFORM, e);
    InitialisedSlot(EntityArcheTypes4, p, EntitiesRawData, rng, MOTION, e);
    InitialisedSlot(EntityArcheTypes4, p, EntitiesRawData, rng, TURRET, e);
    InitialisedSlot(EntityArcheTypes4, p, EntitiesRawData, rng, TRACK_LEFT, e);
    InitialisedSlot(EntityArcheTypes4, p, EntitiesRawData, rng, TRACK_RIGHT, e);
    PrototypeWorldFacts();
    assert p.IsPrototype(TURRET, e) && p.IsPrototype(TRACK_LEFT, e) && p.IsPrototype(TRACK_RIGHT, e);
  }

  lemma ShippedSucceeds4(rng: Rng)
    ensures InitialiseComponentArrays(EntityArcheTypes4, PrototypeWorld(), EntitiesRawData, rng).Ok?
  {
    InitialiseOutcome(EntityArcheTypes4, PrototypeWorld(), EntitiesRawData, rng, ENTITIES_COUNT);
    ShippedRawData();
    forall e | 0 <= e < ENTITIES_COUNT
      ensures Resolvable(EntityArcheTypes4, EntitiesRawData, e)
    {
      if e < TANKS_COUNT {
        assert EntitiesRawData[e].archeType == TANK;
      } else {
        assert EntitiesRawData[e].archeType == BULLET;
      }
    }
  }

  /**
   Initialising this stage's populated arrays from its raw data succeeds for
   every sequence of draws; a tank has all five kinds active, a bullet exactly
   transform and motion.
   */
  lemma ShippedActivation4(rng: Rng)
    ensures Initialise4(PrototypeWorld4(), EntitiesRawData, rng).Ok?
    ensures var w := Initialise4(PrototypeWorld4(), EntitiesRawData, rng).value;
      forall k: Kind4, e :: 0 <= e < ENTITIES_COUNT ==> (w.IsActive(k, e) <==> e < TANKS_COUNT || k == TRANSFORM || k == MOTION)
  {
    var p := PrototypeWorld();
    assert Embed(PrototypeWorld4()) == p;
    ShippedSucceeds4(rng);
    ActivationMatchesArchetype(EntityArcheTypes4, EntitiesRawData, rng);
    var w := InitialiseComponentArrays(EntityArcheTypes4, p, EntitiesRawData, rng).value;
    forall k: Kind4, e | 0 <= e < ENTITIES_COUNT
      ensures Project(w).IsActive(k, e) <==> e < TANKS_COUNT || k == TRANSFORM || k == MOTION
    {
      assert Project(w).IsActive(k, e) == w.IsActive(k, e);
      if e < TANKS_COUNT {
        assert EntitiesRawData[e] == TankAt(TANK_X[e]);
      } else {
        assert EntitiesRawData[e] == BulletAtOrigin;
      }
    }
  }

  /**
   After that initialisation a tank stands at its listed x with y 0 and zero
   motion, with turret and track values in their default bounds, and a bullet
   is at the origin with zero motion.
   */
  lemma ShippedValues4(rng: Rng)
    ensures Initialise4(PrototypeWorld4(), EntitiesRawData, rng).Ok?
    ensures var w := Initialise4(PrototypeWorld4(), EntitiesRawData, rng).value;
      forall e :: 0 <= e < TANKS_COUNT ==>
        w.transforms[e] == Transform(true, TANK_X[e], 0.0) && w.motions[e] == Motion(true, 0.0, 0.0)
        && DefaultTurretRanges(w.turrets[e])
        && TRACK_SPEED_MIN <= w.trackLefts[e].speed <= TRACK_SPEED_MAX - 1
        && TRACK_SPEED_MIN <= w.trackRights[e].speed <= TRACK_SPEED_MAX - 1
    ensures var w := Initialise4(PrototypeWorld4(), EntitiesRawData, rng).value;
      forall e :: TANKS_COUNT <= e < ENTITIES_COUNT ==>
        w.transforms[e] == Transform(true, 0.0, 0.0) && w.motions[e] == Motion(true, 0.0, 0.0)
  {
    var p := PrototypeWorld();
    assert Embed(PrototypeWorld4()) == p;
    ShippedSucceeds4(rng);
    var w := InitialiseComponentArrays(EntityArcheTypes4, p, EntitiesRawData, rng).value;
    forall e | 0 <= e < TANKS_COUNT
      ensures w.transforms[e] == Transform(true, TANK_X[e], 0.0) && w.motions[e] == Motion(true, 0.0, 0.0)
      ensures DefaultTurretRanges(w.turrets[e])
      ensures TRACK_SPEED_MIN <= w.trackLefts[e].speed <= TRACK_SPEED_MAX - 1
      ensures TRACK_SPEED_MIN <= w.trackRights[e].speed <= TRACK_SPEED_MAX - 1
    {
      ShippedTank4(rng, e);
    }
    forall e | TANKS_COUNT <= e < ENTITIES_COUNT
      ensures w.transforms[e] == Transform(true, 0.0, 0.0) && w.motions[e] == Motion(true, 0.0, 0.0)
    {
      ShippedBullet4(rng, e);
    }
  }

  // ---- The three systems of this stage ----

  function UpdateMotionFromTracks4(w: World4, e: nat): (r: World4)
    requires w.Valid() && e < ENTITIES_COUNT
    ensures r.Valid() && Embed(r) == UpdateMotionFromTracks(Embed(w), e)
  {
    w.(motions := w.motions[e := w.motions[e].(dy := (w.trackLefts[e].speed + w.trackRights[e].speed) as real)])
  }

  function UpdateTransform4(w: World4, e: nat): (r: World4)
    requires w.Valid() && e < ENTITIES_COUNT
    ensures r.Valid() && Embed(r) == UpdateTransform(Embed(w), e)
  {
    var transform, motion := w.transforms[e], w.motions[e];
    w.(transforms := w.transforms[e := transform.(x := transform.x + motion.dx, y := transform.y + motion.dy)])
  }

  function UpdateTurret4(trig: Trig, w: World4, e: nat): (r: Result<World4>)
    requires w.Valid() && e < ENTITIES_COUNT
    ensures r.Ok? ==> r.value.Valid()
    ensures Lift(r) == UpdateTurret(trig, Embed(w), e)
  {
    var turret := w.turrets[e];
    var countdown := turret.reloadCountdown - 1;
    var turret' := turret.(angle := turret.angle + turret.angleDelta,
                           reloadCountdown := if countdown == 0 then turret.reloadTime else countdown);
    var rotated := w.(turrets := w.turrets[e := turret']);
    assert turret' == TurretStep(turret) && (countdown == 0 <==> Fires(turret));
    assert Embed(rotated) == Embed(w).(turrets := Embed(w).turrets[e := TurretStep(turret)]);
    if countdown != 0 then Ok(rotated)
    else if TANKS_COUNT + e >= ENTITIES_COUNT then Err(BulletSlotOutOfRange(e))
    else
      var b := TANKS_COUNT + e;
      var tankTransform, tankMotion := w.transforms[e], w.motions[e];
      var muzzleDx := -trig.sin(turret'.angle) * turret'.gunPower as real;
      var muzzleDy := trig.cos(turret'.angle) * turret'.gunPower as real;
      assert FiredBulletTransform(tankTransform, w.transforms[b])
          == w.transforms[b].(isActive := true, x := tankTransform.x, y := tankTransform.y);
      assert FiredBulletMotion(trig, tankMotion, turret', w.motions[b])
          == w.motions[b].(isActive := true, dx := tankMotion.dx + muzzleDx, dy := tankMotion.dy + muzzleDy);
      Ok(rotated.(transforms := w.transforms[b := w.transforms[b].(isActive := true, x := tankTransform.x, y := tankTransform.y)],
                  motions := w.motions[b := w.motions[b].(isActive := true, dx := tankMotion.dx + muzzleDx,
                                                         dy := tankMotion.dy + muzzleDy)]))
  }

  // ---- Gating and the scheduler of this stage ----

  /** Every dependency names a kind this stage has an array for. */
  predicate Part4Dependencies(deps: seq<Kind>)
  {
    forall i :: 0 <= i < |deps| ==> deps[i] != HULL && deps[i] != PAYLOAD
  }

  /** `systemDependenciesMetByEntity` of this stage, over its own arrays. */
  function DepsFold4(w: World4, deps: seq<Kind>, e: nat, depsMet: bool): (r: bool)
    requires Part4Dependencies(deps)
    ensures r == DepsFold(Embed4Flags(w), deps, e, depsMet)
    decreases |deps|
  {
    if deps == [] then depsMet
    else DepsFold4(w, deps[1..], e, depsMet && w.IsActive(deps[0], e))
  }

  /** `Embed` without the validity requirement, for stating what the gate reads. */
  function Embed4Flags(w: World4): World
  {
    World(w.transforms, w.motions, w.turrets, w.trackLefts, w.trackRights, [], [])
  }

  /** This stage's systems list: the three simulation systems, with no render system. */
  const SYSTEMS4: seq<System> := [MOTION_FROM_TRACKS, TRANSFORM_FROM_MOTION, TURRET_FIRE]

  predicate Part4System(s: System)
  {
    Part4Dependencies(s.componentDependencies)
    && (s.update == MotionFromTracks || s.update == TransformFromMotion || s.update == TurretFire)
  }

  function RunUpdate4(trig: Trig, u: Update, w: World4, e: nat): (r: Result<World4>)
    requires w.Valid() && e < ENTITIES_COUNT
    requires u == MotionFromTracks || u == TransformFromMotion || u == TurretFire
    ensures r.Ok? ==> r.value.Valid()
    ensures Lift(r) == RunUpdate(trig, u, Embed(w), e)
  {
    match u
    case MotionFromTracks => Ok(UpdateMotionFromTracks4(w, e))
    case TransformFromMotion => Ok(UpdateTransform4(w, e))
    case TurretFire => UpdateTurret4(trig, w, e)
  }

  function RunSystemUpTo4(trig: Trig, s: System, w: World4, n: nat): (r: Result<World4>)
    requires w.Valid() && n <= ENTITIES_COUNT && Part4System(s)
    ensures r.Ok? ==> r.value.Valid()
    decreases n
  {
    if n == 0 then Ok(w)
    else match RunSystemUpTo4(trig, s, w, n - 1)
      case Err(f) => Err(f)
      case Ok(w') =>
        if DepsFold4(w', s.componentDependencies, n - 1, true) then RunUpdate4(trig, s.update, w', n - 1) else Ok(w')
  }

  function ProcessSystems4(trig: Trig, systems: seq<System>, w: World4): (r: Result<World4>)
    requires w.Valid() && forall i :: 0 <= i < |systems| ==> Part4System(systems[i])
    ensures r.Ok? ==> r.value.Valid()
    decreases |systems|
  {
    if systems == [] then Ok(w)
    else match RunSystemUpTo4(trig, systems[0], w, ENTITIES_COUNT)
      case Err(f) => Err(f)
      case Ok(w') => ProcessSystems4(trig, systems[1..], w')
  }

  /** `processComponents()` of this stage. */
  function ProcessComponents4(trig: Trig, w: World4): (r: Result<World4>)
    requires w.Valid()
    ensures r.Ok? ==> r.value.Valid()
  {
    ProcessSystems4(trig, SYSTEMS4, w)
  }

  /** The gate of this stage reads the same flags as the most complete stage's gate on the embedded store. */
  lemma GateAgrees(w: World4, s: System, e: nat)
    requires w.Valid() && Part4Dependencies(s.componentDependencies)
    ensures DepsFold4(w, s.componentDependencies, e, true) == SystemDependenciesMetByEntity(Embed(w), s, e)
    ensures DepsFold4(w, s.componentDependencies, e, true) <==>
              forall i :: 0 <= i < |s.componentDependencies| ==> w.IsActive(s.componentDependencies[i], e)
  {
    var deps := s.componentDependencies;
    assert forall i :: 0 <= i < |deps| ==> Embed4Flags(w).IsActive(deps[i], e) == Embed(w).IsActive(deps[i], e);
    assert forall i :: 0 <= i < |deps| ==> Embed4Flags(w).IsActive(deps[i], e) == w.IsActive(deps[i], e);
  }

  lemma {:induction false} RunSystemCommutes(trig: Trig, s: System, w: World4, n: nat)
    requires w.Valid() && n <= ENTITIES_COUNT && Part4System(s)
    ensures Lift(RunSystemUpTo4(trig, s, w, n)) == RunSystemUpTo(trig, s, Embed(w), n)
    decreases n
  {
    if n > 0 {
      RunSystemCommutes(trig, s, w, n - 1);
      RunSystemStepCommutes(trig, s, w, n);
    }
  }

  /** If the loops agree on the entities below `n - 1`, they agree on those below `n`. */
  lemma RunSystemStepCommutes(trig: Trig, s: System, w: World4, n: nat)
    requires w.Valid() && 0 < n <= ENTITIES_COUNT && Part4System(s)
    requires Lift(RunSystemUpTo4(trig, s, w, n - 1)) == RunSystemUpTo(trig, s, Embed(w), n - 1)
    ensures Lift(RunSystemUpTo4(trig, s, w, n)) == RunSystemUpTo(trig, s, Embed(w), n)
  {
    match RunSystemUpTo4(trig, s, w, n - 1)
    case Err(f) =>
    case Ok(w') => EntityStepCommutes(trig, s, w', n - 1);
  }

  /** One entity's step of a system loop: gate and update commute with `Embed`. */
  lemma EntityStepCommutes(trig: Trig, s: System, w: World4, e: nat)
    requires w.Valid() && e < ENTITIES_COUNT && Part4System(s)
    ensures Lift(if DepsFold4(w, s.componentDependencies, e, true) then RunUpdate4(trig, s.update, w, e) else Ok(w))
         == (if SystemDependenciesMetByEntity(Embed(w), s, e) then RunUpdate(trig, s.update, Embed(w), e) else Ok(Embed(w)))
  {
    GateAgrees(w, s, e);
  }

  lemma {:induction false} ProcessSystemsCommute(trig: Trig, systems: seq<System>, w: World4)
    requires w.Valid() && forall i :: 0 <= i < |systems| ==> Part4System(systems[i])
    ensures Lift(ProcessSystems4(trig, systems, w)) == ProcessSystems(trig, systems, Embed(w))
    decreases |systems|
  {
    if systems != [] {
      RunSystemCommutes(trig, systems[0], w, ENTITIES_COUNT);
      match RunSystemUpTo4(trig, systems[0], w, ENTITIES_COUNT)
      case Err(f) =>
      case Ok(w') => ProcessSystemsCommute(trig, systems[1..], w');
    }
  }

  /**
   The most complete stage's pass on an embedded store is this stage's pass,
   embedded: its render systems change nothing and its hull and payload
   columns are never written. The same holds for a failing pass.
   */
  lemma ProcessComponentsCommute(trig: Trig, w: World4)
    requires w.Valid()
    ensures ProcessComponents(trig, Embed(w)) == Lift(ProcessComponents4(trig, w))
  {
    ProcessComponentsSkipsRenders(trig, Embed(w));
    SimulationSystems4();
    ProcessSystemsCommute(trig, SYSTEMS4, w);
  }

  /** This stage's systems are the most complete stage's systems without the three render systems. */
  lemma SimulationSystems4()
    ensures SYSTEMS[3..] == SYSTEMS4
    ensures forall i :: 0 <= i < |SYSTEMS4| ==> Part4System(SYSTEMS4[i])
  {
    assert SYSTEMS[3..] == SYSTEMS4;
  }

  /**
   So on a store without an active turret in a bullet slot this stage's pass
   succeeds and is the reference turn: motions from tracks, then positions,
   then turrets, each over all entities.
   */
  lemma ProcessComponents4IsTick(trig: Trig, w: World4)
    requires w.Valid() && forall e :: TANKS_COUNT <= e < ENTITIES_COUNT ==> !w.turrets[e].isActive
    ensures ProcessComponents4(trig, w).Ok?
    ensures Embed(ProcessComponents4(trig, w).value) == Tick(trig, Embed(w))
  {
    ProcessComponentsCommute(trig, w);
    ProcessComponentsIsTick(trig, Embed(w));
  }
}
