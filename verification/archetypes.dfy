/**
 Archetype-driven initialisation of the store (`initialiseComponentArrays`).

 Each raw entity names an archetype tag and may carry per-kind override
 data. For every kind the tag's table entry lists, in list order, the kind's
 initialiser runs on the entity's slot (shallow override merge, or bounded
 random defaults when no data is given) and the slot is then marked active.
 A tag without a table entry, or a missing raw record, makes the source
 throw; both are `Err` here.
 */
module Archetypes {
  import opened Common
  import opened Components
  import opened Store

  datatype ArcheType = NONE | TANK | BULLET

  /** `ECS.entityArcheTypes` is replaceable: an archetype table maps a tag to its kinds, or to nothing. */
  type ArcheTable = ArcheType -> Option<seq<Kind>>

  /** The archetype table of the most complete stage. `NONE` has no entry. */
  function EntityArcheTypes(a: ArcheType): Option<seq<Kind>>
  {
    match a
    case NONE => None
    case TANK => Some([TRANSFORM, MOTION, TURRET, TRACK_LEFT, TRACK_RIGHT, HULL])
    case BULLET => Some([TRANSFORM, MOTION, PAYLOAD])
  }

  /** The per-kind override records a raw entity may carry (`entitiesRawData[e][c]`). */
  datatype Overrides = Overrides(transform: Option<TransformData>, motion: Option<MotionData>,
                                 turret: Option<TurretData>, trackLeft: Option<TrackData>,
                                 trackRight: Option<TrackData>, hull: Option<HullData>,
                                 payload: Option<PayloadData>)

  const NoOverrides := Overrides(None, None, None, None, None, None, None)

  datatype RawEntity = RawEntity(archeType: ArcheType, data: Overrides)

  /** The `Math.random()` values the initialiser of kind `k` draws for entity `e`. */
  type Rng = (nat, Kind) -> Draws

  /** The record `component.init(slot, data)` followed by `slot.isActive = true` leaves, per kind. */
  function InitialisedTransform(t: Transform, data: Overrides): Transform
  {
    InitTransform(t, data.transform).(isActive := true)
  }

  function InitialisedMotion(m: Motion, data: Overrides): Motion
  {
    FuncNull(m, data.motion).(isActive := true)
  }

  function InitialisedTurret(t: Turret, data: Overrides, draws: Draws): Turret
  {
    InitTurret(t, data.turret, draws).(isActive := true)
  }

  function InitialisedTrackLeft(t: Track, data: Overrides, draws: Draws): Track
  {
    InitTrack(t, data.trackLeft, draws).(isActive := true)
  }

  function InitialisedTrackRight(t: Track, data: Overrides, draws: Draws): Track
  {
    InitTrack(t, data.trackRight, draws).(isActive := true)
  }

  function InitialisedHull(h: Hull, data: Overrides): Hull
  {
    FuncNull(h, data.hull).(isActive := true)
  }

  function InitialisedPayload(p: Payload, data: Overrides): Payload
  {
    FuncNull(p, data.payload).(isActive := true)
  }

  /** Slot `(k, e)` of `w'` is what initialising slot `(k, e)` of `w` yields. */
  predicate SlotInitialised(w: World, w': World, k: Kind, e: nat, data: Overrides, draws: Draws)
    requires w.Valid() && w'.Valid() && e < ENTITIES_COUNT
  {
    match k
    case TRANSFORM => w'.transforms[e] == InitialisedTransform(w.transforms[e], data)
    case MOTION => w'.motions[e] == InitialisedMotion(w.motions[e], data)
    case TURRET => w'.turrets[e] == InitialisedTurret(w.turrets[e], data, draws)
    case TRACK_LEFT => w'.trackLefts[e] == InitialisedTrackLeft(w.trackLefts[e], data, draws)
    case TRACK_RIGHT => w'.trackRights[e] == InitialisedTrackRight(w.trackRights[e], data, draws)
    case HULL => w'.hulls[e] == InitialisedHull(w.hulls[e], data)
    case PAYLOAD => w'.payloads[e] == InitialisedPayload(w.payloads[e], data)
  }

  /** One iteration of the inner loop: initialise and activate slot `(k, e)`. */
  function InitComponent(w: World, k: Kind, e: nat, data: Overrides, draws: Draws): (r: World)
    requires w.Valid() && e < ENTITIES_COUNT
    ensures r.Valid()
    ensures SlotInitialised(w, r, k, e, data, draws)
    ensures forall k', e' :: 0 <= e' < ENTITIES_COUNT && (k' != k || e' != e) ==> SlotUnchanged(w, r, k', e')
  {
    match k
    case TRANSFORM => w.(transforms := w.transforms[e := InitialisedTransform(w.transforms[e], data)])
    case MOTION => w.(motions := w.motions[e := InitialisedMotion(w.motions[e], data)])
    case TURRET => w.(turrets := w.turrets[e := InitialisedTurret(w.turrets[e], data, draws)])
    case TRACK_LEFT => w.(trackLefts := w.trackLefts[e := InitialisedTrackLeft(w.trackLefts[e], data, draws)])
    case TRACK_RIGHT => w.(trackRights := w.trackRights[e := InitialisedTrackRight(w.trackRights[e], data, draws)])
    case HULL => w.(hulls := w.hulls[e := InitialisedHull(w.hulls[e], data)])
    case PAYLOAD => w.(payloads := w.payloads[e := InitialisedPayload(w.payloads[e], data)])
  }

  /** Initialising a slot a second time with the same data and draws changes nothing. */
  lemma InitialisedSlotsAreFixedPoints(t: Transform, m: Motion, u: Turret, l: Track, h: Hull, p: Payload,
                                       data: Overrides, draws: Draws)
    ensures InitialisedTransform(InitialisedTransform(t, data), data) == InitialisedTransform(t, data)
    ensures InitialisedMotion(InitialisedMotion(m, data), data) == InitialisedMotion(m, data)
    ensures InitialisedTurret(InitialisedTurret(u, data, draws), data, draws) == InitialisedTurret(u, data, draws)
    ensures InitialisedTrackLeft(InitialisedTrackLeft(l, data, draws), data, draws) == InitialisedTrackLeft(l, data, draws)
    ensures InitialisedTrackRight(InitialisedTrackRight(l, data, draws), data, draws) == InitialisedTrackRight(l, data, draws)
    ensures InitialisedHull(InitialisedHull(h, data), data) == InitialisedHull(h, data)
    ensures InitialisedPayload(InitialisedPayload(p, data), data) == InitialisedPayload(p, data)
  {
  }

  /** Composition of slot effects: an initialised slot stays initialised when left alone or initialised again. */
  lemma ComposeSlotEffects(w: World, w1: World, r: World, k: Kind, e: nat, data: Overrides, draws: Draws)
    requires w.Valid() && w1.Valid() && r.Valid() && e < ENTITIES_COUNT
    ensures SlotInitialised(w, w1, k, e, data, draws) && SlotUnchanged(w1, r, k, e) ==> SlotInitialised(w, r, k, e, data, draws)
    ensures SlotUnchanged(w, w1, k, e) && SlotInitialised(w1, r, k, e, data, draws) ==> SlotInitialised(w, r, k, e, data, draws)
    ensures SlotInitialised(w, w1, k, e, data, draws) && SlotInitialised(w1, r, k, e, data, draws) ==> SlotInitialised(w, r, k, e, data, draws)
    ensures SlotUnchanged(w, w1, k, e) && SlotUnchanged(w1, r, k, e) ==> SlotUnchanged(w, r, k, e)
  {
    InitialisedSlotsAreFixedPoints(w.transforms[e], w.motions[e], w.turrets[e], w.trackLefts[e],
                                   w.hulls[e], w.payloads[e], data, draws);
    InitialisedSlotsAreFixedPoints(w.transforms[e], w.motions[e], w.turrets[e], w.trackRights[e],
                                   w.hulls[e], w.payloads[e], data, draws);
  }

  /** `for (let c of entityArcheType)`: initialise each listed kind of entity `e`, in list order. */
  function InitKinds(w: World, kinds: seq<Kind>, e: nat, data: Overrides, rng: Rng): (r: World)
    requires w.Valid() && e < ENTITIES_COUNT
    ensures r.Valid()
    decreases |kinds|
  {
    if kinds == [] then w
    else InitKinds(InitComponent(w, kinds[0], e, data, rng(e, kinds[0])), kinds[1..], e, data, rng)
  }

  /**
   Initialising an entity's kinds touches exactly the listed slots of that
   entity, and each ends up as one initialisation of its original value
   (a kind listed twice is initialised twice, from the same draws, since the
   draws are indexed by entity and kind).
   */
  lemma {:induction false} InitKindsEffect(w: World, kinds: seq<Kind>, e: nat, data: Overrides, rng: Rng)
    requires w.Valid() && e < ENTITIES_COUNT
    ensures forall k :: k in kinds ==> SlotInitialised(w, InitKinds(w, kinds, e, data, rng), k, e, data, rng(e, k))
    ensures forall k, e' :: 0 <= e' < ENTITIES_COUNT && (e' != e || k !in kinds) ==>
              SlotUnchanged(w, InitKinds(w, kinds, e, data, rng), k, e')
    decreases |kinds|
  {
    if kinds != [] {
      var k0 := kinds[0];
      var w1 := InitComponent(w, k0, e, data, rng(e, k0));
      var r := InitKinds(w1, kinds[1..], e, data, rng);
      InitKindsEffect(w1, kinds[1..], e, data, rng);
      forall k | k in kinds
        ensures SlotInitialised(w, r, k, e, data, rng(e, k))
      {
        ComposeSlotEffects(w, w1, r, k, e, data, rng(e, k));
        if k in kinds[1..] {
          if k == k0 {
            assert SlotInitialised(w, w1, k, e, data, rng(e, k));
          } else {
            assert SlotUnchanged(w, w1, k, e);
          }
          assert SlotInitialised(w1, r, k, e, data, rng(e, k));
        } else {
          assert k == k0;
          assert SlotUnchanged(w1, r, k, e);
        }
      }
      forall k, e' | 0 <= e' < ENTITIES_COUNT && (e' != e || k !in kinds)
        ensures SlotUnchanged(w, r, k, e')
      {
        ComposeSlotEffects(w, w1, r, k, e', data, rng(e, k));
        assert SlotUnchanged(w, w1, k, e');
        assert SlotUnchanged(w1, r, k, e');
      }
    }
  }

  /** Initialise one entity: look its tag up (failing when the table has no entry) and initialise its kinds. */
  function InitEntity(table: ArcheTable, w: World, raw: seq<RawEntity>, e: nat, rng: Rng): Result<World>
    requires w.Valid() && e < ENTITIES_COUNT
  {
    if e >= |raw| then Err(MissingRawData(e))
    else match table(raw[e].archeType)
      case None => Err(UnknownArcheType(e))
      case Some(kinds) => Ok(InitKinds(w, kinds, e, raw[e].data, rng))
  }

  /** `initialiseComponentArrays` over the entities `0 .. n - 1`, in ascending order. */
  function InitialiseUpTo(table: ArcheTable, w: World, raw: seq<RawEntity>, rng: Rng, n: nat): (r: Result<World>)
    requires w.Valid() && n <= ENTITIES_COUNT
    ensures r.Ok? ==> r.value.Valid()
    decreases n
  {
    if n == 0 then Ok(w)
    else match InitialiseUpTo(table, w, raw, rng, n - 1)
      case Err(f) => Err(f)
      case Ok(w') => InitEntity(table, w', raw, n - 1, rng)
  }

  /** `initialiseComponentArrays(entitiesRawData)`. */
  function InitialiseComponentArrays(table: ArcheTable, w: World, raw: seq<RawEntity>, rng: Rng): (r: Result<World>)
    requires w.Valid()
    ensures r.Ok? ==> r.value.Valid()
  {
    InitialiseUpTo(table, w, raw, rng, ENTITIES_COUNT)
  }

  /** Entity `e` has a raw record whose archetype lists kind `k`. */
  predicate Owns(table: ArcheTable, raw: seq<RawEntity>, e: nat, k: Kind)
  {
    e < |raw| && table(raw[e].archeType).Some? && k in table(raw[e].archeType).value
  }

  /** Entity `e` has a raw record whose tag the table knows. */
  predicate Resolvable(table: ArcheTable, raw: seq<RawEntity>, e: nat)
  {
    e < |raw| && table(raw[e].archeType).Some?
  }

  /** The failure the source raises first: at the lowest entity that cannot be resolved. */
  predicate FirstFailure(table: ArcheTable, raw: seq<RawEntity>, n: nat, f: Failure)
  {
    && (f.MissingRawData? || f.UnknownArcheType?)
    && f.entity < n
    && (forall e :: 0 <= e < f.entity ==> Resolvable(table, raw, e))
    && (f.MissingRawData? <==> f.entity >= |raw|)
    && !Resolvable(table, raw, f.entity)
  }

  /**
   Initialising the first `n` entities succeeds exactly when each of them has a
   raw record with a known tag; otherwise it fails at the first one that does not.
   */
  lemma {:induction false} InitialiseOutcome(table: ArcheTable, w: World, raw: seq<RawEntity>, rng: Rng, n: nat)
    requires w.Valid() && n <= ENTITIES_COUNT
    ensures var r := InitialiseUpTo(table, w, raw, rng, n);
      && (r.Ok? <==> forall e :: 0 <= e < n ==> Resolvable(table, raw, e))
      && (r.Err? ==> FirstFailure(table, raw, n, r.failure))
    decreases n
  {
    if n > 0 {
      InitialiseOutcome(table, w, raw, rng, n - 1);
      InitialiseStepOutcome(table, w, raw, rng, n);
    }
  }

  /** Entity `n - 1`'s step: an earlier failure is passed on, otherwise it fails exactly when `n - 1` cannot be resolved. */
  lemma InitialiseStepOutcome(table: ArcheTable, w: World, raw: seq<RawEntity>, rng: Rng, n: nat)
    requires w.Valid() && 0 < n <= ENTITIES_COUNT
    ensures var prev, r := InitialiseUpTo(table, w, raw, rng, n - 1), InitialiseUpTo(table, w, raw, rng, n);
      && (prev.Err? ==> r == prev)
      && (prev.Ok? ==> (r.Ok? <==> Resolvable(table, raw, n - 1)))
      && (prev.Ok? && r.Err? ==> r.failure == (if n - 1 >= |raw| then MissingRawData(n - 1) else UnknownArcheType(n - 1)))
  {
  }

  /**
   On success, every slot that an initialised entity's archetype lists holds
   one initialisation of its old value, and every other slot is unchanged.
   */
  lemma {:induction false} InitialiseSlots(table: ArcheTable, w: World, raw: seq<RawEntity>, rng: Rng, n: nat)
    requires w.Valid() && n <= ENTITIES_COUNT
    requires InitialiseUpTo(table, w, raw, rng, n).Ok?
    ensures var r := InitialiseUpTo(table, w, raw, rng, n).value;
      forall k, e :: 0 <= e < n && Owns(table, raw, e, k) ==> SlotInitialised(w, r, k, e, raw[e].data, rng(e, k))
    ensures var r := InitialiseUpTo(table, w, raw, rng, n).value;
      forall k, e :: 0 <= e < ENTITIES_COUNT && !(e < n && Owns(table, raw, e, k)) ==> SlotUnchanged(w, r, k, e)
    decreases n
  {
    if n > 0 {
      InitialiseSlots(table, w, raw, rng, n - 1);
      var w' := InitialiseUpTo(table, w, raw, rng, n - 1).value;
      var r := InitialiseUpTo(table, w, raw, rng, n).value;
      var kinds := table(raw[n - 1].archeType).value;
      InitKindsEffect(w', kinds, n - 1, raw[n - 1].data, rng);
      assert r == InitKinds(w', kinds, n - 1, raw[n - 1].data, rng);
      forall k, e | 0 <= e < n && Owns(table, raw, e, k)
        ensures SlotInitialised(w, r, k, e, raw[e].data, rng(e, k))
      {
        ComposeSlotEffects(w, w', r, k, e, raw[e].data, rng(e, k));
        if e < n - 1 {
          assert SlotInitialised(w, w', k, e, raw[e].data, rng(e, k));
          assert SlotUnchanged(w', r, k, e);
        } else {
          assert SlotUnchanged(w, w', k, e);
          assert SlotInitialised(w', r, k, e, raw[e].data, rng(e, k));
        }
      }
      forall k, e | 0 <= e < ENTITIES_COUNT && !(e < n && Owns(table, raw, e, k))
        ensures SlotUnchanged(w, r, k, e)
      {
        ComposeSlotEffects(w, w', r, k, e, NoOverrides, rng(e, k));
        assert SlotUnchanged(w, w', k, e);
        assert SlotUnchanged(w', r, k, e);
      }
    }
  }

  /** An initialised slot is active; a slot left alone keeps its flag and whether it is a prototype. */
  lemma SlotFlags(w: World, r: World, k: Kind, e: nat, data: Overrides, draws: Draws)
    requires w.Valid() && r.Valid() && e < ENTITIES_COUNT
    ensures SlotInitialised(w, r, k, e, data, draws) ==> r.IsActive(k, e)
    ensures SlotUnchanged(w, r, k, e) ==> (r.IsActive(k, e) <==> w.IsActive(k, e))
    ensures SlotUnchanged(w, r, k, e) ==> (r.IsPrototype(k, e) <==> w.IsPrototype(k, e))
  {
  }

  /**
   Populating and then initialising activates exactly the kinds each entity's
   archetype lists, whatever the override data says about `isActive`; every
   other slot is still its kind's inactive prototype.
   */
  lemma ActivationMatchesArchetype(table: ArcheTable, raw: seq<RawEntity>, rng: Rng)
    requires InitialiseComponentArrays(table, PrototypeWorld(), raw, rng).Ok?
    ensures var r := InitialiseComponentArrays(table, PrototypeWorld(), raw, rng).value;
      forall k, e :: 0 <= e < ENTITIES_COUNT ==> (r.IsActive(k, e) <==> Owns(table, raw, e, k))
    ensures var r := InitialiseComponentArrays(table, PrototypeWorld(), raw, rng).value;
      forall k, e :: 0 <= e < ENTITIES_COUNT && !Owns(table, raw, e, k) ==> r.IsPrototype(k, e)
  {
    var w := PrototypeWorld();
    PrototypeWorldFacts();
    InitialiseSlots(table, w, raw, rng, ENTITIES_COUNT);
    var r := InitialiseComponentArrays(table, w, raw, rng).value;
    forall k, e | 0 <= e < ENTITIES_COUNT
      ensures r.IsActive(k, e) <==> Owns(table, raw, e, k)
      ensures !Owns(table, raw, e, k) ==> r.IsPrototype(k, e)
    {
      if Owns(table, raw, e, k) {
        SlotFlags(w, r, k, e, raw[e].data, rng(e, k));
      } else {
        SlotFlags(w, r, k, e, NoOverrides, rng(e, k));
      }
    }
  }

  /**
   With the stage's own table, initialisation succeeds exactly when there are
   at least `ENTITIES_COUNT` raw records and none of the first `ENTITIES_COUNT`
   is tagged `NONE`.
   */
  lemma {:induction false} InitialisationSucceeds(w: World, raw: seq<RawEntity>, rng: Rng)
    requires w.Valid()
    ensures InitialiseComponentArrays(EntityArcheTypes, w, raw, rng).Ok? <==>
              |raw| >= ENTITIES_COUNT && forall e :: 0 <= e < ENTITIES_COUNT ==> raw[e].archeType != NONE
  {
    InitialiseOutcome(EntityArcheTypes, w, raw, rng, ENTITIES_COUNT);
    var r := InitialiseComponentArrays(EntityArcheTypes, w, raw, rng);
    if r.Err? && |raw| >= ENTITIES_COUNT {
      var e := r.failure.entity;
      assert !Resolvable(EntityArcheTypes, raw, e);
      assert raw[e].archeType == NONE;
    }
    if r.Ok? {
      forall e | 0 <= e < ENTITIES_COUNT
        ensures e < |raw| && raw[e].archeType != NONE
      {
        assert Resolvable(EntityArcheTypes, raw, e);
      }
    }
  }

  /**
   After a successful initialisation with the stage's own table, a tank has
   every kind but `PAYLOAD` active and a bullet exactly `TRANSFORM`, `MOTION`
   and `PAYLOAD`.
   */
  lemma TankAndBulletActivation(raw: seq<RawEntity>, rng: Rng)
    requires InitialiseComponentArrays(EntityArcheTypes, PrototypeWorld(), raw, rng).Ok?
    ensures var r := InitialiseComponentArrays(EntityArcheTypes, PrototypeWorld(), raw, rng).value;
      forall k, e :: 0 <= e < ENTITIES_COUNT && e < |raw| && raw[e].archeType == TANK ==> (r.IsActive(k, e) <==> k != PAYLOAD)
    ensures var r := InitialiseComponentArrays(EntityArcheTypes, PrototypeWorld(), raw, rng).value;
      forall k, e :: 0 <= e < ENTITIES_COUNT && e < |raw| && raw[e].archeType == BULLET ==>
        (r.IsActive(k, e) <==> k == TRANSFORM || k == MOTION || k == PAYLOAD)
  {
    ActivationMatchesArchetype(EntityArcheTypes, raw, rng);
    forall k, e | 0 <= e < ENTITIES_COUNT && e < |raw|
      ensures raw[e].archeType == TANK ==> (Owns(EntityArcheTypes, raw, e, k) <==> k != PAYLOAD)
      ensures raw[e].archeType == BULLET ==> (Owns(EntityArcheTypes, raw, e, k) <==> k == TRANSFORM || k == MOTION || k == PAYLOAD)
    {
      OwnsByTag(raw, e, k);
    }
  }

  /** Which kinds the stage's table gives a tank and a bullet. */
  lemma OwnsByTag(raw: seq<RawEntity>, e: nat, k: Kind)
    requires e < |raw|
    ensures raw[e].archeType == TANK ==> (Owns(EntityArcheTypes, raw, e, k) <==> k != PAYLOAD)
    ensures raw[e].archeType == BULLET ==> (Owns(EntityArcheTypes, raw, e, k) <==> k == TRANSFORM || k == MOTION || k == PAYLOAD)
  {
  }

  /** Every turret and track an archetype gives an entity comes with override data, so no default is drawn. */
  predicate DrawFree(table: ArcheTable, raw: seq<RawEntity>)
  {
    forall e :: 0 <= e < ENTITIES_COUNT ==>
      && (Owns(table, raw, e, TURRET) ==> raw[e].data.turret.Some?)
      && (Owns(table, raw, e, TRACK_LEFT) ==> raw[e].data.trackLeft.Some?)
      && (Owns(table, raw, e, TRACK_RIGHT) ==> raw[e].data.trackRight.Some?)
  }

  /** The first failure is determined by the raw data alone. */
  lemma FirstFailureUnique(table: ArcheTable, raw: seq<RawEntity>, n: nat, f: Failure, g: Failure)
    requires FirstFailure(table, raw, n, f) && FirstFailure(table, raw, n, g)
    ensures f == g
  {
  }

  /**
   When no random default is needed, initialisation does not depend on the
   draws: running it with any two sources of randomness yields the same
   store, or the same failure.
   */
  lemma InitialisationIgnoresDraws(table: ArcheTable, w: World, raw: seq<RawEntity>, rng: Rng, rng': Rng)
    requires w.Valid() && DrawFree(table, raw)
    ensures InitialiseComponentArrays(table, w, raw, rng) == InitialiseComponentArrays(table, w, raw, rng')
  {
    var r, r' := InitialiseComponentArrays(table, w, raw, rng), InitialiseComponentArrays(table, w, raw, rng');
    InitialiseOutcome(table, w, raw, rng, ENTITIES_COUNT);
    InitialiseOutcome(table, w, raw, rng', ENTITIES_COUNT);
    if r.Err? {
      FirstFailureUnique(table, raw, ENTITIES_COUNT, r.failure, r'.failure);
    } else {
      forall k, e | 0 <= e < ENTITIES_COUNT
        ensures SlotUnchanged(r.value, r'.value, k, e)
      {
        InitialisedSlot(table, w, raw, rng, k, e);
        InitialisedSlot(table, w, raw, rng', k, e);
      }
      SlotwiseEqual(r.value, r'.value);
    }
  }

  // ---- The stage's own raw data ----

  /** A tank record of `entitiesRawData`: the transform override places it at `(x, 0)`. */
  function TankAt(x: real): RawEntity
  {
    RawEntity(TANK, NoOverrides.(transform := Some(TransformData(None, Some(x), Some(0.0)))))
  }

  /** A bullet record of `entitiesRawData`: the transform override places it at the origin. */
  const BulletAtOrigin := RawEntity(BULLET, NoOverrides.(transform := Some(TransformData(None, Some(0.0), Some(0.0)))))

  /** The x positions of the four tanks. */
  const TANK_X: seq<real> := [64.0, 192.0, 320.0, 448.0]

  /** `entitiesRawData`: the four tanks, then their four bullets in the same order. */
  const EntitiesRawData: seq<RawEntity> :=
    [TankAt(TANK_X[0]), TankAt(TANK_X[1]), TankAt(TANK_X[2]), TankAt(TANK_X[3]),
     BulletAtOrigin, BulletAtOrigin, BulletAtOrigin, BulletAtOrigin]

  /** The first `TANKS_COUNT` records are tanks and the rest bullets, one per entity. */
  lemma ShippedRawData()
    ensures |EntitiesRawData| == ENTITIES_COUNT
    ensures forall e :: 0 <= e < TANKS_COUNT ==> EntitiesRawData[e] == TankAt(TANK_X[e])
    ensures forall e :: TANKS_COUNT <= e < ENTITIES_COUNT ==> EntitiesRawData[e] == BulletAtOrigin
  {
  }

  /** A tank's slots right after the stage's own initialisation. */
  predicate FreshTank(w: World, e: nat)
    requires w.Valid() && e < TANKS_COUNT
  {
    && w.transforms[e] == Transform(true, TANK_X[e], 0.0)
    && w.motions[e] == Motion(true, 0.0, 0.0)
    && w.turrets[e].isActive && DefaultTurretRanges(w.turrets[e])
    && w.trackLefts[e].isActive && TRACK_SPEED_MIN <= w.trackLefts[e].speed <= TRACK_SPEED_MAX - 1
    && w.trackRights[e].isActive && TRACK_SPEED_MIN <= w.trackRights[e].speed <= TRACK_SPEED_MAX - 1
    && w.hulls[e] == Hull(true, 0)
    && w.payloads[e] == PayloadPrototype
  }

  /** A bullet's slots right after the stage's own initialisation: parked at the origin, motionless, but active. */
  predicate FreshBullet(w: World, e: nat)
    requires w.Valid() && TANKS_COUNT <= e < ENTITIES_COUNT
  {
    && w.transforms[e] == Transform(true, 0.0, 0.0)
    && w.motions[e] == Motion(true, 0.0, 0.0)
    && w.payloads[e] == Payload(true, 0)
    && w.turrets[e] == TurretPrototype
    && w.trackLefts[e] == TrackPrototype && w.trackRights[e] == TrackPrototype
    && w.hulls[e] == HullPrototype
  }

  /** One slot after a successful initialisation: initialised when its entity's archetype owns it, else untouched. */
  lemma InitialisedSlot(table: ArcheTable, w: World, raw: seq<RawEntity>, rng: Rng, k: Kind, e: nat)
    requires w.Valid() && e < ENTITIES_COUNT
    requires InitialiseComponentArrays(table, w, raw, rng).Ok?
    ensures Owns(table, raw, e, k) ==>
              SlotInitialised(w, InitialiseComponentArrays(table, w, raw, rng).value, k, e, raw[e].data, rng(e, k))
    ensures !Owns(table, raw, e, k) ==> SlotUnchanged(w, InitialiseComponentArrays(table, w, raw, rng).value, k, e)
  {
    InitialiseSlots(table, w, raw, rng, ENTITIES_COUNT);
  }

  /** `InitialisedSlot` for a slot the entity's archetype owns. */
  lemma OwnedSlot(table: ArcheTable, w: World, raw: seq<RawEntity>, rng: Rng, k: Kind, e: nat)
    requires w.Valid() && e < ENTITIES_COUNT && Owns(table, raw, e, k)
    requires InitialiseComponentArrays(table, w, raw, rng).Ok?
    ensures SlotInitialised(w, InitialiseComponentArrays(table, w, raw, rng).value, k, e, raw[e].data, rng(e, k))
  {
    InitialisedSlot(table, w, raw, rng, k, e);
  }

  /** `InitialisedSlot` for a slot the entity's archetype does not own. */
  lemma UnownedSlot(table: ArcheTable, w: World, raw: seq<RawEntity>, rng: Rng, k: Kind, e: nat)
    requires w.Valid() && e < ENTITIES_COUNT && !Owns(table, raw, e, k)
    requires InitialiseComponentArrays(table, w, raw, rng).Ok?
    ensures SlotUnchanged(w, InitialiseComponentArrays(table, w, raw, rng).value, k, e)
  {
    InitialisedSlot(table, w, raw, rng, k, e);
  }

  lemma ShippedTank(rng: Rng, e: nat)
    requires e < TANKS_COUNT
    requires InitialiseComponentArrays(EntityArcheTypes, PrototypeWorld(), EntitiesRawData, rng).Ok?
    ensures FreshTank(InitialiseComponentArrays(EntityArcheTypes, PrototypeWorld(), EntitiesRawData, rng).value, e)
  {
    assert EntitiesRawData[e] == TankAt(TANK_X[e]);
    TankInitialised(EntitiesRawData, rng, e);
  }

  /** A tank record at `TANK_X[e]` initialises to a fresh tank, whatever the other records are. */
  lemma TankInitialised(raw: seq<RawEntity>, rng: Rng, e: nat)
    requires e < TANKS_COUNT && e < |raw| && raw[e] == TankAt(TANK_X[e])
    requires InitialiseComponentArrays(EntityArcheTypes, PrototypeWorld(), raw, rng).Ok?
    ensures FreshTank(InitialiseComponentArrays(EntityArcheTypes, PrototypeWorld(), raw, rng).value, e)
  {
    var p := PrototypeWorld();
    var w := InitialiseComponentArrays(EntityArcheTypes, p, raw, rng).value;
    OwnedSlot(EntityArcheTypes, p, raw, rng, TRANSFORM, e);
    OwnedSlot(EntityArcheTypes, p, raw, rng, MOTION, e);
    OwnedSlot(EntityArcheTypes, p, raw, rng, TURRET, e);
    OwnedSlot(EntityArcheTypes, p, raw, rng, TRACK_LEFT, e);
    OwnedSlot(EntityArcheTypes, p, raw, rng, TRACK_RIGHT, e);
    OwnedSlot(EntityArcheTypes, p, raw, rng, HULL, e);
    UnownedSlot(EntityArcheTypes, p, raw, rng, PAYLOAD, e);
    assert w.turrets[e] == DefaultTurret(TurretPrototype, rng(e, TURRET)).(isActive := true);
  }

  lemma ShippedBullet(rng: Rng, e: nat)
    requires TANKS_COUNT <= e < ENTITIES_COUNT
    requires InitialiseComponentArrays(EntityArcheTypes, PrototypeWorld(), EntitiesRawData, rng).Ok?
    ensures FreshBullet(InitialiseComponentArrays(EntityArcheTypes, PrototypeWorld(), EntitiesRawData, rng).value, e)
  {
    assert EntitiesRawData[e] == BulletAtOrigin;
    BulletInitialised(EntitiesRawData, rng, e);
  }

  /** A bullet record at the origin initialises to a fresh bullet, whatever the other records are. */
  lemma BulletInitialised(raw: seq<RawEntity>, rng: Rng, e: nat)
    requires TANKS_COUNT <= e < ENTITIES_COUNT && e < |raw| && raw[e] == BulletAtOrigin
    requires InitialiseComponentArrays(EntityArcheTypes, PrototypeWorld(), raw, rng).Ok?
    ensures FreshBullet(InitialiseComponentArrays(EntityArcheTypes, PrototypeWorld(), raw, rng).value, e)
  {
    var p := PrototypeWorld();
    OwnedSlot(EntityArcheTypes, p, raw, rng, TRANSFORM, e);
    OwnedSlot(EntityArcheTypes, p, raw, rng, MOTION, e);
    OwnedSlot(EntityArcheTypes, p, raw, rng, PAYLOAD, e);
    UnownedSlot(EntityArcheTypes, p, raw, rng, TURRET, e);
    UnownedSlot(EntityArcheTypes, p, raw, rng, TRACK_LEFT, e);
    UnownedSlot(EntityArcheTypes, p, raw, rng, TRACK_RIGHT, e);
    UnownedSlot(EntityArcheTypes, p, raw, rng, HULL, e);
    BulletFromSlots(p, InitialiseComponentArrays(EntityArcheTypes, p, raw, rng).value, e, rng);
  }

  /** A bullet slot whose transform, motion and payload were initialised from `BulletAtOrigin` and whose other kinds are untouched prototypes. */
  lemma BulletFromSlots(p: World, w: World, e: nat, rng: Rng)
    requires p == PrototypeWorld() && w.Valid() && TANKS_COUNT <= e < ENTITIES_COUNT
    requires SlotInitialised(p, w, TRANSFORM, e, BulletAtOrigin.data, rng(e, TRANSFORM))
    requires SlotInitialised(p, w, MOTION, e, BulletAtOrigin.data, rng(e, MOTION))
    requires SlotInitialised(p, w, PAYLOAD, e, BulletAtOrigin.data, rng(e, PAYLOAD))
    requires SlotUnchanged(p, w, TURRET, e) && SlotUnchanged(p, w, HULL, e)
    requires SlotUnchanged(p, w, TRACK_LEFT, e) && SlotUnchanged(p, w, TRACK_RIGHT, e)
    ensures FreshBullet(w, e)
  {
    PrototypeWorldFacts();
    assert p.IsPrototype(TURRET, e) && p.IsPrototype(HULL, e);
    assert p.IsPrototype(TRACK_LEFT, e) && p.IsPrototype(TRACK_RIGHT, e);
  }

  /**
   Initialising the all-prototype store from `entitiesRawData` succeeds for
   every sequence of random draws: each tank stands at its listed x with y 0,
   with random turret and track values in their default bounds, and each
   bullet is active at the origin with zero motion.
   */
  lemma ShippedInitialisation(rng: Rng)
    ensures InitialiseComponentArrays(EntityArcheTypes, PrototypeWorld(), EntitiesRawData, rng).Ok?
    ensures var w := InitialiseComponentArrays(EntityArcheTypes, PrototypeWorld(), EntitiesRawData, rng).value;
      forall e :: 0 <= e < TANKS_COUNT ==> FreshTank(w, e)
    ensures var w := InitialiseComponentArrays(EntityArcheTypes, PrototypeWorld(), EntitiesRawData, rng).value;
      forall e :: TANKS_COUNT <= e < ENTITIES_COUNT ==> FreshBullet(w, e)
  {
    InitialisationSucceeds(PrototypeWorld(), EntitiesRawData, rng);
    forall e | 0 <= e < TANKS_COUNT
      ensures FreshTank(InitialiseComponentArrays(EntityArcheTypes, PrototypeWorld(), EntitiesRawData, rng).value, e)
    {
      ShippedTank(rng, e);
    }
    forall e | TANKS_COUNT <= e < ENTITIES_COUNT
      ensures FreshBullet(InitialiseComponentArrays(EntityArcheTypes, PrototypeWorld(), EntitiesRawData, rng).value, e)
    {
      ShippedBullet(rng, e);
    }
  }
}
