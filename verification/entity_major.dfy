/**
 The entity-major stage (part3.js): six component columns, the tanks built in
 place by one populate loop, and a `processComponents` that visits every
 entity once, first integrating its motion and then running its turret. In
 this stage the turret update also drives the tank forward by its track
 speeds, and a tank's motion is never written, so only bullets move through
 `updateTransform`.
 */
module EntityMajor {
  import opened Common
  import opened Components
  import opened Store
  import opened Archetypes
  import opened Systems

  const HULL_HEALTH_MIN: int := 0
  const HULL_HEALTH_MAX: int := 10

  /** The hull of this stage also carries an `isOnFire` flag. */
  datatype Hull3 = Hull3(isActive: bool, isOnFire: bool, health: int)

  const Hull3Prototype := Hull3(false, false, 0)

  /** The six components one populate iteration builds for one entity. */
  datatype Entity3 = Entity3(transform: Transform, motion: Motion, hull: Hull3,
                             turret: Turret, trackLeft: Track, trackRight: Track)

  const PrototypeEntity3 := Entity3(TransformPrototype, MotionPrototype, Hull3Prototype,
                                    TurretPrototype, TrackPrototype, TrackPrototype)

  /** The six component arrays, indexed by entity. */
  datatype World3 = World3(transforms: seq<Transform>, motions: seq<Motion>, hulls: seq<Hull3>,
                           turrets: seq<Turret>, trackLefts: seq<Track>, trackRights: seq<Track>)
  {
    /** Every column holds `n` slots. */
    predicate Columns(n: nat)
    {
      && |transforms| == n && |motions| == n && |hulls| == n
      && |turrets| == n && |trackLefts| == n && |trackRights| == n
    }

    predicate Valid()
    {
      Columns(ENTITIES_COUNT)
    }

    /** The components of entity `e`, read across the columns. */
    function At(e: nat): Entity3
      requires Columns(|transforms|) && e < |transforms|
    {
      Entity3(transforms[e], motions[e], hulls[e], turrets[e], trackLefts[e], trackRights[e])
    }

    /** Store one more entity at the end of every column. */
    function Append(x: Entity3): (r: World3)
      requires Columns(|transforms|)
      ensures r.Columns(|transforms| + 1)
      ensures r.At(|transforms|) == x
      ensures forall e :: 0 <= e < |transforms| ==> r.At(e) == At(e)
    {
      World3(transforms + [x.transform], motions + [x.motion], hulls + [x.hull],
             turrets + [x.turret], trackLefts + [x.trackLeft], trackRights + [x.trackRight])
    }
  }

  // ---- Populating the arrays ----

  /**
   `initTransformTank`: tank `e` stands in the middle of the `e`-th of
   `TANKS_COUNT` lanes of width `gap` (`canvas.width / TANKS_COUNT`), with the
   position truncated by `parseInt`.
   */
  function TankX(gap: real, e: nat): (x: int)
    ensures 0.0 <= gap ==> 0 <= x && x as real <= gap * e as real + gap / 2.0 < x as real + 1.0
  {
    Trunc(gap * e as real + gap / 2.0)
  }

  /** Lanes at least one unit wide put the tanks strictly left to right. */
  lemma TankLanesAreOrdered(gap: real, e: nat, e': nat)
    requires 1.0 <= gap && e < e'
    ensures TankX(gap, e) < TankX(gap, e')
  {
    assert gap * e' as real >= gap * e as real + gap by {
      assert gap * (e' - e) as real >= gap * 1.0;
    }
  }

  /** A 512-unit canvas gives 128-unit lanes and the positions 64, 192, 320, 448 of the later stages' raw data. */
  lemma WideCanvasLanes(e: nat)
    requires e < TANKS_COUNT
    ensures TankX(512.0 / TANKS_COUNT as real, e) as real == TANK_X[e]
  {
  }

  /** `initHull`: the health is drawn from [HULL_HEALTH_MIN, HULL_HEALTH_MAX). */
  function InitHull(h: Hull3, draws: Draws): (r: Hull3)
    ensures r.isActive == h.isActive && r.isOnFire == h.isOnFire
    ensures HULL_HEALTH_MIN <= r.health <= HULL_HEALTH_MAX - 1
    ensures draws.d0 == 0.0 ==> r.health == HULL_HEALTH_MIN
  {
    h.(health := TruncLerp(HULL_HEALTH_MIN, HULL_HEALTH_MAX, draws.d0))
  }

  /**
   Tank `e` around a given hull: every other component activated, the
   transform placed in its lane, the motion left at rest, and turret and both
   tracks given their random defaults.
   */
  function TankWithHull(gap: real, rng: Rng, e: nat, hull: Hull3): Entity3
  {
    Entity3(TransformPrototype.(isActive := true, x := TankX(gap, e) as real),
            MotionPrototype.(isActive := true),
            hull,
            DefaultTurret(TurretPrototype.(isActive := true), rng(e, TURRET)),
            InitTrack(TrackPrototype.(isActive := true), None, rng(e, TRACK_LEFT)),
            InitTrack(TrackPrototype.(isActive := true), None, rng(e, TRACK_RIGHT)))
  }

  /**
   Tank `e` as part3.js:130-150 builds it: `initHull` is handed the transform,
   so the health drawn lands on a field no part of the program reads, and the
   hull is the prototype's, only activated.
   */
  function TankEntity(gap: real, rng: Rng, e: nat): Entity3
  {
    TankWithHull(gap, rng, e, Hull3Prototype.(isActive := true))
  }

  /** Tank `e` as the populate loop evidently means to build it, with `initHull(hulls[e])`. */
  function IntendedTankEntity(gap: real, rng: Rng, e: nat): Entity3
  {
    TankWithHull(gap, rng, e, InitHull(Hull3Prototype.(isActive := true), rng(e, HULL)))
  }

  /** Entity `e` after its populate iteration: a tank below `TANKS_COUNT`, untouched prototypes above. */
  function EntityAt3(gap: real, rng: Rng, e: nat): Entity3
  {
    if e < TANKS_COUNT then TankEntity(gap, rng, e) else PrototypeEntity3
  }

  /** Entity `e` after the intended populate iteration. */
  function IntendedEntityAt3(gap: real, rng: Rng, e: nat): Entity3
  {
    if e < TANKS_COUNT then IntendedTankEntity(gap, rng, e) else PrototypeEntity3
  }

  /** `x` agrees with `y` in every component except, possibly, the hull. */
  predicate SameButHull3(x: Entity3, y: Entity3)
  {
    x.(hull := y.hull) == y
  }

  /** What a freshly built tank looks like. */
  predicate FreshTank3(gap: real, x: Entity3, e: nat)
  {
    && x.transform == Transform(true, TankX(gap, e) as real, 0.0)
    && x.motion == Motion(true, 0.0, 0.0)
    && x.hull.isActive && !x.hull.isOnFire
    && HULL_HEALTH_MIN <= x.hull.health <= HULL_HEALTH_MAX - 1
    && x.turret.isActive && DefaultTurretRanges(x.turret)
    && x.trackLeft.isActive && TRACK_SPEED_MIN <= x.trackLeft.speed <= TRACK_SPEED_MAX - 1
    && x.trackRight.isActive && TRACK_SPEED_MIN <= x.trackRight.speed <= TRACK_SPEED_MAX - 1
  }

  /** Nothing of the entity is active. */
  predicate Dormant3(x: Entity3)
  {
    && !x.transform.isActive && !x.motion.isActive && !x.hull.isActive
    && !x.turret.isActive && !x.trackLeft.isActive && !x.trackRight.isActive
  }

  /**
   The populate loop of part3.js:120-151 with the tank built by `tank`: each
   iteration clones the six prototypes for entity `e` and, for a tank,
   replaces them by the built tank.
   */
  method Populate3(tank: nat -> Entity3) returns (w: World3)
    ensures w.Valid()
    ensures forall e :: 0 <= e < TANKS_COUNT ==> w.At(e) == tank(e)
    ensures forall e :: TANKS_COUNT <= e < ENTITIES_COUNT ==> w.At(e) == PrototypeEntity3
  {
    w := World3([], [], [], [], [], []);
    var e := 0;
    while e < ENTITIES_COUNT
      invariant e <= ENTITIES_COUNT && w.Columns(e)
      invariant forall i :: 0 <= i < e && i < TANKS_COUNT ==> w.At(i) == tank(i)
      invariant forall i :: TANKS_COUNT <= i < e ==> w.At(i) == PrototypeEntity3
    {
      var x := PrototypeEntity3;
      if e < TANKS_COUNT {
        x := tank(e);
      }
      w := w.Append(x);
      e := e + 1;
    }
  }

  /**
   The populate loop of part3.js:120-151 as written: every tank is fully
   active with its defaults in range, yet its hull keeps health 0 whatever
   `Math.random()` returns, and so differs from the intended store in the
   hull alone.
   */
  method PopulateComponentArrays3(gap: real, rng: Rng) returns (w: World3)
    requires 0.0 <= gap
    ensures w.Valid()
    ensures forall e :: 0 <= e < TANKS_COUNT ==> FreshTank3(gap, w.At(e), e)
    ensures forall e :: 0 <= e < TANKS_COUNT ==> w.hulls[e] == Hull3(true, false, HULL_HEALTH_MIN)
    ensures forall e :: TANKS_COUNT <= e < ENTITIES_COUNT ==> Dormant3(w.At(e))
    ensures forall e :: 0 <= e < ENTITIES_COUNT ==> SameButHull3(w.At(e), IntendedEntityAt3(gap, rng, e))
    ensures forall e :: 0 <= e < ENTITIES_COUNT ==> w.At(e) == EntityAt3(gap, rng, e)
  {
    w := Populate3((e: nat) => TankEntity(gap, rng, e));
    assert forall e :: 0 <= e < TANKS_COUNT ==> w.hulls[e] == w.At(e).hull;
  }

  /**
   The populate loop with the hull initialised as evidently intended: each
   tank's health is its own draw from [0, 9], and the store differs from the
   one the code builds in the hull column alone.
   */
  method PopulateComponentArrays3Intended(gap: real, rng: Rng) returns (w: World3)
    requires 0.0 <= gap
    ensures w.Valid()
    ensures forall e :: 0 <= e < TANKS_COUNT ==> FreshTank3(gap, w.At(e), e)
    ensures forall e :: 0 <= e < TANKS_COUNT ==> w.hulls[e] == InitHull(Hull3(true, false, 0), rng(e, HULL))
    ensures forall e :: TANKS_COUNT <= e < ENTITIES_COUNT ==> Dormant3(w.At(e))
    ensures forall e :: 0 <= e < ENTITIES_COUNT ==> SameButHull3(w.At(e), EntityAt3(gap, rng, e))
    ensures forall e :: 0 <= e < ENTITIES_COUNT ==> w.At(e) == IntendedEntityAt3(gap, rng, e)
  {
    w := Populate3((e: nat) => IntendedTankEntity(gap, rng, e));
    assert forall e :: 0 <= e < TANKS_COUNT ==> w.hulls[e] == w.At(e).hull;
  }

  /** Every tank is fully active and every bullet slot fully dormant after populating, as written or as intended. */
  lemma PopulatedActivity3(gap: real, rng: Rng, e: nat)
    requires 0.0 <= gap && e < ENTITIES_COUNT
    ensures e < TANKS_COUNT ==> FreshTank3(gap, EntityAt3(gap, rng, e), e)
    ensures e < TANKS_COUNT ==> FreshTank3(gap, IntendedEntityAt3(gap, rng, e), e)
    ensures TANKS_COUNT <= e ==> Dormant3(EntityAt3(gap, rng, e)) && Dormant3(IntendedEntityAt3(gap, rng, e))
  {
  }

  /**
   As written, tank `e`'s hull keeps health 0, and the store agrees with the
   intended one in that tank exactly when its hull draw is below 0.1, the
   only draws the intended initialiser also truncates to 0.
   */
  lemma HullHealthNeverDrawn(gap: real, rng: Rng, e: nat)
    requires e < TANKS_COUNT
    ensures EntityAt3(gap, rng, e).hull.health == HULL_HEALTH_MIN
    ensures EntityAt3(gap, rng, e) == IntendedEntityAt3(gap, rng, e) <==> rng(e, HULL).d0 < 0.1
  {
  }

  /** A draw of one half: the intended store gives tank 0 health 5, the store as written leaves 0. */
  lemma HullHealthCounterexample(gap: real, rng: Rng)
    requires rng(0, HULL).d0 == 0.5
    ensures IntendedEntityAt3(gap, rng, 0).hull.health == 5
    ensures EntityAt3(gap, rng, 0).hull.health == 0
  {
  }

  // ---- The per-entity updates ----

  /** The sum of the tank's two track speeds. */
  function Speed3(w: World3, e: nat): int
    requires w.Valid() && e < ENTITIES_COUNT
  {
    w.trackLefts[e].speed + w.trackRights[e].speed
  }

  /** Hull and track columns are the same, and so is every slot outside the listed ones. */
  predicate Frame3(w: World3, r: World3, transformSlots: set<nat>, motionSlots: set<nat>, turretSlots: set<nat>)
    requires w.Valid() && r.Valid()
  {
    && r.hulls == w.hulls && r.trackLefts == w.trackLefts && r.trackRights == w.trackRights
    && (forall i :: 0 <= i < ENTITIES_COUNT && i !in transformSlots ==> r.transforms[i] == w.transforms[i])
    && (forall i :: 0 <= i < ENTITIES_COUNT && i !in motionSlots ==> r.motions[i] == w.motions[i])
    && (forall i :: 0 <= i < ENTITIES_COUNT && i !in turretSlots ==> r.turrets[i] == w.turrets[i])
  }

  /** `updateTransform(e)`: the position moves by the motion. */
  function UpdateTransform3(w: World3, e: nat): (r: World3)
    requires w.Valid() && e < ENTITIES_COUNT
    ensures r.Valid()
    ensures r.transforms[e].x == w.transforms[e].x + w.motions[e].dx
    ensures r.transforms[e].y == w.transforms[e].y + w.motions[e].dy
    ensures r.transforms[e].isActive == w.transforms[e].isActive
    ensures Frame3(w, r, {e}, {}, {})
  {
    w.(transforms := w.transforms[e := Integrate(w.transforms[e], w.motions[e])])
  }

  /**
   `updateTurret(e)` of this stage: drive the tank forward by its track speeds,
   then rotate, count down and, when the countdown reaches zero, launch the
   paired bullet from the tank's new position with the tank's motion plus the
   muzzle velocity. Firing from an entity whose bullet slot lies past the
   arrays is the TypeError of writing a field of `undefined`.
   */
  function UpdateTurret3(trig: Trig, w: World3, e: nat): (r: Result<World3>)
    requires w.Valid() && e < ENTITIES_COUNT
    ensures r.Err? <==> Fires(w.turrets[e]) && BulletSlot(e) >= ENTITIES_COUNT
    ensures r.Err? ==> r.failure == BulletSlotOutOfRange(e)
    ensures r.Ok? ==> && r.value.Valid()
                      && r.value.turrets[e] == TurretStep(w.turrets[e])
                      && r.value.transforms[e].isActive == w.transforms[e].isActive
                      && r.value.transforms[e].x == w.transforms[e].x
                      && r.value.transforms[e].y == w.transforms[e].y + Speed3(w, e) as real
    ensures r.Ok? && !Fires(w.turrets[e]) ==> Frame3(w, r.value, {e}, {}, {e})
    ensures r.Ok? && Fires(w.turrets[e]) ==>
      var b, t := BulletSlot(e), r.value.turrets[e];
      && r.value.turrets[e].reloadCountdown == w.turrets[e].reloadTime
      && r.value.transforms[b] == Transform(true, w.transforms[e].x, w.transforms[e].y + Speed3(w, e) as real)
      && r.value.motions[b].isActive
      && r.value.motions[b].dx == w.motions[e].dx + -trig.sin(t.angle) * t.gunPower as real
      && r.value.motions[b].dy == w.motions[e].dy + trig.cos(t.angle) * t.gunPower as real
      && Frame3(w, r.value, {e, b}, {b}, {e})
  {
    var tankTransform := w.transforms[e].(y := w.transforms[e].y + Speed3(w, e) as real);
    var turret := TurretStep(w.turrets[e]);
    var driven := w.(transforms := w.transforms[e := tankTransform], turrets := w.turrets[e := turret]);
    if !Fires(w.turrets[e]) then Ok(driven)
    else if BulletSlot(e) >= ENTITIES_COUNT then Err(BulletSlotOutOfRange(e))
    else
      var b := BulletSlot(e);
      Ok(driven.(transforms := driven.transforms[b := FiredBulletTransform(tankTransform, w.transforms[b])],
                 motions := w.motions[b := FiredBulletMotion(trig, w.motions[e], turret, w.motions[b])]))
  }

  /** One iteration of the entity loop: integrate if transform and motion are active, then run an active turret. */
  function ProcessEntity3(trig: Trig, w: World3, e: nat): (r: Result<World3>)
    requires w.Valid() && e < ENTITIES_COUNT
    ensures r.Ok? ==> r.value.Valid()
  {
    var moved := if w.transforms[e].isActive && w.motions[e].isActive then UpdateTransform3(w, e) else w;
    if moved.turrets[e].isActive then UpdateTurret3(trig, moved, e) else Ok(moved)
  }

  /** The entity loop run over the entities below `n`; the first exception ends it. */
  function ProcessUpTo3(trig: Trig, w: World3, n: nat): (r: Result<World3>)
    requires w.Valid() && n <= ENTITIES_COUNT
    ensures r.Ok? ==> r.value.Valid()
    decreases n
  {
    if n == 0 then Ok(w)
    else match ProcessUpTo3(trig, w, n - 1)
      case Err(f) => Err(f)
      case Ok(prev) => ProcessEntity3(trig, prev, n - 1)
  }

  /** `processComponents()`: one pass of the entity loop over every entity. */
  function ProcessComponents3(trig: Trig, w: World3): (r: Result<World3>)
    requires w.Valid()
    ensures r.Ok? ==> r.value.Valid()
  {
    ProcessUpTo3(trig, w, ENTITIES_COUNT)
  }

  // ---- The pass in closed form ----

  /** No bullet slot holds an active turret: the condition under which no turret fires out of range. */
  predicate WellFormed3(w: World3)
  {
    w.Valid() && forall e :: TANKS_COUNT <= e < ENTITIES_COUNT ==> !w.turrets[e].isActive
  }

  /** Tank `e`'s transform after its iteration: integrated if it moves, then driven forward if its turret runs. */
  function Driven3(w: World3, e: nat): Transform
    requires w.Valid() && e < ENTITIES_COUNT
  {
    var t := if w.transforms[e].isActive && w.motions[e].isActive
             then Integrate(w.transforms[e], w.motions[e]) else w.transforms[e];
    if w.turrets[e].isActive then t.(y := t.y + Speed3(w, e) as real) else t
  }

  /** Tank `e` runs its turret and fires in this pass. */
  predicate Launches3(w: World3, e: nat)
    requires w.Valid() && e < ENTITIES_COUNT
  {
    e < TANKS_COUNT && w.turrets[e].isActive && Fires(w.turrets[e])
  }

  /** Bullet slot `b`'s transform once its tank's iteration has run. */
  function LaunchedTransform3(w: World3, b: nat): Transform
    requires w.Valid() && TANKS_COUNT <= b < ENTITIES_COUNT
  {
    if Launches3(w, b - TANKS_COUNT)
    then FiredBulletTransform(Driven3(w, b - TANKS_COUNT), w.transforms[b])
    else w.transforms[b]
  }

  /** Bullet slot `b`'s motion once its tank's iteration has run. */
  function LaunchedMotion3(trig: Trig, w: World3, b: nat): Motion
    requires w.Valid() && TANKS_COUNT <= b < ENTITIES_COUNT
  {
    var e := b - TANKS_COUNT;
    if Launches3(w, e)
    then FiredBulletMotion(trig, w.motions[e], TurretStep(w.turrets[e]), w.motions[b])
    else w.motions[b]
  }

  /** Bullet slot `b`'s transform after its own iteration: launched, then integrated if active. */
  function Flown3(trig: Trig, w: World3, b: nat): Transform
    requires w.Valid() && TANKS_COUNT <= b < ENTITIES_COUNT
  {
    var t, m := LaunchedTransform3(w, b), LaunchedMotion3(trig, w, b);
    if t.isActive && m.isActive then Integrate(t, m) else t
  }

  /** The store once the entity loop has visited the entities below `n`. */
  function PassPrefix3(trig: Trig, w: World3, n: nat): (r: World3)
    requires w.Valid()
    ensures r.Valid()
  {
    w.(transforms := seq(ENTITIES_COUNT, i requires 0 <= i < ENTITIES_COUNT =>
         if i < TANKS_COUNT then (if i < n then Driven3(w, i) else w.transforms[i])
         else if i < n then Flown3(trig, w, i)
         else if i - TANKS_COUNT < n then LaunchedTransform3(w, i)
         else w.transforms[i]),
       motions := seq(ENTITIES_COUNT, i requires 0 <= i < ENTITIES_COUNT =>
         if TANKS_COUNT <= i && i - TANKS_COUNT < n then LaunchedMotion3(trig, w, i) else w.motions[i]),
       turrets := seq(ENTITIES_COUNT, i requires 0 <= i < ENTITIES_COUNT =>
         if i < n && w.turrets[i].isActive then TurretStep(w.turrets[i]) else w.turrets[i]))
  }

  /** One whole pass, in closed form. */
  function Pass3(trig: Trig, w: World3): (r: World3)
    requires w.Valid()
    ensures r.Valid()
  {
    PassPrefix3(trig, w, ENTITIES_COUNT)
  }

  /** The iteration of tank `n` turns the prefix before it into the prefix after it. */
  lemma TankIteration3(trig: Trig, w: World3, n: nat)
    requires WellFormed3(w) && n < TANKS_COUNT
    ensures ProcessEntity3(trig, PassPrefix3(trig, w, n), n) == Ok(PassPrefix3(trig, w, n + 1))
  {
    var p, q := PassPrefix3(trig, w, n), PassPrefix3(trig, w, n + 1);
    var b := BulletSlot(n);
    assert p.transforms[n] == w.transforms[n] && p.motions[n] == w.motions[n] && p.turrets[n] == w.turrets[n];
    assert p.transforms[b] == w.transforms[b] && p.motions[b] == w.motions[b];
    assert Speed3(p, n) == Speed3(w, n);
    var moved := if p.transforms[n].isActive && p.motions[n].isActive then UpdateTransform3(p, n) else p;
    assert Frame3(p, moved, {n}, {}, {});
    assert moved.transforms[n] == if w.transforms[n].isActive && w.motions[n].isActive
                                  then Integrate(w.transforms[n], w.motions[n]) else w.transforms[n];
    if !w.turrets[n].isActive {
      assert ProcessEntity3(trig, p, n) == Ok(moved);
      IterationColumns3(trig, w, n, p, moved, q);
    } else {
      var u := UpdateTurret3(trig, moved, n);
      assert ProcessEntity3(trig, p, n) == u;
      assert u.Ok?;
      assert u.value.transforms[n] == Driven3(w, n);
      if Fires(w.turrets[n]) {
        assert Launches3(w, n);
        assert u.value.transforms[b] == LaunchedTransform3(w, b);
        assert u.value.motions[b] == LaunchedMotion3(trig, w, b);
        IterationColumns3(trig, w, n, p, u.value, q);
      } else {
        IterationColumns3(trig, w, n, p, u.value, q);
      }
    }
  }

  /** Column bookkeeping for `TankIteration3`: agreeing on the three written slots and framing the rest gives the next prefix. */
  lemma IterationColumns3(trig: Trig, w: World3, n: nat, p: World3, r: World3, q: World3)
    requires WellFormed3(w) && n < TANKS_COUNT && r.Valid()
    requires p == PassPrefix3(trig, w, n) && q == PassPrefix3(trig, w, n + 1)
    requires Frame3(p, r, {n, BulletSlot(n)}, {BulletSlot(n)}, {n})
    requires r.transforms[n] == Driven3(w, n) && r.turrets[n] == q.turrets[n]
    requires r.transforms[BulletSlot(n)] == LaunchedTransform3(w, BulletSlot(n))
    requires r.motions[BulletSlot(n)] == LaunchedMotion3(trig, w, BulletSlot(n))
    ensures r == q
  {
    assert r.transforms == q.transforms;
    assert r.motions == q.motions;
    assert r.turrets == q.turrets;
  }

  /** The iteration of bullet slot `n` turns the prefix before it into the prefix after it. */
  lemma BulletIteration3(trig: Trig, w: World3, n: nat)
    requires WellFormed3(w) && TANKS_COUNT <= n < ENTITIES_COUNT
    ensures ProcessEntity3(trig, PassPrefix3(trig, w, n), n) == Ok(PassPrefix3(trig, w, n + 1))
  {
    var p, q := PassPrefix3(trig, w, n), PassPrefix3(trig, w, n + 1);
    assert p.transforms[n] == LaunchedTransform3(w, n) && p.motions[n] == LaunchedMotion3(trig, w, n);
    assert !p.turrets[n].isActive;
    var r := ProcessEntity3(trig, p, n);
    assert r.value.transforms == q.transforms;
    assert r.value.motions == q.motions;
    assert r.value.turrets == q.turrets;
  }

  /** The entity loop over the entities below `n` computes the closed-form prefix and never fails. */
  lemma {:induction false} ProcessUpToIsPrefix3(trig: Trig, w: World3, n: nat)
    requires WellFormed3(w) && n <= ENTITIES_COUNT
    ensures ProcessUpTo3(trig, w, n) == Ok(PassPrefix3(trig, w, n))
    decreases n
  {
    if n == 0 {
      var p := PassPrefix3(trig, w, 0);
      assert p.transforms == w.transforms && p.motions == w.motions && p.turrets == w.turrets;
    } else {
      ProcessUpToIsPrefix3(trig, w, n - 1);
      if n - 1 < TANKS_COUNT {
        TankIteration3(trig, w, n - 1);
      } else {
        BulletIteration3(trig, w, n - 1);
      }
    }
  }

  /** On a well-formed store, `processComponents()` succeeds with the closed-form pass. */
  lemma ProcessComponentsIsPass3(trig: Trig, w: World3)
    requires WellFormed3(w)
    ensures ProcessComponents3(trig, w) == Ok(Pass3(trig, w))
  {
    ProcessUpToIsPrefix3(trig, w, ENTITIES_COUNT);
  }

  // ---- What one pass does ----

  /**
   A pass writes no hull or track, never writes a tank's motion, steps exactly
   the active turrets, and keeps the store well-formed.
   */
  lemma PassFrame3(trig: Trig, w: World3)
    requires WellFormed3(w)
    ensures var r := Pass3(trig, w);
      && WellFormed3(r)
      && r.hulls == w.hulls && r.trackLefts == w.trackLefts && r.trackRights == w.trackRights
      && (forall e :: 0 <= e < TANKS_COUNT ==> r.motions[e] == w.motions[e])
      && (forall e :: 0 <= e < ENTITIES_COUNT ==>
            r.turrets[e] == if w.turrets[e].isActive then TurretStep(w.turrets[e]) else w.turrets[e])
  {
  }

  /**
   A tank at rest (zero motion) with a running turret keeps its column and
   advances by the sum of its track speeds; `updateTransform` alone would
   leave it where it is.
   */
  lemma TankPass3(trig: Trig, w: World3, e: nat)
    requires WellFormed3(w) && e < TANKS_COUNT
    requires w.motions[e].dx == 0.0 && w.motions[e].dy == 0.0 && w.turrets[e].isActive
    ensures UpdateTransform3(w, e).transforms[e] == w.transforms[e]
    ensures var r := Pass3(trig, w);
      && r.transforms[e].isActive == w.transforms[e].isActive
      && r.transforms[e].x == w.transforms[e].x
      && r.transforms[e].y == w.transforms[e].y + Speed3(w, e) as real
      && r.motions[e] == w.motions[e]
      && r.turrets[e] == TurretStep(w.turrets[e])
  {
  }

  /**
   A bullet launched by tank `e` moves in the very pass that fires it: its slot
   is visited after the tank's, so it ends one step of its motion beyond the
   tank's new position.
   */
  lemma BulletMovesInFiringPass3(trig: Trig, w: World3, e: nat)
    requires WellFormed3(w) && e < TANKS_COUNT && Launches3(w, e)
    ensures var r, b, d, t := Pass3(trig, w), BulletSlot(e), Driven3(w, e), TurretStep(w.turrets[e]);
      && r.motions[b] == Motion(true, w.motions[e].dx + -trig.sin(t.angle) * t.gunPower as real,
                                      w.motions[e].dy + trig.cos(t.angle) * t.gunPower as real)
      && r.transforms[b] == Transform(true, d.x + r.motions[b].dx, d.y + r.motions[b].dy)
  {
  }

  /** A bullet whose tank does not fire keeps its motion and moves by it if active, as any moving entity does. */
  lemma BulletCoasts3(trig: Trig, w: World3, b: nat)
    requires WellFormed3(w) && TANKS_COUNT <= b < ENTITIES_COUNT && !Launches3(w, b - TANKS_COUNT)
    ensures var r := Pass3(trig, w);
      && r.motions[b] == w.motions[b]
      && r.transforms[b] == if w.transforms[b].isActive && w.motions[b].isActive
                            then Integrate(w.transforms[b], w.motions[b]) else w.transforms[b]
  {
  }

  // ---- Successive turns ----

  /** `updateGameLogic()` pressed `n` times: `n` passes, stopping at the first exception. */
  function Passes3(trig: Trig, w: World3, n: nat): (r: Result<World3>)
    requires w.Valid()
    ensures r.Ok? ==> r.value.Valid()
  {
    if n == 0 then Ok(w)
    else match Passes3(trig, w, n - 1)
      case Err(f) => Err(f)
      case Ok(prev) => ProcessComponents3(trig, prev)
  }

  /** Tank `e` of `r` is tank `e` of `w` after `n` turns at rest: same column, `n` track sums further on. */
  predicate TankAfter3(w: World3, r: World3, e: nat, n: nat)
    requires w.Valid() && r.Valid() && e < TANKS_COUNT
  {
    && WellFormed3(r)
    && r.transforms[e] == w.transforms[e].(y := w.transforms[e].y + (n * Speed3(w, e)) as real)
    && r.motions[e] == w.motions[e]
    && r.turrets[e] == StepN(w.turrets[e], n)
    && Speed3(r, e) == Speed3(w, e)
  }

  lemma TankAfterStep3(trig: Trig, w: World3, prev: World3, e: nat, n: nat)
    requires w.Valid() && prev.Valid() && e < TANKS_COUNT
    requires w.turrets[e].isActive && w.motions[e] == Motion(true, 0.0, 0.0)
    requires TankAfter3(w, prev, e, n)
    ensures TankAfter3(w, Pass3(trig, prev), e, n + 1)
  {
    var s := Speed3(w, e);
    assert StepN(w.turrets[e], n).isActive by {
      StepNKeepsActive(w.turrets[e], n);
    }
    TankPass3(trig, prev, e);
    PassFrame3(trig, prev);
    assert (n + 1) * s == n * s + s;
    assert ((n + 1) * s) as real == (n * s) as real + s as real;
  }

  lemma {:induction false} StepNKeepsActive(t: Turret, n: nat)
    ensures StepN(t, n).isActive == t.isActive
  {
    if n > 0 {
      StepNKeepsActive(t, n - 1);
    }
  }

  /**
   From a well-formed store, every number of turns succeeds, and a tank at
   rest with a running turret after `n` turns stands in its column `n` track
   sums further on with its turret stepped `n` times.
   */
  lemma {:induction false} TankAfterPasses3(trig: Trig, w: World3, e: nat, n: nat)
    requires WellFormed3(w) && e < TANKS_COUNT
    requires w.turrets[e].isActive && w.motions[e] == Motion(true, 0.0, 0.0)
    ensures Passes3(trig, w, n).Ok?
    ensures TankAfter3(w, Passes3(trig, w, n).value, e, n)
  {
    if n == 0 {
      assert w.transforms[e].(y := w.transforms[e].y + 0.0) == w.transforms[e];
    } else {
      TankAfterPasses3(trig, w, e, n - 1);
      var prev := Passes3(trig, w, n - 1).value;
      ProcessComponentsIsPass3(trig, prev);
      TankAfterStep3(trig, w, prev, e, n - 1);
    }
  }

  /**
   The populated store, as written or as intended (the two differ only in the
   hulls, which no turn reads): every turn succeeds, and after `n` turns tank
   `e` stands at `(TankX(gap, e), n * (left + right))` with its turret stepped
   `n` times and its motion still at rest.
   */
  lemma PopulatedRun3(trig: Trig, gap: real, rng: Rng, w: World3, e: nat, n: nat)
    requires 0.0 <= gap && w.Valid() && e < TANKS_COUNT
    requires forall i :: 0 <= i < ENTITIES_COUNT ==> SameButHull3(w.At(i), EntityAt3(gap, rng, i))
    ensures Passes3(trig, w, n).Ok?
    ensures var r := Passes3(trig, w, n).value;
      && r.transforms[e] == Transform(true, TankX(gap, e) as real, (n * Speed3(w, e)) as real)
      && r.motions[e] == Motion(true, 0.0, 0.0)
      && r.turrets[e] == StepN(w.turrets[e], n)
      && 2 <= Speed3(w, e) <= 2 * (TRACK_SPEED_MAX - 1)
  {
    assert WellFormed3(w) by {
      forall i | TANKS_COUNT <= i < ENTITIES_COUNT
        ensures !w.turrets[i].isActive
      {
        assert SameButHull3(w.At(i), PrototypeEntity3);
      }
    }
    assert SameButHull3(w.At(e), TankEntity(gap, rng, e));
    TankAfterPasses3(trig, w, e, n);
  }
}
