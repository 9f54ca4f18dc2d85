# Tank tutorials as an entity-component system, in Dafny

This project models the simulation core of a series of small tank games. Each
game stores its entities as parallel component arrays. The stages, from most
to least complete:

- **part6.js** (modules `Store`, `Archetypes`, `Systems`, `Scheduler`,
  `Simulation`). This is the generic engine.
  - Seven component kinds are listed in a table, each with a prototype and an
    initialiser.
  - The arrays are populated with prototype clones.
  - Each entity is initialised from raw data and its archetype (TANK or
    BULLET).
  - `processComponents` runs every system over every entity whose components
    the system depends on are all active. The systems are the three render
    systems, then motion from tracks, transform from motion, and turret.
- **part4.js** (module `GlobalsEcs`). The same engine on five global arrays,
  with no hull or payload and no render systems. It is modelled natively and
  proved to commute with the part6 model through an embedding.
- **part3.js** (module `EntityMajor`). A hard-coded entity-major loop:
  - Each entity integrates its motion and then runs its turret.
  - The turret step also drives the tank forward.
  - Tanks are built by index range rather than from raw data.
- **part1.js / part2.js** (module `TurnLoop`). Hull positions advance by the
  sum of the two track speeds, once per turn. Part1 uses twelve tanks on
  global arrays; part2 uses three tanks and passes the arrays as parameters.

Modelling choices:

- The store is a datatype with one `seq` column per component kind.
- Updates are pure functions from store to store.
- A JavaScript `TypeError` becomes an `Err` of `Result`. This covers missing
  raw data, an archetype with no table entry, and a turret firing into a
  bullet slot past the arrays.
- JavaScript numbers are exact `real`s and `int`s.
- `parseInt` of a number written without an exponent (0, or
  1e-6 <= |x| < 1e21) is truncation toward zero.
- `2 * Math.PI` is the exact value of the double the program computes.
- `Math.random()` is an oracle handed in by the caller (`Rng`: entity and
  component kind to the draws that initialiser consumes, in call order; in
  the first stages, call number to draw).
- `Math.sin` and `Math.cos` are uninterpreted functions (`Trig`).

Details of the program the model keeps:

- The part6 start-up calls `processComponents` once (part6.js:471). The store
  the user first sees has therefore already advanced one turn, and
  `Simulation.ShippedRun` counts that turn. part4 renders only at start-up.
- The part6 turret prototype has no `angleDelta`. Only an override that omits
  it would observe this (`angle += undefined` gives NaN). The model gives the
  prototype `angleDelta = 0`.

## Model

| member | source | states |
|---|---|---|
| Common.Lerp | part6.js:120-124 | a fraction in [0, 1) of the way from `min` to `max` lies in [min, max); fraction 0 gives `min` |
| Common.Trunc | part6.js:217 | `parseInt` of a number written without an exponent (0, or 1e-6 <= abs(x) < 1e21) is the integer next to it toward zero (below for non-negatives, above for negatives) |
| Common.TruncLerp | part6.js:246 | `parseInt(lerp(min, max, Math.random()))` with integer bounds is a whole number from `min` to `max - 1`; a zero draw gives `min` |
| Components.DefaultTurret | part6.js:217-221 | a turret without data gets an integral angle in [0, 6], a turn rate in [-0.1, 0.1), a reload time in [10, 29], a full countdown and a gun power in [7, 19] |
| Components.InitTrack | part6.js:235-248 | a track without data gets a speed in [1, 4] and keeps its active flag |
| Components.TurretOverrideIsShallow | part6.js:206-214 | turret data is copied field by field: supplied fields arrive verbatim, the others keep their values, and no draw is consulted |
| Components.OverrideDerivesNoCountdown | part6.js:206-214 | data naming only `reloadTime` leaves the countdown at the prototype's 0 (no dependent field is derived) |
| Components.TransformAndTrackOverridesAreShallow | part6.js:140-153 | transform and track data are shallow merges, and empty data changes nothing |
| Components.TurretStep | part6.js:267-303 | a turn rotates by `angleDelta`; the countdown falls by one and restarts at `reloadTime` exactly when it hits 0; a countdown already at or below 0 never fires |
| Components.ReloadCycle | part6.js:267-303 | from countdown `c` in [1, R], after `n` turns the countdown is `R - (R - c + n) % R`, the turret has fired `(R - c + n) / R` times, and the angle has moved `n * angleDelta` |
| Components.CountdownCycle | part6.js:269-303 | the countdown half of the reload cycle: after `n` turns from countdown `c` in [1, R] the countdown is `R - (R - c + n) % R` and `(R - c + n) / R` shots have been fired |
| Components.StepNRotates | part6.js:267 | `n` turns add `n * angleDelta` to the angle and leave every field but the angle and countdown as they were |
| Components.FullReloadFiresOnce | part6.js:269-303 | a fully loaded turret fires exactly once in `reloadTime` turns, at the last of them, and ends fully loaded |
| Components.NonPositiveCountdownNeverFires | part6.js:269-272 | the exact `== 0` test means a countdown at or below 0 keeps falling and never fires |
| Store.PopulateComponentArrays | part6.js:33-46 | the component-major loop fills every slot of every column with a clone of its prototype, all inactive |
| Archetypes.InitComponent | part6.js:56-61 | initialising kind `k` of entity `e` runs its initialiser, activates the slot and changes no other slot |
| Archetypes.InitialisedSlotsAreFixedPoints | part6.js:56-61 | initialising an already initialised slot with the same data and draws changes nothing |
| Archetypes.InitKindsEffect | part6.js:56-61 | running an archetype's kinds initialises exactly those slots of entity `e` and leaves every other slot unchanged |
| Archetypes.InitialiseOutcome | part6.js:49-63 | initialisation succeeds iff every entity has raw data and a known archetype; otherwise it fails at the first entity that does not |
| Archetypes.InitialiseSlots | part6.js:49-63 | after success, the slots an entity's archetype lists are initialised from its data and draws, and every other slot is as before |
| Archetypes.ActivationMatchesArchetype | part6.js:49-63 | from the populated store, a slot is active iff its entity's archetype lists its kind; unlisted slots remain prototypes |
| Archetypes.InitialisationSucceeds | part6.js:51-56 | with the shipped table, initialisation succeeds iff there are at least `ENTITIES_COUNT` raw entries and none of the first ones is NONE |
| Archetypes.TankAndBulletActivation | part6.js:424-429 | a TANK has everything but the payload active; a BULLET has exactly transform, motion and payload active |
| Archetypes.InitialisationIgnoresDraws | part6.js:49-63 | when raw data supplies every random-drawing component, two initialisations give the same store whatever `Math.random()` returns |
| Archetypes.ShippedTank | part6.js:452-470 | each shipped tank starts at its x on line 0 at rest, with an integral turret angle in [0, 6], a turn rate in [-0.1, 0.1), reload time and gun power in range, a full countdown, and track speeds in [1, 4] |
| Archetypes.ShippedBullet | part6.js:452-470 | each shipped bullet starts active at the origin at rest, with no turret or tracks |
| Archetypes.ShippedInitialisation | part6.js:452-470 | initialising the populated store with the shipped data succeeds for every draw, giving fresh tanks and fresh bullets |
| Systems.UpdateMotionFromTracks | part6.js:253-260 | the motion's forward speed becomes the sum of the track speeds; `dx`, the flag and every other slot are kept |
| Systems.UpdateTransform | part6.js:307-316 | the position moves by the motion; nothing else changes |
| Systems.UpdateTurret | part6.js:262-305 | the turret steps; on firing, the bullet slot takes the tank's position and its motion plus `gunPower * (-sin, cos)` of the new angle, both become active and the countdown resets; it fails iff it fires with no bullet slot; at most those three slots change |
| Scheduler.DepsFold | part6.js:21-29 | the `depsMet && isActive` fold is true iff the seed and every listed dependency are |
| Scheduler.SystemDependenciesMetByEntity | part6.js:21-29 | a system runs on `e` iff all its dependencies are active at `e`; no dependencies means always |
| Scheduler.ProcessSystemsAppend | part6.js:7-19 | running a system list is running its first part and then the rest, stopping at the first exception |
| Scheduler.RenderSystemLeavesStore | part6.js:437-439 | the three render systems never change the store |
| Scheduler.ProcessComponentsSkipsRenders | part6.js:434-445 | a pass equals running only the three simulation systems |
| Scheduler.MotionSystemComputesRefresh | part6.js:253-260 | the motion system's entity loop refreshes the forward speed of exactly the entities with active motion and tracks |
| Scheduler.TransformSystemComputesIntegration | part6.js:307-316 | the transform system's loop moves exactly the entities with active transform and motion |
| Scheduler.TurretSystemComputesAdvance | part6.js:262-305 | on a store with no turret in a bullet slot, the turret loop steps the gated turrets and launches the bullets of those that fire, without failing |
| Scheduler.ProcessComponentsIsTick | part6.js:7-19 | on such a store, `processComponents` succeeds with motion refresh, then integration, then turret advance, each over all entities |
| Simulation.TickFrame | part6.js:7-19 | a pass writes no track, hull or payload; it never deactivates; it can only activate bullets' transform and motion; it keeps the store well-formed |
| Simulation.TankTick | part6.js:253-316 | a driving tank's speed becomes the track sum, it moves by `(dx, left + right)`, and its turret steps |
| Simulation.BulletLaunch | part6.js:274-301 | a firing tank's bullet appears at the tank's moved position with the tank's motion plus the muzzle velocity, and does not move in the firing pass |
| Simulation.BulletFlight | part6.js:307-316 | a launched bullet whose tank does not fire moves by its own motion, which stays fixed |
| Simulation.TicksAreTickN | part6.js:107-118 | successive turns from a well-formed store never fail and stay well-formed |
| Simulation.TankAfterTicks | part6.js:107-118 | after `n` turns a driving tank has moved `n` times `(dx, left + right)` and its turret has stepped `n` times |
| Simulation.MotionIntegrationExample | part6.js:253-316 | single example: a tank at (64, 0) with track speeds 2 and 3 has speed 5 and stands at (64, 5) after one pass |
| Simulation.FiringKinematicsExample | part6.js:282-301 | single example: a tank at (64, 5) with speed 5, angle 0 and gun power 10 that fires launches its bullet from (64, 5) with velocity (0, 15) |
| Simulation.InitialisedIsWellFormed | part6.js:424-429 | the shipped initial store has no turret in a bullet slot, and every tank is fresh and driving |
| Simulation.ShippedRun | part6.js:469-471 | start-up and every later turn succeed; after `n` presses tank `e` stands at `TANK_X[e]`, line `(n + 1) * (left + right)` with a sum in [2, 8], countdown `R - (n + 1) % R`, having fired `(n + 1) / R` times |
| Simulation.TickNShift | part6.js:471 | the start-up pass followed by `n` turns is `n + 1` turns |
| GlobalsEcs.Embed | part4.js:128-143 | the five-column store maps into the seven-column one with the same flags, and the hull and payload columns are inactive |
| GlobalsEcs.EmbedProjectRoundTrip | part4.js:128-132 | projecting an embedded store gives it back, and embedding a projection is the identity exactly on stores with prototype hulls and payloads |
| GlobalsEcs.PopulateComponentArrays4 | part4.js:192-200 | the entity-major populate loop gives all-prototype, all-inactive columns, the same store as the component-major loop |
| GlobalsEcs.ShippedSucceeds4 | part4.js:175-188 | initialising with the shipped raw data and the five-kind archetypes succeeds for every draw |
| GlobalsEcs.ShippedActivation4 | part4.js:166-171 | after initialisation, tanks have all five kinds active and bullets exactly transform and motion |
| GlobalsEcs.ShippedTank4 | part4.js:203-214 | each tank is placed at its x on line 0 at rest, with an integral turret angle in [0, 6], a turn rate in [-0.1, 0.1), reload time and gun power in range, a full countdown, and track speeds in [1, 4] |
| GlobalsEcs.ShippedBullet4 | part4.js:203-214 | each bullet is active at the origin at rest, and its turret and tracks are prototypes |
| GlobalsEcs.ShippedValues4 | part4.js:71-118 | on the five-column store, tanks get their positions, rest motions, and turret (angle, turn rate, reload time, countdown, gun power) and track values in the initialisers' ranges; bullets sit at the origin at rest |
| GlobalsEcs.UpdateMotionFromTracks4 | part4.js:218-222 | the global-array motion update agrees with the engine's, under the embedding |
| GlobalsEcs.UpdateTransform4 | part4.js:266-273 | the global-array transform update agrees with the engine's, under the embedding |
| GlobalsEcs.UpdateTurret4 | part4.js:224-264 | the global-array turret update agrees with the engine's, including its failure, under the embedding |
| GlobalsEcs.DepsFold4 | part4.js:284-292 | the dependency check on the global arrays computes the engine's fold on the embedded flags |
| GlobalsEcs.RunUpdate4 | part4.js:276-282 | dispatching one of the three systems agrees with the engine's dispatch |
| GlobalsEcs.GateAgrees | part4.js:284-292 | a system runs on `e` iff every dependency is active, just as in the engine |
| GlobalsEcs.RunSystemCommutes | part4.js:295-307 | one system's entity loop on the global arrays agrees with the engine's loop on the embedded store |
| GlobalsEcs.ProcessSystemsCommute | part4.js:295-307 | any list of the three systems agrees with the engine's run of the same list |
| GlobalsEcs.ProcessComponentsCommute | part4.js:295-307 | a part4 pass agrees with the part6 pass on the embedded store, render systems included |
| GlobalsEcs.ProcessComponents4IsTick | part4.js:276-307 | on a store with no turret in a bullet slot, a part4 pass succeeds and is the engine's closed-form turn |
| EntityMajor.TankX | part3.js:82-85 | tank `e` stands at the truncated middle of the `e`-th lane of width `gap` |
| EntityMajor.TankLanesAreOrdered | part3.js:82-85 | with lanes at least one unit wide, tanks stand strictly left to right |
| EntityMajor.WideCanvasLanes | part3.js:12 | single example: a 512-unit canvas gives the tank positions 64, 192, 320, 448 |
| EntityMajor.InitHull | part3.js:87-90 | hull health is drawn from [0, 9]; the other fields are kept |
| EntityMajor.PopulateComponentArrays3 | part3.js:120-151 | as written: each tank gets all six components active, lane position on line 0, motion at rest, turret angle, turn rate, reload time, countdown, gun power and track speeds in their default ranges, but every tank's hull keeps health 0 whatever the draws; bullet slots stay dormant prototypes; the store differs from the intended one in the hulls alone |
| EntityMajor.PopulateComponentArrays3Intended | part3.js:120-151 | with `initHull(hulls[e])`: each tank's hull health is its own draw in [0, 9], and everything but the hulls is as the code builds it |
| EntityMajor.PopulatedActivity3 | part3.js:130-150 | after populating, as written or as intended, tanks are fully active and bullet slots fully dormant |
| EntityMajor.HullHealthNeverDrawn | part3.js:138-139 | as written, a tank's hull health is 0, and the tank equals the intended one exactly when its hull draw is below 0.1 |
| EntityMajor.HullHealthCounterexample | part3.js:139 | single example: a hull draw of 0.5 gives health 5 in the intended store but 0 in the store as written |
| EntityMajor.UpdateTransform3 | part3.js:203-210 | the position moves by the motion; nothing else changes |
| EntityMajor.UpdateTurret3 | part3.js:155-201 | the tank moves forward by the track sum with x kept; the turret steps; on firing, the bullet takes the moved position with tank motion plus muzzle velocity; it fails iff it fires with no bullet slot |
| EntityMajor.ProcessUpToIsPrefix3 | part3.js:213-233 | on a store with no turret in a bullet slot, the entity loop up to `n` succeeds with the closed-form prefix |
| EntityMajor.ProcessComponentsIsPass3 | part3.js:213-233 | a whole entity-major pass succeeds with the closed-form pass |
| EntityMajor.PassFrame3 | part3.js:213-233 | a pass writes no hull or track, never writes a tank's motion, steps exactly the active turrets, and stays well-formed |
| EntityMajor.TankPass3 | part3.js:157-160 | a tank at rest with a running turret keeps x and gains the track sum in y; `updateTransform` alone leaves it in place |
| EntityMajor.BulletMovesInFiringPass3 | part3.js:213-233 | a bullet fired by tank `e` is integrated in the same pass, ending one motion step beyond the tank's new position |
| EntityMajor.BulletCoasts3 | part3.js:216-226 | a bullet whose tank does not fire keeps its motion and moves by it if active |
| EntityMajor.TankAfterPasses3 | part3.js:306-314 | from a well-formed store every turn succeeds; a tank at rest after `n` turns has gained `n` track sums in y with its turret stepped `n` times |
| EntityMajor.PopulatedRun3 | part3.js:120-151 | from the populated store, as written or with any other hulls, after `n` turns tank `e` stands at `(TankX(gap, e), n * (left + right))` with a sum in [2, 8], still at rest |
| TurnLoop.TrackSpeed | part1.js:25-26 | `Math.floor(Math.random() * 5)` is a whole speed in [0, 4] |
| TurnLoop.EverySpeedIsDrawable | part1.js:25-26 | every speed in [0, 4] can be drawn (one witness draw per speed) |
| TurnLoop.PopulateTanks | part1.js:22-32 | every hull starts at 0; each tank draws its left then right speed, both in [0, 4]; turrets stay unset |
| TurnLoop.AllTanksTakeTheirTurns | part1.js:36-56 | one turn advances every hull once by its left plus right speed; tracks and turrets are untouched |
| TurnLoop.OneTankTakesItsTurn | part2.js:31-44 | tank `e`'s hull moves forward by its speed; every other hull is kept |
| TurnLoop.TakeTurnsUpTo | part2.js:47-60 | the loop over the tanks below `n` moves each of them exactly once and no other |
| TurnLoop.Turn | part2.js:47-60 | a turn writes only the hulls, each advancing by its speed; the turret array passed in is neither read nor written |
| TurnLoop.TurnLoopsAgree | part2.js:47-60 | the global-array loop and the parameterised loop compute the same turn |
| TurnLoop.TurnsClosedForm | part1.js:106-114 | after `n` turns every hull has advanced `n` times its speed, with tracks unchanged |
| TurnLoop.PopulatedRun | part1.js:22-26 | from populated arrays, hull `e` after `n` turns is `n * (left + right)`, between 0 and `8n`, and never decreases |
| TurnLoop.ShippedTurns | part2.js:5-21 | with twelve and with three tanks, every hull after `n` turns is `n` times its speed, between 0 and `8n` |

## Left out

- Rendering is not modelled: canvas drawing, colours, sizes, and the
  `renderEntities` / `renderAllTanks` functions. The part6 render systems
  (part6.js:318-385) appear only as systems that leave the store unchanged.
  None of these writes a component.
- `console.log`, the key-up listener, the turn counter and the canvas clearing
  in `gameLoop` / `updateGameLogic` are input/output. A turn is one call of
  the modelled pass.
- localhost.py is a development web server. It is not part of this model.
- Floating point: numbers are exact reals, so rounding, NaN and infinities
  are not modelled. `parseInt` is modelled only on finite numbers.
- `Math.random`, `Math.sin` and `Math.cos` are parameters; their distribution
  and their values are not modelled.
- `canvas.width` is a parameter `gap = canvas.width / TANKS_COUNT`, because
  the page markup is not part of this model.
- part3's `initHull(transforms[e])` also gives each tank's transform a
  `health` property. The closed component records do not represent it; no
  code reads it.
- Common.Trunc: `parseInt` reads the decimal string of its argument, and
  numbers with 0 < |x| < 1e-6 or |x| >= 1e21 are written with an exponent.
  `parseInt(6.2e-7)` is 6, not 0. Floor toward zero is exact only for numbers
  written without an exponent. The affected places are those whose range
  starts at 0: the default turret angle and the part3 hull health.
- Components.DefaultTurret: for an angle draw in about (1.1e-7, 1.6e-7) the
  program's angle is 7, 8 or 9, outside the stated [0, 6], and for other
  positive draws below about 1.6e-7 it is 1 to 6 where the model gives 0 (see
  Common.Trunc).
- EntityMajor.InitHull: for a positive hull draw below 1e-7 the program's health is the
  leading digit of the exponent form, 1 to 9, where the model gives 0 (see
  Common.Trunc).
- Raw data longer than `ENTITIES_COUNT`: the entries past `ENTITIES_COUNT` are
  never read (part6.js:51-56).
- Components.DefaultTurret: the turret prototype's missing `angleDelta` is
  modelled as 0, so the NaN an override without `angleDelta` would produce is
  not represented.
- Scheduler.ProcessComponentsIsTick: the closed form covers stores with no
  active turret in a bullet slot. The failure otherwise is stated by
  Systems.UpdateTurret.
- GlobalsEcs.DepsFold4: dependency lists naming hull or payload are excluded.
  part4 has no such arrays, so such a list would be a `TypeError`, and its own
  systems never name them.
- Archetypes.InitialisationIgnoresDraws: it covers only raw data that supplies
  every component whose initialiser draws. Otherwise the result depends on
  the draws.
- Systems.UpdateTurret: when a firing turret has no bullet slot, the model
  returns only the failure and drops the store. In the program the turret's
  new angle and countdown (part6.js:267-269) and every earlier write of the
  same pass survive the `TypeError`. EntityMajor.UpdateTurret3 and
  GlobalsEcs.UpdateTurret4 do the same for part3 and part4. The failure cannot
  arise on a store with no active turret in a bullet slot, and every store the
  shipped start-up builds is one.
- Simulation.Ticks: the run stops at the first failed pass. In the program the
  next Space key-up (part6.js:473) runs `gameLoop` again on the partly updated
  store. EntityMajor.Passes3 stops the same way for part3.js:318.
- Random draws are indexed by entity and component kind. An archetype that
  listed a kind twice would call `Math.random()` afresh in the program but
  reuse the same draws in the model. No shipped archetype lists a kind twice.
- Populating `new Array(ENTITIES_COUNT)` slot by slot, in index order, is
  modelled as appending to an empty sequence.

## Findings

| source | as written | input that shows it | evidently intended | confidence | as-written member | corrected member |
|---|---|---|---|---|---|---|
| part3.js:139 | `initHull(transforms[e])` hands the tank's transform to the hull initialiser, so the drawn health lands on the transform and every hull keeps health 0 | any start-up; e.g. a hull draw of 0.5 for tank 0 leaves health 0 where 5 is meant | `initHull(hulls[e])`, giving each tank a health in [0, 9] | high (not executed) | EntityMajor.PopulateComponentArrays3 | EntityMajor.PopulateComponentArrays3Intended |
