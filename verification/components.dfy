/**
 The component records of the tank simulation and everything that works on
 one record at a time: prototypes, per-kind initialisers (shallow override
 merge or bounded random defaults), the turret's rotate/reload step and the
 values a fired bullet receives.

 Every record carries the leading `isActive` flag of the source; a record
 whose flag is false is "logically absent" but still occupies its slot.
 */
module Components {
  import opened Common

  datatype Transform = Transform(isActive: bool, x: real, y: real)
  datatype Motion = Motion(isActive: bool, dx: real, dy: real)
  datatype Turret = Turret(isActive: bool, angle: real, angleDelta: real,
                           reloadTime: int, reloadCountdown: int, gunPower: int)
  datatype Track = Track(isActive: bool, speed: int)
  datatype Hull = Hull(isActive: bool, health: int)
  datatype Payload = Payload(isActive: bool, damage: int)

  // Prototypes: the value every slot is cloned from before initialisation.
  const TransformPrototype := Transform(false, 0.0, 0.0)
  const MotionPrototype := Motion(false, 0.0, 0.0)
  /** The source's turret prototype has no `angleDelta` field; it is 0 here. */
  const TurretPrototype := Turret(false, 0.0, 0.0, 0, 0, 0)
  const TrackPrototype := Track(false, 0)
  const HullPrototype := Hull(false, 0)
  const PayloadPrototype := Payload(false, 0)

  // Bounds of the random defaults.
  const TURRET_ANGLE_MIN: real := 0.0
  const TURRET_ANGLE_MAX: real := TWO_PI
  const TURRET_RELOADTIME_MIN: int := 10
  const TURRET_RELOADTIME_MAX: int := 30
  const TURRET_GUNPOWER_MIN: int := 7
  const TURRET_GUNPOWER_MAX: int := 20
  const TRACK_SPEED_MIN: int := 1
  const TRACK_SPEED_MAX: int := 5

  /*
   * Override data: a partial record per kind. A `None` field is a property the
   * raw data does not mention; a `Some` field is copied verbatim.
   */
  datatype TransformData = TransformData(isActive: Option<bool>, x: Option<real>, y: Option<real>)
  datatype MotionData = MotionData(isActive: Option<bool>, dx: Option<real>, dy: Option<real>)
  datatype TurretData = TurretData(isActive: Option<bool>, angle: Option<real>, angleDelta: Option<real>,
                                   reloadTime: Option<int>, reloadCountdown: Option<int>,
                                   gunPower: Option<int>)
  datatype TrackData = TrackData(isActive: Option<bool>, speed: Option<int>)
  datatype HullData = HullData(isActive: Option<bool>, health: Option<int>)
  datatype PayloadData = PayloadData(isActive: Option<bool>, damage: Option<int>)

  /** One step of `for (let prop in data) record[prop] = data[prop]`: the supplied value, else the current one. */
  function Pick<T>(current: T, supplied: Option<T>): T
  {
    match supplied
    case Some(v) => v
    case None => current
  }

  function MergeTransform(t: Transform, d: TransformData): Transform
  {
    Transform(Pick(t.isActive, d.isActive), Pick(t.x, d.x), Pick(t.y, d.y))
  }

  function MergeTurret(t: Turret, d: TurretData): Turret
  {
    Turret(Pick(t.isActive, d.isActive), Pick(t.angle, d.angle), Pick(t.angleDelta, d.angleDelta),
           Pick(t.reloadTime, d.reloadTime), Pick(t.reloadCountdown, d.reloadCountdown),
           Pick(t.gunPower, d.gunPower))
  }

  function MergeTrack(t: Track, d: TrackData): Track
  {
    Track(Pick(t.isActive, d.isActive), Pick(t.speed, d.speed))
  }

  /** `funcNull`, the initialiser of motion, hull and payload: the record is left as it is. */
  function FuncNull<C, D>(component: C, data: D): C
  {
    component
  }

  /** `transform.init`: supplied fields are copied, and without data the slot is left as is. */
  function InitTransform(t: Transform, data: Option<TransformData>): Transform
  {
    match data
    case Some(d) => MergeTransform(t, d)
    case None => t
  }

  /** The random defaults of a turret, drawn in the source's order: angle, angleDelta, reloadTime, gunPower. */
  function DefaultTurret(t: Turret, draws: Draws): (r: Turret)
    ensures r.isActive == t.isActive
    ensures 0.0 <= r.angle <= 6.0 && r.angle == r.angle.Floor as real
    ensures -0.1 <= r.angleDelta < 0.1
    ensures TURRET_RELOADTIME_MIN <= r.reloadTime <= TURRET_RELOADTIME_MAX - 1
    ensures r.reloadCountdown == r.reloadTime
    ensures TURRET_GUNPOWER_MIN <= r.gunPower <= TURRET_GUNPOWER_MAX - 1
  {
    var angleLerp := Lerp(TURRET_ANGLE_MIN, TURRET_ANGLE_MAX, draws.d0);
    var angle := Trunc(angleLerp);
    assert angle <= 6 by {
      assert angle as real <= angleLerp < TWO_PI;
    }
    var reloadTime := TruncLerp(TURRET_RELOADTIME_MIN, TURRET_RELOADTIME_MAX, draws.d2);
    t.(angle := angle as real,
       angleDelta := (draws.d1 - 0.5) / 5.0,
       reloadTime := reloadTime,
       reloadCountdown := reloadTime,
       gunPower := TruncLerp(TURRET_GUNPOWER_MIN, TURRET_GUNPOWER_MAX, draws.d3))
  }

  /** The values `DefaultTurret` draws into: the ranges of its four draws and a full countdown. */
  predicate DefaultTurretRanges(t: Turret)
  {
    && 0.0 <= t.angle <= 6.0 && t.angle == t.angle.Floor as real
    && -0.1 <= t.angleDelta < 0.1
    && TURRET_RELOADTIME_MIN <= t.reloadTime <= TURRET_RELOADTIME_MAX - 1
    && t.reloadCountdown == t.reloadTime
    && TURRET_GUNPOWER_MIN <= t.gunPower <= TURRET_GUNPOWER_MAX - 1
  }

  /** `turret.init`: override data is copied field by field; without data the random defaults are drawn. */
  function InitTurret(t: Turret, data: Option<TurretData>, draws: Draws): Turret
  {
    match data
    case Some(d) => MergeTurret(t, d)
    case None => DefaultTurret(t, draws)
  }

  /** `track.init`: override data is copied; without data the speed is drawn from [1, 4]. */
  function InitTrack(t: Track, data: Option<TrackData>, draws: Draws): (r: Track)
    ensures data.None? ==> r.isActive == t.isActive
    ensures data.None? ==> TRACK_SPEED_MIN <= r.speed <= TRACK_SPEED_MAX - 1
  {
    match data
    case Some(d) => MergeTrack(t, d)
    case None => t.(speed := TruncLerp(TRACK_SPEED_MIN, TRACK_SPEED_MAX, draws.d0))
  }

  /**
   The override path is a shallow merge: every supplied field arrives verbatim,
   every other field keeps its current value (no dependent field such as
   `reloadCountdown` is derived), and no random draw is consulted.
   */
  lemma TurretOverrideIsShallow(t: Turret, d: TurretData, draws: Draws, other: Draws)
    ensures InitTurret(t, Some(d), draws) == InitTurret(t, Some(d), other)
    ensures var r := InitTurret(t, Some(d), draws);
      && (d.angle.Some? ==> r.angle == d.angle.value)
      && (d.angle.None? ==> r.angle == t.angle)
      && (d.angleDelta.Some? ==> r.angleDelta == d.angleDelta.value)
      && (d.angleDelta.None? ==> r.angleDelta == t.angleDelta)
      && (d.reloadTime.Some? ==> r.reloadTime == d.reloadTime.value)
      && (d.reloadTime.None? ==> r.reloadTime == t.reloadTime)
      && (d.reloadCountdown.Some? ==> r.reloadCountdown == d.reloadCountdown.value)
      && (d.reloadCountdown.None? ==> r.reloadCountdown == t.reloadCountdown)
      && (d.gunPower.Some? ==> r.gunPower == d.gunPower.value)
      && (d.gunPower.None? ==> r.gunPower == t.gunPower)
  {
  }

  /** Turret data that names only `reloadTime` leaves the prototype's zero countdown in place. */
  lemma OverrideDerivesNoCountdown(reloadTime: int, draws: Draws)
    ensures var r := InitTurret(TurretPrototype, Some(TurretData(None, None, None, Some(reloadTime), None, None)), draws);
      r.reloadTime == reloadTime && r.reloadCountdown == 0
  {
  }

  /** Transform and track overrides are shallow merges too, and an empty override changes nothing. */
  lemma TransformAndTrackOverridesAreShallow(t: Transform, d: TransformData, k: Track, e: TrackData, draws: Draws)
    ensures var r := InitTransform(t, Some(d));
      && (d.x.Some? ==> r.x == d.x.value) && (d.x.None? ==> r.x == t.x)
      && (d.y.Some? ==> r.y == d.y.value) && (d.y.None? ==> r.y == t.y)
    ensures var r := InitTrack(k, Some(e), draws);
      && (e.speed.Some? ==> r.speed == e.speed.value) && (e.speed.None? ==> r.speed == k.speed)
    ensures InitTransform(t, Some(TransformData(None, None, None))) == t
    ensures InitTrack(k, Some(TrackData(None, None)), draws) == k
  {
  }

  // ---- The turret's rotate / reload step of updateTurret ----

  /** The countdown reaches zero on this turn, so the turret fires (exact equality, as in the source). */
  predicate Fires(t: Turret)
  {
    t.reloadCountdown - 1 == 0
  }

  /** Rotate by `angleDelta`, decrement the countdown, and restart it at `reloadTime` when it reaches zero. */
  function TurretStep(t: Turret): (r: Turret)
    ensures r.isActive == t.isActive && r.reloadTime == t.reloadTime && r.gunPower == t.gunPower
    ensures r.angleDelta == t.angleDelta
    ensures r.angle == t.angle + t.angleDelta
    ensures 1 <= t.reloadCountdown <= t.reloadTime ==> 1 <= r.reloadCountdown <= r.reloadTime
    ensures Fires(t) ==> r.reloadCountdown == t.reloadTime
    ensures !Fires(t) ==> r.reloadCountdown == t.reloadCountdown - 1
    ensures t.reloadCountdown <= 0 ==> !Fires(t) && r.reloadCountdown == t.reloadCountdown - 1
  {
    var countdown := t.reloadCountdown - 1;
    t.(angle := t.angle + t.angleDelta,
       reloadCountdown := if countdown == 0 then t.reloadTime else countdown)
  }

  /** The turret after `n` turns of `TurretStep`. */
  function StepN(t: Turret, n: nat): Turret
  {
    if n == 0 then t else TurretStep(StepN(t, n - 1))
  }

  /** How many of the first `n` turns fire. */
  function FireCount(t: Turret, n: nat): nat
  {
    if n == 0 then 0 else FireCount(t, n - 1) + (if Fires(StepN(t, n - 1)) then 1 else 0)
  }

  /** Euclidean quotient and remainder are the unique `q`, `s` with `a == r * q + s` and `0 <= s < r`. */
  lemma DivModUnique(a: int, r: int, q: int, s: int)
    requires r >= 1 && 0 <= s < r && a == r * q + s
    ensures a / r == q && a % r == s
  {
    var q', s' := a / r, a % r;
    var d := q - q';
    assert r * d == s' - s by {
      assert r * q + s == r * q' + s';
      assert r * d == r * q - r * q';
    }
    if d >= 1 {
      assert false;
    } else if d <= -1 {
      assert false;
    }
  }

  lemma DivModSuccessor(m: nat, r: nat)
    requires r >= 1
    ensures m % r == r - 1 ==> (m + 1) % r == 0 && (m + 1) / r == m / r + 1
    ensures m % r != r - 1 ==> (m + 1) % r == m % r + 1 && (m + 1) / r == m / r
  {
    var q, s := m / r, m % r;
    assert m == r * q + s;
    if s == r - 1 {
      DivModUnique(m + 1, r, q + 1, 0);
    } else {
      DivModUnique(m + 1, r, q, s + 1);
    }
  }

  /**
   The reload cycle: from a countdown in [1, reloadTime], after `n` turns the
   countdown is `reloadTime - (phase + n) % reloadTime` and the turret has fired
   `(phase + n) / reloadTime` times, where `phase = reloadTime - countdown`.
   The angle has advanced by `n * angleDelta`; nothing else has changed.
   */
  lemma ReloadCycle(t: Turret, n: nat)
    requires 1 <= t.reloadCountdown <= t.reloadTime
    ensures var p := t.reloadTime - t.reloadCountdown;
      && StepN(t, n).reloadCountdown == t.reloadTime - (p + n) % t.reloadTime
      && FireCount(t, n) == (p + n) / t.reloadTime
    ensures StepN(t, n).angle == t.angle + n as real * t.angleDelta
    ensures StepN(t, n).(angle := t.angle, reloadCountdown := t.reloadCountdown) == t
  {
    CountdownCycle(t, n);
    StepNRotates(t, n);
  }

  /** The countdown half of `ReloadCycle`. */
  lemma {:induction false} CountdownCycle(t: Turret, n: nat)
    requires 1 <= t.reloadCountdown <= t.reloadTime
    ensures var p := t.reloadTime - t.reloadCountdown;
      && StepN(t, n).reloadCountdown == t.reloadTime - (p + n) % t.reloadTime
      && FireCount(t, n) == (p + n) / t.reloadTime
  {
    var p := t.reloadTime - t.reloadCountdown;
    if n == 0 {
      DivModUnique(p, t.reloadTime, 0, p);
    } else {
      CountdownCycle(t, n - 1);
      var prev := StepN(t, n - 1);
      StepNRotates(t, n - 1);
      assert StepN(t, n) == TurretStep(prev);
      CountdownStep(t.reloadTime, p + n - 1, prev.reloadCountdown);
    }
  }

  /** One turn of the countdown, in terms of the turns `m` already counted from the start of a cycle. */
  lemma CountdownStep(r: int, m: nat, c: int)
    requires r >= 1 && c == r - m % r
    ensures c - 1 == 0 <==> m % r == r - 1
    ensures (if c - 1 == 0 then r else c - 1) == r - (m + 1) % r
    ensures (m + 1) / r == m / r + (if c - 1 == 0 then 1 else 0)
  {
    DivModSuccessor(m, r);
  }

  /** The rotation half of `ReloadCycle`: `n` turns add `n * angleDelta` and touch nothing but the angle and countdown. */
  lemma {:induction false} StepNRotates(t: Turret, n: nat)
    ensures StepN(t, n).angle == t.angle + n as real * t.angleDelta
    ensures StepN(t, n).(angle := t.angle, reloadCountdown := t.reloadCountdown) == t
  {
    if n > 0 {
      StepNRotates(t, n - 1);
      assert n as real * t.angleDelta == (n - 1) as real * t.angleDelta + t.angleDelta;
    }
  }

  /** With `reloadCountdown == reloadTime`, a full `reloadTime` turns fire exactly once and restore the countdown. */
  lemma FullReloadFiresOnce(t: Turret)
    requires 1 <= t.reloadTime && t.reloadCountdown == t.reloadTime
    ensures StepN(t, t.reloadTime as nat).reloadCountdown == t.reloadTime
    ensures FireCount(t, t.reloadTime as nat) == 1
    ensures forall n: nat :: n < t.reloadTime ==> FireCount(t, n) == 0
  {
    ReloadCycle(t, t.reloadTime as nat);
    forall n: nat | n < t.reloadTime
      ensures FireCount(t, n) == 0
    {
      ReloadCycle(t, n);
    }
  }

  /** A countdown that is already at or below zero keeps falling and never fires again. */
  lemma {:induction false} NonPositiveCountdownNeverFires(t: Turret, n: nat)
    requires t.reloadCountdown <= 0
    ensures StepN(t, n).reloadCountdown == t.reloadCountdown - n
    ensures FireCount(t, n) == 0
  {
    if n > 0 {
      NonPositiveCountdownNeverFires(t, n - 1);
    }
  }

  // ---- What a firing turret writes into its bullet slot ----

  /** The bullet's transform takes the firing tank's position and becomes active. */
  function FiredBulletTransform(tank: Transform, bullet: Transform): Transform
  {
    bullet.(isActive := true, x := tank.x, y := tank.y)
  }

  /** The bullet's motion: the tank's motion plus `gunPower * (-sin angle, cos angle)`, and it becomes active. */
  function FiredBulletMotion(trig: Trig, tank: Motion, turret: Turret, bullet: Motion): Motion
  {
    var muzzleDx := -trig.sin(turret.angle) * turret.gunPower as real;
    var muzzleDy := trig.cos(turret.angle) * turret.gunPower as real;
    bullet.(isActive := true, dx := tank.dx + muzzleDx, dy := tank.dy + muzzleDy)
  }

  /** `transform += motion`. */
  function Integrate(t: Transform, m: Motion): Transform
  {
    t.(x := t.x + m.dx, y := t.y + m.dy)
  }
}
