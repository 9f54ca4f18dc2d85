/**
 The three simulation systems of the most complete stage, each a function of
 the store and one entity index: track speeds to motion, motion integration,
 and the turret's rotate / reload / fire step, which writes the paired bullet
 slot `TANKS_COUNT + e`.
 */
module Systems {
  import opened Common
  import opened Components
  import opened Store

  /** Every slot outside `touched` is the same in `w` and `r`. */
  predicate OnlyTouches(w: World, r: World, touched: set<(Kind, nat)>)
    requires w.Valid() && r.Valid()
  {
    forall k, e :: 0 <= e < ENTITIES_COUNT && (k, e) !in touched ==> SlotUnchanged(w, r, k, e)
  }

  /** The bullet slot of entity `e`. */
  function BulletSlot(e: nat): nat
  {
    TANKS_COUNT + e
  }

  /** `updateMotionFromTracks(e)`: the forward speed becomes the sum of the two track speeds. */
  function UpdateMotionFromTracks(w: World, e: nat): (r: World)
    requires w.Valid() && e < ENTITIES_COUNT
    ensures r.Valid()
    ensures r.motions[e].dy == (w.trackLefts[e].speed + w.trackRights[e].speed) as real
    ensures r.motions[e].dx == w.motions[e].dx && r.motions[e].isActive == w.motions[e].isActive
    ensures OnlyTouches(w, r, {(MOTION, e)})
  {
    var tankMotion := w.motions[e];
    w.(motions := w.motions[e := tankMotion.(dy := (w.trackLefts[e].speed + w.trackRights[e].speed) as real)])
  }

  /** `updateTransform(e)`: the position moves by the motion. */
  function UpdateTransform(w: World, e: nat): (r: World)
    requires w.Valid() && e < ENTITIES_COUNT
    ensures r.Valid()
    ensures r.transforms[e].x == w.transforms[e].x + w.motions[e].dx
    ensures r.transforms[e].y == w.transforms[e].y + w.motions[e].dy
    ensures r.transforms[e].isActive == w.transforms[e].isActive
    ensures OnlyTouches(w, r, {(TRANSFORM, e)})
  {
    w.(transforms := w.transforms[e := Integrate(w.transforms[e], w.motions[e])])
  }

  /**
   `updateTurret(e)`: rotate and count down; when the countdown reaches zero,
   place the bullet of slot `TANKS_COUNT + e` at the tank, give it the tank's
   motion plus the muzzle velocity, activate it and restart the countdown.
   Firing from an entity whose bullet slot lies past the arrays is the
   TypeError of writing a field of `undefined`.
   */
  function UpdateTurret(trig: Trig, w: World, e: nat): (r: Result<World>)
    requires w.Valid() && e < ENTITIES_COUNT
    ensures r.Err? <==> Fires(w.turrets[e]) && BulletSlot(e) >= ENTITIES_COUNT
    ensures r.Err? ==> r.failure == BulletSlotOutOfRange(e)
    ensures r.Ok? ==> r.value.Valid() && r.value.turrets[e] == TurretStep(w.turrets[e])
    ensures r.Ok? && !Fires(w.turrets[e]) ==> OnlyTouches(w, r.value, {(TURRET, e)})
    ensures r.Ok? && Fires(w.turrets[e]) ==>
      var b, t := BulletSlot(e), r.value.turrets[e];
      && r.value.turrets[e].reloadCountdown == w.turrets[e].reloadTime
      && r.value.transforms[b] == Transform(true, w.transforms[e].x, w.transforms[e].y)
      && r.value.motions[b].isActive
      && r.value.motions[b].dx == w.motions[e].dx + -trig.sin(t.angle) * t.gunPower as real
      && r.value.motions[b].dy == w.motions[e].dy + trig.cos(t.angle) * t.gunPower as real
      && OnlyTouches(w, r.value, {(TURRET, e), (TRANSFORM, b), (MOTION, b)})
  {
    var turret := TurretStep(w.turrets[e]);
    var rotated := w.(turrets := w.turrets[e := turret]);
    if !Fires(w.turrets[e]) then Ok(rotated)
    else if BulletSlot(e) >= ENTITIES_COUNT then Err(BulletSlotOutOfRange(e))
    else
      var b := BulletSlot(e);
      Ok(rotated.(transforms := w.transforms[b := FiredBulletTransform(w.transforms[e], w.transforms[b])],
                  motions := w.motions[b := FiredBulletMotion(trig, w.motions[e], turret, w.motions[b])]))
  }
}
