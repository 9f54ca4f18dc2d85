/**
 The two first stages (part1.js, part2.js): tanks as four parallel arrays —
 hull position, turret, left and right track speed — and a turn that moves
 every hull forward by the sum of its two track speeds. The first stage works
 on global arrays of twelve tanks, the second passes the arrays to its turn
 functions and has three tanks; turrets are allocated but never used.
 */
module TurnLoop {
  import opened Common

  /** Track speeds are drawn below this bound. */
  const SPEED_MAX: int := 5

  /** Tanks in part1.js and in part2.js. */
  const PART1_ENTITIES_COUNT: nat := 12
  const PART2_ENTITIES_COUNT: nat := 3

  /**
   The four arrays of the first stages. A turret slot is `None` until
   something is stored there, which nothing in these stages does.
   */
  datatype Tanks<T> = Tanks(hulls: seq<int>, turrets: seq<Option<T>>, trackLefts: seq<int>, trackRights: seq<int>)
  {
    predicate Valid(count: nat)
    {
      |hulls| == count && |turrets| == count && |trackLefts| == count && |trackRights| == count
    }

    /** The hull's advance per turn. */
    function Speed(e: nat): int
      requires e < |trackLefts| && e < |trackRights|
    {
      trackLefts[e] + trackRights[e]
    }
  }

  /** `Math.floor(Math.random() * SPEED_MAX)`: a whole speed from 0 to `SPEED_MAX - 1`. */
  function TrackSpeed(t: Fraction): (s: int)
    ensures 0 <= s <= SPEED_MAX - 1
    ensures s as real <= t * SPEED_MAX as real < s as real + 1.0
  {
    (t * SPEED_MAX as real).Floor
  }

  /** Every speed from 0 to `SPEED_MAX - 1` is drawn by some random value. */
  lemma EverySpeedIsDrawable(s: int)
    requires 0 <= s < SPEED_MAX
    ensures TrackSpeed(s as real / SPEED_MAX as real) == s
  {
  }

  /**
   The populate loop (part1.js:22-32, part2.js:17-27): every hull starts at 0
   and each tank draws its left, then its right track speed, so `rand(i)` is
   the `i`-th `Math.random()` call. The turret array stays as allocated.
   */
  method PopulateTanks<T>(count: nat, rand: nat -> Fraction) returns (w: Tanks<T>)
    ensures w.Valid(count)
    ensures forall e :: 0 <= e < count ==> w.hulls[e] == 0 && w.turrets[e] == None
    ensures forall e :: 0 <= e < count ==> 0 <= w.trackLefts[e] < SPEED_MAX && 0 <= w.trackRights[e] < SPEED_MAX
    ensures forall e :: 0 <= e < count ==>
      w.trackLefts[e] == TrackSpeed(rand(2 * e)) && w.trackRights[e] == TrackSpeed(rand(2 * e + 1))
  {
    w := Tanks([], seq(count, _ => None), [], []);
    var e := 0;
    while e < count
      invariant e <= count && |w.hulls| == e && |w.trackLefts| == e && |w.trackRights| == e
      invariant |w.turrets| == count && forall i :: 0 <= i < count ==> w.turrets[i] == None
      invariant forall i :: 0 <= i < e ==> w.hulls[i] == 0
      invariant forall i :: 0 <= i < e ==>
        w.trackLefts[i] == TrackSpeed(rand(2 * i)) && w.trackRights[i] == TrackSpeed(rand(2 * i + 1))
    {
      w := w.(hulls := w.hulls + [0],
              trackLefts := w.trackLefts + [TrackSpeed(rand(2 * e))],
              trackRights := w.trackRights + [TrackSpeed(rand(2 * e + 1))]);
      e := e + 1;
    }
  }

  /**
   `allTanksTakeTheirTurns()` of part1.js, on the global arrays: each tank in
   turn moves its hull forward by the sum of its track speeds.
   */
  method AllTanksTakeTheirTurns<T>(w: Tanks<T>, count: nat) returns (r: Tanks<T>)
    requires w.Valid(count)
    ensures r.Valid(count)
    ensures forall e :: 0 <= e < count ==> r.hulls[e] == w.hulls[e] + w.Speed(e)
    ensures r.turrets == w.turrets && r.trackLefts == w.trackLefts && r.trackRights == w.trackRights
  {
    r := w;
    var e := 0;
    while e < count
      invariant e <= count && r.Valid(count)
      invariant r.turrets == w.turrets && r.trackLefts == w.trackLefts && r.trackRights == w.trackRights
      invariant forall i :: 0 <= i < e ==> r.hulls[i] == w.hulls[i] + w.Speed(i)
      invariant forall i :: e <= i < count ==> r.hulls[i] == w.hulls[i]
    {
      r := r.(hulls := r.hulls[e := r.hulls[e] + r.Speed(e)]);
      e := e + 1;
    }
  }

  /**
   `oneTankTakesItsTurn(e, hulls, turrets, trackLefts, trackRights)` of
   part2.js: tank `e`'s hull moves forward by its speed; nothing else changes.
   */
  function OneTankTakesItsTurn<T>(e: nat, hulls: seq<int>, turrets: seq<Option<T>>,
                                  trackLefts: seq<int>, trackRights: seq<int>): (r: seq<int>)
    requires e < |hulls| && e < |trackLefts| && e < |trackRights|
    ensures |r| == |hulls| && r[e] == hulls[e] + trackLefts[e] + trackRights[e]
    ensures forall i :: 0 <= i < |hulls| && i != e ==> r[i] == hulls[i]
  {
    hulls[e := hulls[e] + trackLefts[e] + trackRights[e]]
  }

  /**
   `allTanksTakeTheirTurns(hulls, turrets, trackLefts, trackRights)` of
   part2.js, with the loop run over the tanks below `n`: each of them moves
   once, the others stay.
   */
  function TakeTurnsUpTo<T>(n: nat, hulls: seq<int>, turrets: seq<Option<T>>,
                            trackLefts: seq<int>, trackRights: seq<int>): (r: seq<int>)
    requires n <= |hulls| && |trackLefts| == |hulls| && |trackRights| == |hulls|
    ensures |r| == |hulls|
    ensures forall e :: 0 <= e < n ==> r[e] == hulls[e] + trackLefts[e] + trackRights[e]
    ensures forall e :: n <= e < |hulls| ==> r[e] == hulls[e]
  {
    if n == 0 then hulls
    else OneTankTakesItsTurn(n - 1, TakeTurnsUpTo(n - 1, hulls, turrets, trackLefts, trackRights),
                             turrets, trackLefts, trackRights)
  }

  /** One turn of part2.js over all `count` tanks; only the hull array is written. */
  function Turn<T>(w: Tanks<T>, count: nat): (r: Tanks<T>)
    requires w.Valid(count)
    ensures r.Valid(count)
    ensures r.turrets == w.turrets && r.trackLefts == w.trackLefts && r.trackRights == w.trackRights
    ensures forall e :: 0 <= e < count ==> r.hulls[e] == w.hulls[e] + w.Speed(e)
  {
    w.(hulls := TakeTurnsUpTo(count, w.hulls, w.turrets, w.trackLefts, w.trackRights))
  }

  /** The global-array loop of part1.js and the parameterised loop of part2.js compute the same turn. */
  method TurnLoopsAgree<T>(w: Tanks<T>, count: nat) returns (r: Tanks<T>)
    requires w.Valid(count)
    ensures r == Turn(w, count)
  {
    r := AllTanksTakeTheirTurns(w, count);
    assert r.hulls == Turn(w, count).hulls;
  }

  /** `n` presses of the space bar. */
  function Turns<T>(w: Tanks<T>, count: nat, n: nat): (r: Tanks<T>)
    requires w.Valid(count)
    ensures r.Valid(count)
  {
    if n == 0 then w else Turn(Turns(w, count, n - 1), count)
  }

  /** After `n` turns every hull has moved `n` times its speed; tracks and turrets are unchanged. */
  lemma {:induction false} TurnsClosedForm<T>(w: Tanks<T>, count: nat, n: nat)
    requires w.Valid(count)
    ensures var r := Turns(w, count, n);
      && r.turrets == w.turrets && r.trackLefts == w.trackLefts && r.trackRights == w.trackRights
      && forall e :: 0 <= e < count ==> r.hulls[e] == w.hulls[e] + n * w.Speed(e)
  {
    if n > 0 {
      TurnsClosedForm(w, count, n - 1);
      TurnStep(w, Turns(w, count, n - 1), count, n);
    }
  }

  /** The `n`-th turn on a store where the hulls have made `n - 1` moves makes it `n`. */
  lemma TurnStep<T>(w: Tanks<T>, prev: Tanks<T>, count: nat, n: nat)
    requires w.Valid(count) && prev.Valid(count) && n > 0
    requires prev.turrets == w.turrets && prev.trackLefts == w.trackLefts && prev.trackRights == w.trackRights
    requires forall e :: 0 <= e < count ==> prev.hulls[e] == w.hulls[e] + (n - 1) * w.Speed(e)
    ensures var r := Turn(prev, count);
      && r.turrets == w.turrets && r.trackLefts == w.trackLefts && r.trackRights == w.trackRights
      && forall e :: 0 <= e < count ==> r.hulls[e] == w.hulls[e] + n * w.Speed(e)
  {
    forall e | 0 <= e < count
      ensures Turn(prev, count).hulls[e] == w.hulls[e] + n * w.Speed(e)
    {
      assert prev.Speed(e) == w.Speed(e);
      assert n * w.Speed(e) == (n - 1) * w.Speed(e) + w.Speed(e);
    }
  }

  /**
   From the populated arrays, after `n` turns hull `e` stands at `n` times its
   speed, a speed between 0 and `2 * (SPEED_MAX - 1)`, so no hull ever moves
   back.
   */
  lemma PopulatedRun<T>(w: Tanks<T>, count: nat, e: nat, n: nat, m: nat)
    requires w.Valid(count) && e < count && n <= m
    requires forall i :: 0 <= i < count ==> w.hulls[i] == 0
    requires forall i :: 0 <= i < count ==> 0 <= w.trackLefts[i] < SPEED_MAX && 0 <= w.trackRights[i] < SPEED_MAX
    ensures Turns(w, count, n).hulls[e] == n * w.Speed(e)
    ensures 0 <= w.Speed(e) <= 2 * (SPEED_MAX - 1)
    ensures 0 <= Turns(w, count, n).hulls[e] <= Turns(w, count, m).hulls[e]
    ensures Turns(w, count, n).hulls[e] <= n * (2 * (SPEED_MAX - 1))
  {
    TurnsClosedForm(w, count, n);
    TurnsClosedForm(w, count, m);
    assert n * w.Speed(e) <= m * w.Speed(e) by {
      assert (m - n) * w.Speed(e) >= 0;
    }
    assert n * w.Speed(e) <= n * (2 * (SPEED_MAX - 1)) by {
      assert n * (2 * (SPEED_MAX - 1) - w.Speed(e)) >= 0;
    }
  }

  /** The shipped stages: twelve tanks in part1.js, three in part2.js, each starting at 0 and only moving forward. */
  method ShippedTurns<T>(rand: nat -> Fraction, n: nat) returns (first: Tanks<T>, second: Tanks<T>)
    ensures first.Valid(PART1_ENTITIES_COUNT) && second.Valid(PART2_ENTITIES_COUNT)
    ensures forall e :: 0 <= e < PART1_ENTITIES_COUNT ==>
      var r := Turns(first, PART1_ENTITIES_COUNT, n);
      r.hulls[e] == n * first.Speed(e) && 0 <= r.hulls[e] <= n * (2 * (SPEED_MAX - 1))
    ensures forall e :: 0 <= e < PART2_ENTITIES_COUNT ==>
      var r := Turns(second, PART2_ENTITIES_COUNT, n);
      r.hulls[e] == n * second.Speed(e) && 0 <= r.hulls[e] <= n * (2 * (SPEED_MAX - 1))
  {
    first := PopulateTanks(PART1_ENTITIES_COUNT, rand);
    second := PopulateTanks(PART2_ENTITIES_COUNT, rand);
    forall e | 0 <= e < PART1_ENTITIES_COUNT
      ensures var r := Turns(first, PART1_ENTITIES_COUNT, n);
        r.hulls[e] == n * first.Speed(e) && 0 <= r.hulls[e] <= n * (2 * (SPEED_MAX - 1))
    {
      PopulatedRun(first, PART1_ENTITIES_COUNT, e, n, n);
    }
    forall e | 0 <= e < PART2_ENTITIES_COUNT
      ensures var r := Turns(second, PART2_ENTITIES_COUNT, n);
        r.hulls[e] == n * second.Speed(e) && 0 <= r.hulls[e] <= n * (2 * (SPEED_MAX - 1))
    {
      PopulatedRun(second, PART2_ENTITIES_COUNT, e, n, n);
    }
  }
}
