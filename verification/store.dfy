/**
 The component store of the most complete ECS stage: one dense array per
 component kind, each `ENTITIES_COUNT` long, indexed by entity.

 Entities are indices. The first `TANKS_COUNT` indices are tanks; index
 `TANKS_COUNT + k` is the bullet slot of tank `k`. The source keeps a list of
 (init, prototype, array) triples indexed by the `COMPONENT` table; here each
 kind has its own typed column of `World`, and `TypeOf` records which record
 type the `componentTypesByIndex` list gives each kind (the two track kinds
 share a type but have separate columns).
 */
module Store {
  import opened Common
  import opened Components

  const TANKS_COUNT: nat := 4
  const BULLETS_COUNT: nat := TANKS_COUNT
  const ENTITIES_COUNT: nat := TANKS_COUNT + BULLETS_COUNT

  /** The `COMPONENT` table; the declaration order is the index order. */
  datatype Kind = TRANSFORM | MOTION | TURRET | TRACK_LEFT | TRACK_RIGHT | HULL | PAYLOAD

  /** Every kind, listed by its index in the component list. */
  const COMPONENTS: seq<Kind> := [TRANSFORM, MOTION, TURRET, TRACK_LEFT, TRACK_RIGHT, HULL, PAYLOAD]

  function Index(k: Kind): nat
  {
    match k
    case TRANSFORM => 0
    case MOTION => 1
    case TURRET => 2
    case TRACK_LEFT => 3
    case TRACK_RIGHT => 4
    case HULL => 5
    case PAYLOAD => 6
  }

  /** The record types of `componentTypesByIndex`. */
  datatype ComponentType = TransformType | MotionType | TurretType | TrackType | HullType | PayloadType

  const ComponentTypesByIndex: seq<ComponentType> :=
    [TransformType, MotionType, TurretType, TrackType, TrackType, HullType, PayloadType]

  /** The record type stored in the column of kind `k`. */
  function TypeOf(k: Kind): ComponentType
  {
    match k
    case TRANSFORM => TransformType
    case MOTION => MotionType
    case TURRET => TurretType
    case TRACK_LEFT | TRACK_RIGHT => TrackType
    case HULL => HullType
    case PAYLOAD => PayloadType
  }

  /**
   The component list has one entry per kind, in `COMPONENT` order, and each
   column stores the type that `componentTypesByIndex` lists at its index.
   */
  lemma ComponentTable()
    ensures |COMPONENTS| == |ComponentTypesByIndex|
    ensures forall k :: Index(k) < |COMPONENTS| && COMPONENTS[Index(k)] == k
    ensures forall i :: 0 <= i < |COMPONENTS| ==> Index(COMPONENTS[i]) == i
    ensures forall k :: TypeOf(k) == ComponentTypesByIndex[Index(k)]
    ensures TypeOf(TRACK_LEFT) == TypeOf(TRACK_RIGHT) && Index(TRACK_LEFT) != Index(TRACK_RIGHT)
  {
  }

  /** Errors the runtime raises; in the source each is a TypeError thrown by a property access on `undefined`. */
  datatype Failure =
    | MissingRawData(entity: nat)
    | UnknownArcheType(entity: nat)
    | BulletSlotOutOfRange(entity: nat)

  datatype Result<+T> = Ok(value: T) | Err(failure: Failure)

  /** The whole component store. */
  datatype World = World(transforms: seq<Transform>, motions: seq<Motion>, turrets: seq<Turret>,
                         trackLefts: seq<Track>, trackRights: seq<Track>,
                         hulls: seq<Hull>, payloads: seq<Payload>)
  {
    /** The length of the array of kind `k`. */
    function Length(k: Kind): nat
    {
      match k
      case TRANSFORM => |transforms|
      case MOTION => |motions|
      case TURRET => |turrets|
      case TRACK_LEFT => |trackLefts|
      case TRACK_RIGHT => |trackRights|
      case HULL => |hulls|
      case PAYLOAD => |payloads|
    }

    /** Every array has exactly one slot per entity. */
    predicate Valid()
    {
      && |transforms| == ENTITIES_COUNT && |motions| == ENTITIES_COUNT
      && |turrets| == ENTITIES_COUNT && |trackLefts| == ENTITIES_COUNT
      && |trackRights| == ENTITIES_COUNT && |hulls| == ENTITIES_COUNT
      && |payloads| == ENTITIES_COUNT
    }

    /** `componentsByIndex[k].array[e].isActive`. */
    predicate IsActive(k: Kind, e: nat)
    {
      match k
      case TRANSFORM => e < |transforms| && transforms[e].isActive
      case MOTION => e < |motions| && motions[e].isActive
      case TURRET => e < |turrets| && turrets[e].isActive
      case TRACK_LEFT => e < |trackLefts| && trackLefts[e].isActive
      case TRACK_RIGHT => e < |trackRights| && trackRights[e].isActive
      case HULL => e < |hulls| && hulls[e].isActive
      case PAYLOAD => e < |payloads| && payloads[e].isActive
    }

    /** Slot `e` of kind `k` exists and still equals its kind's prototype. */
    predicate IsPrototype(k: Kind, e: nat)
    {
      match k
      case TRANSFORM => e < |transforms| && transforms[e] == TransformPrototype
      case MOTION => e < |motions| && motions[e] == MotionPrototype
      case TURRET => e < |turrets| && turrets[e] == TurretPrototype
      case TRACK_LEFT => e < |trackLefts| && trackLefts[e] == TrackPrototype
      case TRACK_RIGHT => e < |trackRights| && trackRights[e] == TrackPrototype
      case HULL => e < |hulls| && hulls[e] == HullPrototype
      case PAYLOAD => e < |payloads| && payloads[e] == PayloadPrototype
    }

    /** A clone of kind `k`'s prototype written into the next unfilled slot of its array. */
    function AppendPrototype(k: Kind): World
    {
      match k
      case TRANSFORM => this.(transforms := transforms + [TransformPrototype])
      case MOTION => this.(motions := motions + [MotionPrototype])
      case TURRET => this.(turrets := turrets + [TurretPrototype])
      case TRACK_LEFT => this.(trackLefts := trackLefts + [TrackPrototype])
      case TRACK_RIGHT => this.(trackRights := trackRights + [TrackPrototype])
      case HULL => this.(hulls := hulls + [HullPrototype])
      case PAYLOAD => this.(payloads := payloads + [PayloadPrototype])
    }
  }

  /** Slot `(k, e)` is the same in `w` and `w'`. */
  predicate SlotUnchanged(w: World, w': World, k: Kind, e: nat)
    requires w.Valid() && w'.Valid() && e < ENTITIES_COUNT
  {
    match k
    case TRANSFORM => w'.transforms[e] == w.transforms[e]
    case MOTION => w'.motions[e] == w.motions[e]
    case TURRET => w'.turrets[e] == w.turrets[e]
    case TRACK_LEFT => w'.trackLefts[e] == w.trackLefts[e]
    case TRACK_RIGHT => w'.trackRights[e] == w.trackRights[e]
    case HULL => w'.hulls[e] == w.hulls[e]
    case PAYLOAD => w'.payloads[e] == w.payloads[e]
  }

  lemma ValidLength(w: World, k: Kind)
    requires w.Valid()
    ensures w.Length(k) == ENTITIES_COUNT
  {
  }

  /** Appending a prototype grows one array by one prototype slot and leaves the others alone. */
  lemma AppendPrototypeFacts(w: World, k: Kind)
    ensures w.AppendPrototype(k).Length(k) == w.Length(k) + 1
    ensures forall k' :: k' != k ==> w.AppendPrototype(k).Length(k') == w.Length(k')
    ensures forall k', e :: 0 <= e < w.Length(k') && w.IsPrototype(k', e) ==> w.AppendPrototype(k).IsPrototype(k', e)
    ensures w.AppendPrototype(k).IsPrototype(k, w.Length(k))
  {
    var r := w.AppendPrototype(k);
    forall k', e | 0 <= e < w.Length(k') && w.IsPrototype(k', e)
      ensures r.IsPrototype(k', e)
    {
      match k'
      case TRANSFORM =>
      case MOTION =>
      case TURRET =>
      case TRACK_LEFT =>
      case TRACK_RIGHT =>
      case HULL =>
      case PAYLOAD =>
    }
  }

  /** Two valid stores that agree on every slot are equal. */
  lemma SlotwiseEqual(w: World, w': World)
    requires w.Valid() && w'.Valid()
    requires forall k, e :: 0 <= e < ENTITIES_COUNT ==> SlotUnchanged(w, w', k, e)
    ensures w == w'
  {
    forall e | 0 <= e < ENTITIES_COUNT
      ensures w.transforms[e] == w'.transforms[e] && w.motions[e] == w'.motions[e]
      ensures w.turrets[e] == w'.turrets[e] && w.trackLefts[e] == w'.trackLefts[e]
      ensures w.trackRights[e] == w'.trackRights[e] && w.hulls[e] == w'.hulls[e]
      ensures w.payloads[e] == w'.payloads[e]
    {
      assert SlotUnchanged(w, w', TRANSFORM, e) && SlotUnchanged(w, w', MOTION, e) && SlotUnchanged(w, w', TURRET, e);
      assert SlotUnchanged(w, w', TRACK_LEFT, e) && SlotUnchanged(w, w', TRACK_RIGHT, e);
      assert SlotUnchanged(w, w', HULL, e) && SlotUnchanged(w, w', PAYLOAD, e);
    }
  }

  /** The store in which every slot of every array is its kind's prototype. */
  function PrototypeWorld(): (w: World)
    ensures w.Valid()
  {
    World(seq(ENTITIES_COUNT, _ => TransformPrototype), seq(ENTITIES_COUNT, _ => MotionPrototype),
          seq(ENTITIES_COUNT, _ => TurretPrototype), seq(ENTITIES_COUNT, _ => TrackPrototype),
          seq(ENTITIES_COUNT, _ => TrackPrototype), seq(ENTITIES_COUNT, _ => HullPrototype),
          seq(ENTITIES_COUNT, _ => PayloadPrototype))
  }

  /** The all-prototype store is valid and has no active component. */
  lemma PrototypeWorldFacts()
    ensures PrototypeWorld().Valid()
    ensures forall k, e :: 0 <= e < ENTITIES_COUNT ==> PrototypeWorld().IsPrototype(k, e) && !PrototypeWorld().IsActive(k, e)
  {
    var p := PrototypeWorld();
    forall k, e | 0 <= e < ENTITIES_COUNT
      ensures p.IsPrototype(k, e) && !p.IsActive(k, e)
    {
      match k
      case TRANSFORM =>
      case MOTION =>
      case TURRET =>
      case TRACK_LEFT =>
      case TRACK_RIGHT =>
      case HULL =>
      case PAYLOAD =>
    }
  }

  /**
   `populateComponentArrays`: for each component in list order, every entity's
   slot receives a clone of the prototype. Afterwards each array is
   `ENTITIES_COUNT` long and no component of any entity is active.
   */
  method PopulateComponentArrays() returns (w: World)
    ensures w.Valid()
    ensures forall k, e :: 0 <= e < ENTITIES_COUNT ==> w.IsPrototype(k, e) && !w.IsActive(k, e)
    ensures w == PrototypeWorld()
  {
    ComponentTable();
    w := World([], [], [], [], [], [], []);
    for c := 0 to |COMPONENTS|
      invariant forall k :: w.Length(k) == if Index(k) < c then ENTITIES_COUNT else 0
      invariant forall k, e :: 0 <= e < w.Length(k) ==> w.IsPrototype(k, e)
    {
      w := FillColumn(w, c);
    }
    forall k
      ensures w.Length(k) == ENTITIES_COUNT
    {
    }
    assert w.Valid() by {
      assert w.Length(TRANSFORM) == ENTITIES_COUNT && w.Length(MOTION) == ENTITIES_COUNT;
      assert w.Length(TURRET) == ENTITIES_COUNT && w.Length(TRACK_LEFT) == ENTITIES_COUNT;
      assert w.Length(TRACK_RIGHT) == ENTITIES_COUNT && w.Length(HULL) == ENTITIES_COUNT;
      assert w.Length(PAYLOAD) == ENTITIES_COUNT;
    }
    PrototypeColumns(w);
  }

  /** The inner loop for component `c`: its array receives `ENTITIES_COUNT` prototypes, the others are untouched. */
  method FillColumn(w: World, c: nat) returns (r: World)
    requires c < |COMPONENTS|
    requires forall k :: w.Length(k) == if Index(k) < c then ENTITIES_COUNT else 0
    requires forall k, e :: 0 <= e < w.Length(k) ==> w.IsPrototype(k, e)
    ensures forall k :: r.Length(k) == if Index(k) <= c then ENTITIES_COUNT else 0
    ensures forall k, e :: 0 <= e < r.Length(k) ==> r.IsPrototype(k, e)
  {
    ComponentTable();
    var k := COMPONENTS[c];
    r := w;
    for e := 0 to ENTITIES_COUNT
      invariant forall k' :: r.Length(k') == if Index(k') < c then ENTITIES_COUNT else if k' == k then e else 0
      invariant forall k', e' :: 0 <= e' < r.Length(k') ==> r.IsPrototype(k', e')
    {
      AppendPrototypeFacts(r, k);
      r := r.AppendPrototype(k);
    }
  }

  /** A valid store whose every slot is its prototype is `PrototypeWorld()`. */
  lemma PrototypeColumns(w: World)
    requires w.Valid()
    requires forall k, e :: 0 <= e < w.Length(k) ==> w.IsPrototype(k, e)
    ensures w == PrototypeWorld()
    ensures forall k, e :: 0 <= e < ENTITIES_COUNT ==> w.IsPrototype(k, e) && !w.IsActive(k, e)
  {
    var p := PrototypeWorld();
    forall e | 0 <= e < ENTITIES_COUNT
      ensures w.transforms[e] == p.transforms[e] && w.motions[e] == p.motions[e]
      ensures w.turrets[e] == p.turrets[e] && w.trackLefts[e] == p.trackLefts[e]
      ensures w.trackRights[e] == p.trackRights[e] && w.hulls[e] == p.hulls[e]
      ensures w.payloads[e] == p.payloads[e]
    {
      assert w.IsPrototype(TRANSFORM, e) && w.IsPrototype(MOTION, e) && w.IsPrototype(TURRET, e);
      assert w.IsPrototype(TRACK_LEFT, e) && w.IsPrototype(TRACK_RIGHT, e);
      assert w.IsPrototype(HULL, e) && w.IsPrototype(PAYLOAD, e);
    }
    assert w.transforms == p.transforms && w.motions == p.motions && w.turrets == p.turrets;
    assert w.trackLefts == p.trackLefts && w.trackRights == p.trackRights;
    assert w.hulls == p.hulls && w.payloads == p.payloads;
  }
}
