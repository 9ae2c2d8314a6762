/** The combined telemetry record (`telemetry_state_t`), viewed both as a
    datatype and as a finite map from field names to values, so that
    "this operation writes exactly these fields" can be stated once. */
module TelemetryState {

  import opened Unsigned64
  import opened Values

  /** One snapshot of everything the plugin tracks. The angles `heading`,
      `pitch` and `roll` are kept in degrees (converted when stored); the
      placement orientation is kept in turns, as the host delivers it. */
  datatype Telemetry = Telemetry(
    timestamp: U64,
    rawRenderingTimestamp: U64,
    rawSimulationTimestamp: U64,
    rawPausedSimulationTimestamp: U64,
    orientationAvailable: bool,
    heading: Float,
    pitch: Float,
    roll: Float,
    speed: Float,
    acc: FVector,
    rpm: Float,
    gear: S32,
    engineRunning: bool,
    trailerConnected: bool,
    placement: DPlacement,
    parkingBrake: bool
  )

  /** The names of the record's members, in declaration order. */
  datatype Field =
    | Timestamp
    | RawRenderingTimestamp
    | RawSimulationTimestamp
    | RawPausedSimulationTimestamp
    | OrientationAvailable
    | Heading
    | Pitch
    | Roll
    | Speed
    | Acc
    | Rpm
    | Gear
    | EngineRunning
    | TrailerConnected
    | Placement
    | ParkingBrake

  /** The content of one member, tagged by its C type. */
  datatype FieldValue =
    | Clock(u: U64)
    | Flag(b: bool)
    | Scalar(x: real)
    | Int(i: int)
    | Vector(v: FVector)
    | Pose(p: DPlacement)

  function Get(t: Telemetry, f: Field): FieldValue
  {
    match f
    case Timestamp => Clock(t.timestamp)
    case RawRenderingTimestamp => Clock(t.rawRenderingTimestamp)
    case RawSimulationTimestamp => Clock(t.rawSimulationTimestamp)
    case RawPausedSimulationTimestamp => Clock(t.rawPausedSimulationTimestamp)
    case OrientationAvailable => Flag(t.orientationAvailable)
    case Heading => Scalar(t.heading)
    case Pitch => Scalar(t.pitch)
    case Roll => Scalar(t.roll)
    case Speed => Scalar(t.speed)
    case Acc => Vector(t.acc)
    case Rpm => Scalar(t.rpm)
    case Gear => Int(t.gear)
    case EngineRunning => Flag(t.engineRunning)
    case TrailerConnected => Flag(t.trailerConnected)
    case Placement => Pose(t.placement)
    case ParkingBrake => Flag(t.parkingBrake)
  }

  /** `t` and `t'` differ at most in the members named in `changed`. */
  ghost predicate AgreeExcept(t: Telemetry, t': Telemetry, changed: set<Field>)
  {
    forall f :: f !in changed ==> Get(t, f) == Get(t', f)
  }

  /** A member whose bytes are all zero, as `memset(…, 0, …)` leaves it. */
  predicate IsZero(v: FieldValue)
  {
    match v
    case Clock(u) => u == 0
    case Flag(b) => !b
    case Scalar(x) => x == 0.0
    case Int(i) => i == 0
    case Vector(w) => w == ZERO_FVECTOR
    case Pose(p) => p == ZERO_DPLACEMENT
  }

  /** The record as `memset(&telemetry, 0, sizeof(telemetry))` leaves it. */
  function Zero(): (t: Telemetry)
    ensures forall f :: IsZero(Get(t, f))
  {
    Telemetry(0, 0, 0, 0, false, 0.0, 0.0, 0.0, 0.0, ZERO_FVECTOR, 0.0, 0, false, false, ZERO_DPLACEMENT, false)
  }

  /** The field map determines the record: two records that agree on every
      member are the same record. */
  lemma Extensionality(t: Telemetry, t': Telemetry)
    requires AgreeExcept(t, t', {})
    ensures t == t'
  {
    assert Get(t, Timestamp) == Get(t', Timestamp);
    assert Get(t, RawRenderingTimestamp) == Get(t', RawRenderingTimestamp);
    assert Get(t, RawSimulationTimestamp) == Get(t', RawSimulationTimestamp);
    assert Get(t, RawPausedSimulationTimestamp) == Get(t', RawPausedSimulationTimestamp);
    assert Get(t, OrientationAvailable) == Get(t', OrientationAvailable);
    assert Get(t, Heading) == Get(t', Heading);
    assert Get(t, Pitch) == Get(t', Pitch);
    assert Get(t, Roll) == Get(t', Roll);
    assert Get(t, Speed) == Get(t', Speed);
    assert Get(t, Acc) == Get(t', Acc);
    assert Get(t, Rpm) == Get(t', Rpm);
    assert Get(t, Gear) == Get(t', Gear);
    assert Get(t, EngineRunning) == Get(t', EngineRunning);
    assert Get(t, TrailerConnected) == Get(t', TrailerConnected);
    assert Get(t, Placement) == Get(t', Placement);
    assert Get(t, ParkingBrake) == Get(t', ParkingBrake);
  }

  /** The all-zero record is the only record whose every member is zero. */
  lemma ZeroIsUnique(t: Telemetry)
    requires forall f :: IsZero(Get(t, f))
    ensures t == Zero()
  {
    forall f
      ensures Get(t, f) == Get(Zero(), f)
    {
      assert IsZero(Get(t, f));
    }
    Extensionality(t, Zero());
  }
}
