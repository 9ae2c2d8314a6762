/** The channel callbacks (`telemetry_store_*`): each one writes the value
    the host delivers into the member of the record it was registered for.

    The host passes the callback a context pointer fixed at registration;
    here that pointer is the `target` argument, limited to the members the
    plugin actually registers the callback for. A null value pointer is
    `None`. The `assert`s on the value pointer and on the value's type tag
    become preconditions: they are the host's side of the contract. */
module Channels {

  import opened Values
  import opened TelemetryState

  /** The `float` members the float callback is registered for. */
  datatype FloatTarget = SpeedTarget | RpmTarget

  /** The `bool` members the bool callback is registered for. */
  datatype BoolTarget = EngineRunningTarget | TrailerConnectedTarget | ParkingBrakeTarget

  function FloatField(target: FloatTarget): Field
  {
    match target
    case SpeedTarget => Speed
    case RpmTarget => Rpm
  }

  function BoolField(target: BoolTarget): Field
  {
    match target
    case EngineRunningTarget => EngineRunning
    case TrailerConnectedTarget => TrailerConnected
    case ParkingBrakeTarget => ParkingBrake
  }

  /** World orientation, registered with the "no value" flag: a missing
      value only clears the availability flag, leaving the last angles in
      place; a present value sets the flag and stores the angles in
      degrees. */
  function StoreOrientation(t: Telemetry, value: Option<Value>): (r: Telemetry)
    requires value.Some? ==> value.value.EulerValue?
    ensures value.None? ==> !r.orientationAvailable && AgreeExcept(t, r, {OrientationAvailable})
    ensures value.Some? ==>
      && r.orientationAvailable
      && r.heading == Scale360(value.value.euler.heading)
      && r.pitch == Scale360(value.value.euler.pitch)
      && r.roll == Scale360(value.value.euler.roll)
      && AgreeExcept(t, r, {OrientationAvailable, Heading, Pitch, Roll})
  {
    match value
    case None => t.(orientationAvailable := false)
    case Some(v) =>
      t.(orientationAvailable := true,
         heading := Scale360(v.euler.heading),
         pitch := Scale360(v.euler.pitch),
         roll := Scale360(v.euler.roll))
  }

  /** A `float` channel (speed, engine rpm); only ever called with a value. */
  function StoreFloat(t: Telemetry, target: FloatTarget, value: Option<Value>): (r: Telemetry)
    requires value.Some? && value.value.FloatValue?
    ensures Get(r, FloatField(target)) == Scalar(value.value.f)
    ensures AgreeExcept(t, r, {FloatField(target)})
  {
    match target
    case SpeedTarget => t.(speed := value.value.f)
    case RpmTarget => t.(rpm := value.value.f)
  }

  /** The `s32` channel (engine gear); only ever called with a value. */
  function StoreS32(t: Telemetry, value: Option<Value>): (r: Telemetry)
    requires value.Some? && value.value.S32Value?
    ensures Get(r, Gear) == Int(value.value.s32)
    ensures AgreeExcept(t, r, {Gear})
  {
    t.(gear := value.value.s32)
  }

  /** A `bool` channel (engine enabled, trailer connected, parking brake);
      only ever called with a value. */
  function StoreBool(t: Telemetry, target: BoolTarget, value: Option<Value>): (r: Telemetry)
    requires value.Some? && value.value.BoolValue?
    ensures Get(r, BoolField(target)) == Flag(value.value.b)
    ensures AgreeExcept(t, r, {BoolField(target)})
  {
    match target
    case EngineRunningTarget => t.(engineRunning := value.value.b)
    case TrailerConnectedTarget => t.(trailerConnected := value.value.b)
    case ParkingBrakeTarget => t.(parkingBrake := value.value.b)
  }

  /** The `dplacement` channel (world placement); only ever called with a
      value, copied whole, orientation still in turns. */
  function StoreDPlacement(t: Telemetry, value: Option<Value>): (r: Telemetry)
    requires value.Some? && value.value.DPlacementValue?
    ensures Get(r, Placement) == Pose(value.value.dplacement)
    ensures AgreeExcept(t, r, {Placement})
  {
    t.(placement := value.value.dplacement)
  }

  /** The `fvector` channel (local linear acceleration): a missing value
      resets the vector to zero, a present one is copied verbatim. */
  function StoreFVector(t: Telemetry, value: Option<Value>): (r: Telemetry)
    requires value.Some? ==> value.value.FVectorValue?
    ensures value.None? ==> r.acc == ZERO_FVECTOR
    ensures value.Some? ==> r.acc == value.value.fvector
    ensures AgreeExcept(t, r, {Acc})
  {
    match value
    case None => t.(acc := ZERO_FVECTOR)
    case Some(v) => t.(acc := v.fvector)
  }

  /** One channel callback invocation, as the host delivers it. */
  datatype Update =
    | OrientationUpdate(value: Option<Value>)
    | FloatUpdate(floatTarget: FloatTarget, value: Option<Value>)
    | S32Update(value: Option<Value>)
    | BoolUpdate(boolTarget: BoolTarget, value: Option<Value>)
    | DPlacementUpdate(value: Option<Value>)
    | FVectorUpdate(value: Option<Value>)

  /** The host's delivery contract: the value has the type the channel was
      registered with. Only the orientation channel is registered with
      `SCS_TELEMETRY_CHANNEL_FLAG_no_value`, so only it can report "no value";
      the fvector handler also tolerates a missing value (it zeroes the
      acceleration), so a `None` there is admitted although the host does
      not send one. */
  predicate Deliverable(u: Update)
  {
    match u
    case OrientationUpdate(v) => v.Some? ==> v.value.EulerValue?
    case FloatUpdate(_, v) => v.Some? && v.value.FloatValue?
    case S32Update(v) => v.Some? && v.value.S32Value?
    case BoolUpdate(_, v) => v.Some? && v.value.BoolValue?
    case DPlacementUpdate(v) => v.Some? && v.value.DPlacementValue?
    case FVectorUpdate(v) => v.Some? ==> v.value.FVectorValue?
  }

  /** The members an update writes. */
  function Writes(u: Update): set<Field>
  {
    match u
    case OrientationUpdate(v) =>
      if v.None? then {OrientationAvailable} else {OrientationAvailable, Heading, Pitch, Roll}
    case FloatUpdate(target, _) => {FloatField(target)}
    case S32Update(_) => {Gear}
    case BoolUpdate(target, _) => {BoolField(target)}
    case DPlacementUpdate(_) => {Placement}
    case FVectorUpdate(_) => {Acc}
  }

  /** Dispatch of an update to its callback. */
  function Apply(t: Telemetry, u: Update): (r: Telemetry)
    requires Deliverable(u)
    ensures AgreeExcept(t, r, Writes(u))
    ensures Timestamp !in Writes(u) && RawPausedSimulationTimestamp !in Writes(u)
  {
    match u
    case OrientationUpdate(v) => StoreOrientation(t, v)
    case FloatUpdate(target, v) => StoreFloat(t, target, v)
    case S32Update(v) => StoreS32(t, v)
    case BoolUpdate(target, v) => StoreBool(t, target, v)
    case DPlacementUpdate(v) => StoreDPlacement(t, v)
    case FVectorUpdate(v) => StoreFVector(t, v)
  }

  /** What an update writes depends only on the update, not on the record
      it is applied to. */
  lemma WrittenValuesIndependent(t: Telemetry, t': Telemetry, u: Update, f: Field)
    requires Deliverable(u)
    requires f in Writes(u)
    ensures Get(Apply(t, u), f) == Get(Apply(t', u), f)
  {
    match u
    case OrientationUpdate(_) =>
    case FloatUpdate(_, _) =>
    case S32Update(_) =>
    case BoolUpdate(_, _) =>
    case DPlacementUpdate(_) =>
    case FVectorUpdate(_) =>
  }

  /** Updates of different members commute, so the snapshot a frame sees
      does not depend on the order in which the host delivered them. */
  lemma UpdatesCommute(t: Telemetry, u1: Update, u2: Update)
    requires Deliverable(u1) && Deliverable(u2)
    requires Writes(u1) !! Writes(u2)
    ensures Apply(Apply(t, u1), u2) == Apply(Apply(t, u2), u1)
  {
    var a := Apply(Apply(t, u1), u2);
    var b := Apply(Apply(t, u2), u1);
    forall f
      ensures Get(a, f) == Get(b, f)
    {
      if f in Writes(u1) {
        WrittenValuesIndependent(t, Apply(t, u2), u1, f);
      } else if f in Writes(u2) {
        WrittenValuesIndependent(t, Apply(t, u1), u2, f);
      }
    }
    Extensionality(a, b);
  }

  /** A later update that writes every member an earlier one wrote hides
      the earlier one completely. The converse fails for orientation: a
      "no value" after a value keeps the old angles. */
  lemma LaterUpdateOverrides(t: Telemetry, u1: Update, u2: Update)
    requires Deliverable(u1) && Deliverable(u2)
    requires Writes(u1) <= Writes(u2)
    ensures Apply(Apply(t, u1), u2) == Apply(t, u2)
  {
    var a := Apply(Apply(t, u1), u2);
    var b := Apply(t, u2);
    forall f
      ensures Get(a, f) == Get(b, f)
    {
      if f in Writes(u2) {
        WrittenValuesIndependent(Apply(t, u1), t, u2, f);
      }
    }
    Extensionality(a, b);
  }
}
