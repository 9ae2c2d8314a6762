/** The value types of the telemetry SDK (`scs_value_t` and its payloads).

    Single- and double-precision numbers are modelled as mathematical reals:
    the engine only copies them and scales angles by 360, so nothing here
    depends on floating-point rounding. */
module Values {

  import opened Unsigned64

  datatype Option<+T> = None | Some(value: T) {

    predicate IsFailure() {
      None?
    }

    function PropagateFailure<U>(): Option<U>
      requires None?
    {
      None
    }

    function Extract(): T
      requires Some?
    {
      value
    }
  }

  /** `float` and `double` (see the module comment). */
  type Float = real
  type Double = real

  type U32 = x: int | 0 <= x < 0x1_0000_0000

  /** `scs_s32_t`. */
  type S32 = x: int | -0x8000_0000 <= x < 0x8000_0000

  /** Conversion of an angle from turns (the SDK's euler unit, a fraction of
      a full circle) to degrees: `angle * 360.0f`. */
  function Scale360(turns: Float): (degrees: Float)
    ensures -0.5 <= turns < 0.5 ==> -180.0 <= degrees < 180.0
  {
    turns * 360.0
  }

  /** `scs_value_euler_t`, angles in turns. */
  datatype Euler = Euler(heading: Float, pitch: Float, roll: Float)

  /** `scs_value_fvector_t`. */
  datatype FVector = FVector(x: Float, y: Float, z: Float)

  /** `scs_value_dvector_t`. */
  datatype DVector = DVector(x: Double, y: Double, z: Double)

  /** `scs_value_fplacement_t`. */
  datatype FPlacement = FPlacement(fPosition: FVector, fOrientation: Euler)

  /** `scs_value_dplacement_t`. */
  datatype DPlacement = DPlacement(position: DVector, orientation: Euler)

  /** `scs_value_t`: a tagged union over the SDK's value types. A channel
      callback receives `Option<Value>`, `None` standing for the null
      value pointer that the host passes when a channel has no value. */
  datatype Value =
    | Invalid
    | BoolValue(b: bool)
    | S32Value(s32: S32)
    | U32Value(u32: U32)
    | U64Value(u64: U64)
    | FloatValue(f: Float)
    | DoubleValue(d: Double)
    | FVectorValue(fvector: FVector)
    | DVectorValue(dvector: DVector)
    | EulerValue(euler: Euler)
    | FPlacementValue(fplacement: FPlacement)
    | DPlacementValue(dplacement: DPlacement)
    | StringValue(s: string)

  const ZERO_FVECTOR: FVector := FVector(0.0, 0.0, 0.0)
  const ZERO_DPLACEMENT: DPlacement := DPlacement(DVector(0.0, 0.0, 0.0), Euler(0.0, 0.0, 0.0))
}
