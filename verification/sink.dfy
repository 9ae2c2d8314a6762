/** What the plugin hands to its two consumers: lines of the log file and
    odometry messages for the publisher.

    A data line is modelled as its sequence of `;`-separated columns, each
    tagged with the `printf` conversion that writes it (`%llu`, `%f`, `%d`
    or the literal `---`); the decimal text of each column is not
    modelled. */
module Sink {

  import opened Unsigned64
  import opened Values
  import opened TelemetryState

  /** The fixed lines the plugin writes to its log. */
  datatype Note = Header | AboutToPublish | AboutToSpin | Spinned | TelemetryPaused | TelemetryUnpaused

  /** The text of each fixed line. */
  function NoteText(n: Note): string
  {
    match n
    case Header =>
      "timestamp[us];raw rendering timestamp[us];raw simulation timestamp[us];raw paused simulation timestamp[us];heading[deg];pitch[deg];roll[deg];speed[m/s];rpm;gear"
    case AboutToPublish => "about to publish"
    case AboutToSpin => "about to spin"
    case Spinned => "spinned"
    case TelemetryPaused => "Telemetry paused"
    case TelemetryUnpaused => "Telemetry unpaused"
  }

  /** One column of a data line. */
  datatype Column =
    | Unsigned(n: int)  // %llu
    | Fixed(x: real)    // %f
    | Signed(i: int)    // %d: the gear, and the engine and trailer flags as 0 or 1
    | Dashes            // the literal ---
    | Unspecified       // a %f handed an int argument: the text is undefined

  /** `%d` applied to a C++ `bool`. */
  function BoolColumn(b: bool): Column
  {
    Signed(if b then 1 else 0)
  }

  /** Everything a data line carries, in the order it carries it. The
      orientation is `None` when the line shows `---;---;---`. */
  datatype RecordView = RecordView(
    timestamp: U64,
    rawRenderingTimestamp: U64,
    rawSimulationTimestamp: U64,
    rawPausedSimulationTimestamp: U64,
    orientation: Option<Euler>,
    speed: Float,
    acc: FVector,
    rpm: Float,
    gear: S32,
    engineRunning: bool,
    trailerConnected: bool,
    placement: DPlacement,
    parkingBrake: bool
  )

  /** The part of a snapshot a data line shows: all of it, except that the
      last-known angles are hidden while orientation is unavailable. */
  function ViewOf(t: Telemetry): RecordView
  {
    RecordView(
      t.timestamp, t.rawRenderingTimestamp, t.rawSimulationTimestamp, t.rawPausedSimulationTimestamp,
      if t.orientationAvailable then Some(Euler(t.heading, t.pitch, t.roll)) else None,
      t.speed, t.acc, t.rpm, t.gear, t.engineRunning, t.trailerConnected, t.placement, t.parkingBrake)
  }

  /** The columns of a data line: everything up to the placement, then the
      parking brake. */
  function Encode(v: RecordView): seq<Column>
  {
    LeadingColumns(v) + [BoolColumn(v.parkingBrake)]
  }

  /** The first 21 columns of a data line, which do not show the parking
      brake. */
  function LeadingColumns(v: RecordView): seq<Column>
  {
    [Unsigned(v.timestamp), Unsigned(v.rawRenderingTimestamp),
     Unsigned(v.rawSimulationTimestamp), Unsigned(v.rawPausedSimulationTimestamp)]
    + (match v.orientation
       case Some(o) => [Fixed(o.heading), Fixed(o.pitch), Fixed(o.roll)]
       case None => [Dashes, Dashes, Dashes])
    + [Fixed(v.speed), Fixed(v.acc.x), Fixed(v.acc.y), Fixed(v.acc.z), Fixed(v.rpm),
       Signed(v.gear), BoolColumn(v.engineRunning), BoolColumn(v.trailerConnected),
       Fixed(v.placement.position.x), Fixed(v.placement.position.y), Fixed(v.placement.position.z),
       Fixed(v.placement.orientation.heading), Fixed(v.placement.orientation.pitch),
       Fixed(v.placement.orientation.roll)]
  }

  function AsU64(c: Column): Option<U64>
  {
    if c.Unsigned? && 0 <= c.n < TWO_64 then Some(c.n) else None
  }

  function AsFixed(c: Column): Option<real>
  {
    if c.Fixed? then Some(c.x) else None
  }

  function AsS32(c: Column): Option<S32>
  {
    if c.Signed? && -0x8000_0000 <= c.i < 0x8000_0000 then Some(c.i) else None
  }

  function AsBool(c: Column): Option<bool>
  {
    if c == Signed(0) then Some(false)
    else if c == Signed(1) then Some(true)
    else None
  }

  /** Three orientation columns: all dashes, or all numbers. */
  function AsOrientation(h: Column, p: Column, r: Column): Option<Option<Euler>>
  {
    if h == Dashes && p == Dashes && r == Dashes then Some(None)
    else if h.Fixed? && p.Fixed? && r.Fixed? then Some(Some(Euler(h.x, p.x, r.x)))
    else None
  }

  /** Reads a data line back; `None` for anything `Encode` cannot produce. */
  function Decode(cols: seq<Column>): Option<RecordView>
  {
    if |cols| != 22 then None
    else
      var timestamp :- AsU64(cols[0]);
      var rawRendering :- AsU64(cols[1]);
      var rawSimulation :- AsU64(cols[2]);
      var rawPaused :- AsU64(cols[3]);
      var orientation :- AsOrientation(cols[4], cols[5], cols[6]);
      var speed :- AsFixed(cols[7]);
      var accX :- AsFixed(cols[8]);
      var accY :- AsFixed(cols[9]);
      var accZ :- AsFixed(cols[10]);
      var rpm :- AsFixed(cols[11]);
      var gear :- AsS32(cols[12]);
      var engineRunning :- AsBool(cols[13]);
      var trailerConnected :- AsBool(cols[14]);
      var posX :- AsFixed(cols[15]);
      var posY :- AsFixed(cols[16]);
      var posZ :- AsFixed(cols[17]);
      var heading :- AsFixed(cols[18]);
      var pitch :- AsFixed(cols[19]);
      var roll :- AsFixed(cols[20]);
      var parkingBrake :- AsBool(cols[21]);
      Some(RecordView(
        timestamp, rawRendering, rawSimulation, rawPaused, orientation,
        speed, FVector(accX, accY, accZ), rpm, gear, engineRunning, trailerConnected,
        DPlacement(DVector(posX, posY, posZ), Euler(heading, pitch, roll)),
        parkingBrake))
  }

  /** Reading a written line gives back exactly what was written. */
  lemma DecodeEncode(v: RecordView)
    ensures Decode(Encode(v)) == Some(v)
  {
  }

  /** Every line `Decode` accepts is the encoding of what it returns, so a
      line and its reading determine each other. */
  lemma EncodeDecode(cols: seq<Column>, v: RecordView)
    requires Decode(cols) == Some(v)
    ensures Encode(v) == cols
  {
  }

  /** The data line written for snapshot `t` (the two `log_print` calls and
      the `log_line` call of one frame-end, together one line), with the
      parking brake written as `%d`, 0 or 1, like the other two flags. The
      format string as written uses `%f` for it instead; see
      `RecordAsWritten`. */
  function Record(t: Telemetry): (cols: seq<Column>)
    ensures |cols| == 22
    ensures forall i :: 4 <= i < 7 ==> (cols[i] == Dashes <==> !t.orientationAvailable)
  {
    Encode(ViewOf(t))
  }

  /** A data line reads back as the snapshot it was written from, angles
      hidden exactly when orientation is unavailable. */
  lemma RecordReadsBack(t: Telemetry)
    ensures Decode(Record(t)) == Some(ViewOf(t))
    ensures Decode(Record(t)).value.orientation.None? <==> !t.orientationAvailable
  {
    DecodeEncode(ViewOf(t));
  }

  /** The data line as the format string actually writes it. Its fifteenth
      conversion after the orientation is `%f`, but the matching argument is
      the `bool` parking brake, promoted to `int`: the last column's text is
      undefined and does not depend on the flag. */
  function RecordAsWritten(t: Telemetry): (cols: seq<Column>)
    ensures |cols| == 22
    ensures forall i :: 0 <= i < 21 ==> cols[i] == Record(t)[i]
    ensures cols[21] == Unspecified
  {
    assert Record(t) == LeadingColumns(ViewOf(t)) + [BoolColumn(t.parkingBrake)];
    LeadingColumns(ViewOf(t)) + [Unspecified]
  }

  /** As written, the data line does not carry the parking brake: two
      snapshots that differ only in the flag give the same line, and the line
      does not read back at all. The intended `%d` line tells them apart. */
  lemma ParkingBrakeLostAsWritten(t: Telemetry)
    ensures RecordAsWritten(t.(parkingBrake := true)) == RecordAsWritten(t.(parkingBrake := false))
    ensures Decode(RecordAsWritten(t)) == None
    ensures Record(t.(parkingBrake := true)) != Record(t.(parkingBrake := false))
  {
    var up, down := t.(parkingBrake := true), t.(parkingBrake := false);
    assert LeadingColumns(ViewOf(up)) == LeadingColumns(ViewOf(down));
    assert Record(up)[21] != Record(down)[21];
    AsWrittenDoesNotReadBack(t);
  }

  /** The undefined last column is not one the reader accepts. */
  lemma AsWrittenDoesNotReadBack(t: Telemetry)
    ensures Decode(RecordAsWritten(t)) == None
  {
    assert AsBool(RecordAsWritten(t)[21]) == None;
  }

  /** The arguments of one `sendOdometry` call, in call order. */
  datatype Odometry = Odometry(
    speed: Float,
    accX: Float,
    accY: Float,
    accZ: Float,
    rpm: Float,
    gear: S32,
    engineRunning: bool,
    trailerConnected: bool,
    posX: Double,
    posY: Double,
    posZ: Double,
    headingDeg: Float,
    pitchDeg: Float,
    rollDeg: Float,
    parkingBrake: bool
  )

  /** The message published for snapshot `t`: the placement orientation is
      converted to degrees here, while the data line keeps it in turns. */
  function OdometryOf(t: Telemetry): (o: Odometry)
    ensures var p := t.placement.orientation;
      && (-0.5 <= p.heading < 0.5 ==> -180.0 <= o.headingDeg < 180.0)
      && (-0.5 <= p.pitch < 0.5 ==> -180.0 <= o.pitchDeg < 180.0)
      && (-0.5 <= p.roll < 0.5 ==> -180.0 <= o.rollDeg < 180.0)
  {
    Odometry(
      t.speed, t.acc.x, t.acc.y, t.acc.z, t.rpm, t.gear, t.engineRunning, t.trailerConnected,
      t.placement.position.x, t.placement.position.y, t.placement.position.z,
      Scale360(t.placement.orientation.heading),
      Scale360(t.placement.orientation.pitch),
      Scale360(t.placement.orientation.roll),
      t.parkingBrake)
  }

  /** The message carries exactly the published members: two snapshots give
      the same message if and only if they agree on speed, acceleration, rpm,
      gear, the three flags and the placement. The clocks and the euler
      channel's angles are never published. */
  lemma OdometryDeterminesPublished(t: Telemetry, t': Telemetry)
    ensures OdometryOf(t) == OdometryOf(t') <==>
      && t.speed == t'.speed && t.acc == t'.acc && t.rpm == t'.rpm && t.gear == t'.gear
      && t.engineRunning == t'.engineRunning && t.trailerConnected == t'.trailerConnected
      && t.placement == t'.placement && t.parkingBrake == t'.parkingBrake
  {
  }

  /** The data line and the published message of one frame agree: every
      published argument is the value in the matching column, except the
      three placement angles, which are published as 360 times the column. */
  lemma RecordAgreesWithOdometry(t: Telemetry)
    ensures var cols, o := Record(t), OdometryOf(t);
      && cols[7] == Fixed(o.speed)
      && cols[8] == Fixed(o.accX) && cols[9] == Fixed(o.accY) && cols[10] == Fixed(o.accZ)
      && cols[11] == Fixed(o.rpm)
      && cols[12] == Signed(o.gear)
      && cols[13] == BoolColumn(o.engineRunning)
      && cols[14] == BoolColumn(o.trailerConnected)
      && cols[15] == Fixed(o.posX) && cols[16] == Fixed(o.posY) && cols[17] == Fixed(o.posZ)
      && cols[18].Fixed? && o.headingDeg == Scale360(cols[18].x)
      && cols[19].Fixed? && o.pitchDeg == Scale360(cols[19].x)
      && cols[20].Fixed? && o.rollDeg == Scale360(cols[20].x)
      && cols[21] == BoolColumn(o.parkingBrake)
  {
  }

  /** One thing written to the log or handed to the publisher. */
  datatype Output =
    | LogNote(note: Note)
    | LogRecord(columns: seq<Column>)
    | ConfigurationListing(id: string)  // the lines describing one configuration event
    | Publish(odometry: Odometry)
    | SpinSome                          // one non-blocking pass of the publisher's executor

  datatype Kind = HeaderKind | RecordKind | PublishKind | SpinKind | OtherKind

  function KindOf(o: Output): Kind
  {
    match o
    case LogNote(n) => if n == Header then HeaderKind else OtherKind
    case LogRecord(_) => RecordKind
    case ConfigurationListing(_) => OtherKind
    case Publish(_) => PublishKind
    case SpinSome => SpinKind
  }

  /** The number of outputs of kind `k`. */
  function Count(outs: seq<Output>, k: Kind): (n: nat)
    ensures n <= |outs|
    ensures n == 0 <==> forall i :: 0 <= i < |outs| ==> KindOf(outs[i]) != k
  {
    if outs == [] then 0
    else (if KindOf(outs[0]) == k then 1 else 0) + Count(outs[1..], k)
  }

  lemma {:induction false} CountAppend(a: seq<Output>, b: seq<Output>, k: Kind)
    ensures Count(a + b, k) == Count(a, k) + Count(b, k)
  {
    if a == [] {
      assert a + b == b;
    } else {
      assert (a + b)[1..] == a[1..] + b;
      CountAppend(a[1..], b, k);
    }
  }
}
