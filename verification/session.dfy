/** The plugin's global state and the events that only touch its flags:
    session initialisation, pause/start and configuration. */
module Session {

  import opened Unsigned64
  import opened TelemetryState
  import opened Sink

  /** `telemetry`, `last_timestamp`, `output_paused` and `print_header`. */
  datatype Engine = Engine(
    telemetry: Telemetry,
    lastTimestamp: U64,
    outputPaused: bool,
    printHeader: bool
  )

  /** The tail of `scs_telemetry_init` once the log is open and the
      callbacks are registered: the record is zeroed, a header is owed, no
      frame has been seen and output starts paused. */
  function Init(): (e: Engine)
    ensures forall f :: IsZero(Get(e.telemetry, f))
    ensures e.printHeader
    ensures e.lastTimestamp == SENTINEL
    ensures e.outputPaused
  {
    Engine(Zero(), SENTINEL, true, true)
  }

  /** The two events routed to `telemetry_pause`. */
  datatype GateEvent = Paused | Started

  /** `telemetry_pause`: output is paused exactly when the event is the
      pause event, a header is owed after every such event (whether or not
      the paused state changed), and one status line is logged. */
  function Pause(e: Engine, event: GateEvent): (r: (Engine, seq<Output>))
    ensures r.0.outputPaused <==> event == Paused
    ensures r.0.printHeader
    ensures r.0.telemetry == e.telemetry && r.0.lastTimestamp == e.lastTimestamp
    ensures r.1 == [LogNote(if event == Paused then TelemetryPaused else TelemetryUnpaused)]
  {
    var paused := event == Paused;
    (e.(outputPaused := paused, printHeader := true),
     [LogNote(if paused then TelemetryPaused else TelemetryUnpaused)])
  }

  /** `telemetry_configuration`: the attributes are listed in the log and a
      header is owed; nothing else changes. */
  function Configuration(e: Engine, id: string): (r: (Engine, seq<Output>))
    ensures r.0.printHeader
    ensures r.0.telemetry == e.telemetry && r.0.lastTimestamp == e.lastTimestamp
    ensures r.0.outputPaused == e.outputPaused
    ensures r.1 == [ConfigurationListing(id)]
  {
    (e.(printHeader := true), [ConfigurationListing(id)])
  }

  /** A gate event's effect on the engine depends only on the event:
      repeating an event changes nothing, and of two events the later one
      wins. */
  lemma PauseForgetsFlags(e: Engine, event: GateEvent)
    ensures Pause(Pause(e, event).0, event).0 == Pause(e, event).0
    ensures Pause(Pause(e, Started).0, Paused).0 == Pause(e, Paused).0
    ensures Pause(Pause(e, Paused).0, Started).0 == Pause(e, Started).0
  {
  }
}
