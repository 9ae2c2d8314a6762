/** The plugin as the host drives it: a stream of callbacks, each a pure
    step from one engine state to the next plus what it emits. */
module Host {

  import opened Unsigned64
  import opened Values
  import opened TelemetryState
  import opened Channels
  import opened Sink
  import opened Session
  import opened Timestamps
  import opened Emission

  /** One callback invocation by the host. */
  datatype Event =
    | FrameStartEvent(info: FrameStartInfo)
    | FrameEndEvent
    | GateChange(gate: GateEvent)
    | ConfigurationEvent(id: string)
    | ChannelEvent(update: Update)

  /** An event the host can send: channel updates obey the channel's
      delivery contract; every other event is always possible. */
  predicate EventDeliverable(ev: Event)
  {
    ev.ChannelEvent? ==> Channels.Deliverable(ev.update)
  }

  /** Events that neither move the pause gate nor re-arm the header. */
  predicate Quiet(ev: Event)
  {
    !ev.GateChange? && !ev.ConfigurationEvent?
  }

  /** Dispatch of one callback. */
  function Step(e: Engine, ev: Event): (r: (Engine, seq<Output>))
    requires EventDeliverable(ev)
    ensures !ev.GateChange? ==> r.0.outputPaused == e.outputPaused
    ensures Quiet(ev) && !ev.FrameEndEvent? ==> r.1 == [] && r.0.printHeader == e.printHeader
    ensures !ev.FrameStartEvent? ==> r.0.lastTimestamp == e.lastTimestamp
    ensures ev.ChannelEvent? ==> AgreeExcept(e.telemetry, r.0.telemetry, Writes(ev.update))
  {
    match ev
    case FrameStartEvent(info) => (FrameStart(e, info), [])
    case FrameEndEvent => FrameEnd(e)
    case GateChange(g) => Pause(e, g)
    case ConfigurationEvent(id) => Configuration(e, id)
    case ChannelEvent(u) => (e.(telemetry := Apply(e.telemetry, u)), [])
  }

  /** A whole stream of callbacks, outputs concatenated in order. */
  function Run(e: Engine, evs: seq<Event>): (r: (Engine, seq<Output>))
    requires forall i :: 0 <= i < |evs| ==> EventDeliverable(evs[i])
    decreases |evs|
  {
    if evs == [] then (e, [])
    else
      var first := Step(e, evs[0]);
      var rest := Run(first.0, evs[1..]);
      (rest.0, first.1 + rest.1)
  }

  /** The number of frame-end callbacks in a stream. */
  function FrameEnds(evs: seq<Event>): nat
  {
    if evs == [] then 0 else (if evs[0].FrameEndEvent? then 1 else 0) + FrameEnds(evs[1..])
  }

  /** While output is paused, frame-ends, frame-starts and channel updates
      emit nothing at all: no log line, no publish, no spin. */
  lemma {:induction false} PausedRunIsSilent(e: Engine, evs: seq<Event>)
    requires forall i :: 0 <= i < |evs| ==> EventDeliverable(evs[i]) && Quiet(evs[i])
    requires e.outputPaused
    ensures Run(e, evs).1 == []
    ensures Run(e, evs).0.outputPaused
    ensures Run(e, evs).0.printHeader == e.printHeader
    decreases |evs|
  {
    if evs != [] {
      PausedRunIsSilent(Step(e, evs[0]).0, evs[1..]);
    }
  }

  /** While output is live and nothing re-arms the header, the header is
      written once, at the first frame-end, if it was owed, and never
      again; every frame-end writes one data line, one publish and one
      spin. */
  lemma {:induction false} LiveRunWritesHeaderOnce(e: Engine, evs: seq<Event>)
    requires forall i :: 0 <= i < |evs| ==> EventDeliverable(evs[i]) && Quiet(evs[i])
    requires !e.outputPaused
    ensures Count(Run(e, evs).1, HeaderKind) == (if e.printHeader && FrameEnds(evs) > 0 then 1 else 0)
    ensures Count(Run(e, evs).1, RecordKind) == FrameEnds(evs)
    ensures Count(Run(e, evs).1, PublishKind) == FrameEnds(evs)
    ensures Count(Run(e, evs).1, SpinKind) == FrameEnds(evs)
    ensures Run(e, evs).0.printHeader == (e.printHeader && FrameEnds(evs) == 0)
    ensures !Run(e, evs).0.outputPaused
    decreases |evs|
  {
    if evs != [] {
      var first := Step(e, evs[0]);
      var rest := Run(first.0, evs[1..]);
      QuietStepCounts(e, evs[0]);
      LiveRunWritesHeaderOnce(first.0, evs[1..]);
      assert Run(e, evs).1 == first.1 + rest.1;
      forall k {
        CountAppend(first.1, rest.1, k);
      }
    }
  }

  /** One quiet callback while output is live. */
  lemma QuietStepCounts(e: Engine, ev: Event)
    requires EventDeliverable(ev) && Quiet(ev)
    requires !e.outputPaused
    ensures var live := if ev.FrameEndEvent? then 1 else 0;
      && Count(Step(e, ev).1, HeaderKind) == (if ev.FrameEndEvent? && e.printHeader then 1 else 0)
      && Count(Step(e, ev).1, RecordKind) == live
      && Count(Step(e, ev).1, PublishKind) == live
      && Count(Step(e, ev).1, SpinKind) == live
    ensures Step(e, ev).0.printHeader == (e.printHeader && !ev.FrameEndEvent?)
    ensures !Step(e, ev).0.outputPaused
  {
    if ev.FrameEndEvent? {
      FrameEndCounts(e);
    }
  }

  /** After a start event, the first frame-end writes the header again,
      exactly once, before its data line. */
  lemma ResumeRewritesHeader(e: Engine, evs: seq<Event>)
    requires forall i :: 0 <= i < |evs| ==> EventDeliverable(evs[i]) && Quiet(evs[i])
    requires FrameEnds(evs) > 0
    ensures Count(Run(e, [GateChange(Started)] + evs).1, HeaderKind) == 1
  {
    var all := [GateChange(Started)] + evs;
    assert all[1..] == evs;
    var first := Step(e, GateChange(Started));
    LiveRunWritesHeaderOnce(first.0, evs);
    CountAppend(first.1, Run(first.0, evs).1, HeaderKind);
  }

  /** While output is live, a configuration event makes the next frame-end
      write the header again, exactly once. */
  lemma ConfigurationRewritesHeader(e: Engine, id: string, evs: seq<Event>)
    requires forall i :: 0 <= i < |evs| ==> EventDeliverable(evs[i]) && Quiet(evs[i])
    requires !e.outputPaused
    requires FrameEnds(evs) > 0
    ensures Count(Run(e, [ConfigurationEvent(id)] + evs).1, HeaderKind) == 1
  {
    var all := [ConfigurationEvent(id)] + evs;
    assert all[1..] == evs;
    var first := Step(e, ConfigurationEvent(id));
    LiveRunWritesHeaderOnce(first.0, evs);
    CountAppend(first.1, Run(first.0, evs).1, HeaderKind);
  }

  /** Orientation that goes missing shows as `---` in the next data line,
      and a later value shows again, in degrees. */
  lemma OrientationDropoutAndRecovery(t: Telemetry, angles: Euler)
    ensures var cols := Record(StoreOrientation(t, None));
      cols[4] == Dashes && cols[5] == Dashes && cols[6] == Dashes
    ensures var cols := Record(StoreOrientation(StoreOrientation(t, None), Some(EulerValue(angles))));
      && cols[4] == Fixed(Scale360(angles.heading))
      && cols[5] == Fixed(Scale360(angles.pitch))
      && cols[6] == Fixed(Scale360(angles.roll))
  {
  }

  /** A missing acceleration value shows as zeros in the next data line,
      whatever the previous value was. */
  lemma AccelerationDropoutShowsZero(t: Telemetry)
    ensures var cols := Record(StoreFVector(t, None));
      cols[8] == Fixed(0.0) && cols[9] == Fixed(0.0) && cols[10] == Fixed(0.0)
  {
  }

  /** Running two streams one after the other is running their
      concatenation. */
  lemma {:induction false} RunAppend(e: Engine, a: seq<Event>, b: seq<Event>)
    requires forall i :: 0 <= i < |a| ==> EventDeliverable(a[i])
    requires forall i :: 0 <= i < |b| ==> EventDeliverable(b[i])
    ensures forall i :: 0 <= i < |a + b| ==> EventDeliverable((a + b)[i])
    ensures Run(e, a + b).0 == Run(Run(e, a).0, b).0
    ensures Run(e, a + b).1 == Run(e, a).1 + Run(Run(e, a).0, b).1
    decreases |a|
  {
    assert forall i :: 0 <= i < |a + b| ==> EventDeliverable((a + b)[i]) by {
      forall i | 0 <= i < |a + b|
        ensures EventDeliverable((a + b)[i])
      {
        if i < |a| { assert (a + b)[i] == a[i]; } else { assert (a + b)[i] == b[i - |a|]; }
      }
    }
    if a == [] {
      assert a + b == b;
    } else {
      assert (a + b)[0] == a[0];
      assert (a + b)[1..] == a[1..] + b;
      RunAppend(Step(e, a[0]).0, a[1..], b);
    }
  }

  /** The snapshot of the example session below, before its first frame. */
  function ExampleSnapshot(): Telemetry
  {
    Zero().(speed := 10.0, gear := 3, engineRunning := true)
  }

  /** The same snapshot once the first frame has started. */
  function ExampleFrameSnapshot(): Telemetry
  {
    ExampleSnapshot().(rawRenderingTimestamp := 5, rawSimulationTimestamp := 7,
                       rawPausedSimulationTimestamp := 1000)
  }

  const EXAMPLE_UPDATES: seq<Event> := [
    ChannelEvent(FloatUpdate(SpeedTarget, Some(FloatValue(10.0)))),
    ChannelEvent(S32Update(Some(S32Value(3)))),
    ChannelEvent(BoolUpdate(EngineRunningTarget, Some(BoolValue(true))))]

  const EXAMPLE_FRAME: seq<Event> := [FrameStartEvent(FrameStartInfo(5, 7, 1000, false)), FrameEndEvent]

  lemma ExampleUpdates(e: Engine)
    requires e == Pause(Init(), Started).0
    ensures Run(e, EXAMPLE_UPDATES) == (Engine(ExampleSnapshot(), SENTINEL, false, true), [])
  {
    var u := EXAMPLE_UPDATES;
    var e1 := e.(telemetry := Zero().(speed := 10.0));
    var e2 := e1.(telemetry := e1.telemetry.(gear := 3));
    var e3 := Engine(ExampleSnapshot(), SENTINEL, false, true);
    assert u[1..][1..][1..] == [];
    assert u[1..][1..] == [u[2]];
    assert u[1..] == [u[1], u[2]];
    assert u[2..] == [u[2]] && u[2..][1..] == [];
    assert Step(e2, u[2]) == (e3, []);
    assert Run(e3, u[2..][1..]) == (e3, []);
    var empty: seq<Output> := [];
    assert empty + empty == empty;
    assert Run(e2, u[2..]) == (e3, []);
    assert Run(e1, u[1..]) == (e3, []);
  }

  lemma ExampleFrame(e: Engine)
    requires e == Engine(ExampleSnapshot(), SENTINEL, false, true)
    ensures Run(e, EXAMPLE_FRAME).1 == [LogNote(Header)] + Report(ExampleFrameSnapshot())
  {
    var e5 := FrameStart(e, FrameStartInfo(5, 7, 1000, false));
    assert e5.telemetry.timestamp == 0;
    assert e5 == Engine(ExampleFrameSnapshot(), 1000, false, true);
    assert EXAMPLE_FRAME[1..][1..] == [];
    assert EXAMPLE_FRAME[1..] == [FrameEndEvent];
    assert Run(e5, [FrameEndEvent]).1 == FrameEnd(e5).1;
    assert Run(e, EXAMPLE_FRAME).1 == Run(e5, [FrameEndEvent]).1;
    assert FrameEnd(e5).1 == [LogNote(Header)] + Report(ExampleFrameSnapshot());
  }

  lemma ExampleStart()
    ensures Run(Init(), [GateChange(Started)]) == (Pause(Init(), Started).0, [LogNote(TelemetryUnpaused)])
  {
    var start := [GateChange(Started)];
    assert start[1..] == [];
    assert [LogNote(TelemetryUnpaused)] + [] == [LogNote(TelemetryUnpaused)];
  }

  /** A session from initialisation: start, speed 10, gear 3, engine on,
      first frame at raw time 1000, frame end. The log shows the unpause
      line, then the header, then the frame's report. */
  lemma ExampleSession()
    ensures Run(Init(), [GateChange(Started)] + EXAMPLE_UPDATES + EXAMPLE_FRAME).1
         == [LogNote(TelemetryUnpaused), LogNote(Header)] + Report(ExampleFrameSnapshot())
  {
    var pre := [GateChange(Started)] + EXAMPLE_UPDATES;
    ExamplePrefix();
    ExampleFrame(Engine(ExampleSnapshot(), SENTINEL, false, true));
    ExampleEventsDeliverable(pre);
    RunAppend(Init(), pre, EXAMPLE_FRAME);
  }

  lemma ExampleEventsDeliverable(pre: seq<Event>)
    requires pre == [GateChange(Started)] + EXAMPLE_UPDATES
    ensures forall i :: 0 <= i < |pre| ==> EventDeliverable(pre[i])
    ensures forall i :: 0 <= i < |EXAMPLE_FRAME| ==> EventDeliverable(EXAMPLE_FRAME[i])
  {
  }

  lemma ExamplePrefix()
    ensures Run(Init(), [GateChange(Started)] + EXAMPLE_UPDATES)
         == (Engine(ExampleSnapshot(), SENTINEL, false, true), [LogNote(TelemetryUnpaused)])
  {
    ExampleStart();
    ExampleUpdates(Pause(Init(), Started).0);
    RunAppend(Init(), [GateChange(Started)], EXAMPLE_UPDATES);
  }

  /** The example frame's data line: the output clock reads 0 on the first
      frame, orientation never arrived so its columns are dashes, and the
      speed, gear and engine flag are the updated ones; the publish carries
      the same speed and gear. */
  lemma ExampleRecord()
    ensures Record(ExampleFrameSnapshot())[..8]
         == [Unsigned(0), Unsigned(5), Unsigned(7), Unsigned(1000), Dashes, Dashes, Dashes, Fixed(10.0)]
    ensures Record(ExampleFrameSnapshot())[12..14] == [Signed(3), Signed(1)]
    ensures OdometryOf(ExampleFrameSnapshot()).speed == 10.0 && OdometryOf(ExampleFrameSnapshot()).gear == 3
  {
  }
}
