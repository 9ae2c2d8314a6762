/** `telemetry_frame_start`: turning the host's paused-simulation clock,
    which restarts (for example after a game load), into a continuous
    output timestamp. */
module Timestamps {

  import opened Unsigned64
  import opened TelemetryState
  import opened Session

  /** The parts of `scs_telemetry_frame_start_t` the plugin reads; of the
      flags word only the timer-restart bit is tested. */
  datatype FrameStartInfo = FrameStartInfo(
    renderTime: U64,
    simulationTime: U64,
    pausedSimulationTime: U64,
    timerRestart: bool
  )

  /** The raw clocks a frame-start writes. */
  const CLOCK_FIELDS: set<Field> :=
    {Timestamp, RawRenderingTimestamp, RawSimulationTimestamp, RawPausedSimulationTimestamp}

  /** The frame-start handler. The two tests are independent: the sentinel
      test first makes the first frame a zero step, then the restart flag
      (even on the first frame) forces the step to the full raw value. */
  function FrameStart(e: Engine, info: FrameStartInfo): (r: Engine)
    ensures r.lastTimestamp == info.pausedSimulationTime
    ensures r.telemetry.rawRenderingTimestamp == info.renderTime
    ensures r.telemetry.rawSimulationTimestamp == info.simulationTime
    ensures r.telemetry.rawPausedSimulationTimestamp == info.pausedSimulationTime
    ensures AgreeExcept(e.telemetry, r.telemetry, CLOCK_FIELDS)
    ensures r.outputPaused == e.outputPaused && r.printHeader == e.printHeader
    // First frame of the session: the output clock does not move.
    ensures !info.timerRestart && e.lastTimestamp == SENTINEL ==>
      r.telemetry.timestamp == e.telemetry.timestamp
    // Restart: the output clock moves by the whole raw value, whatever came before.
    ensures info.timerRestart ==>
      Sub(r.telemetry.timestamp, e.telemetry.timestamp) == info.pausedSimulationTime
    // Otherwise the output clock moves exactly as far as the raw clock did.
    ensures !info.timerRestart && e.lastTimestamp != SENTINEL ==>
      Add(e.lastTimestamp, Sub(r.telemetry.timestamp, e.telemetry.timestamp)) == info.pausedSimulationTime
  {
    var raw := info.pausedSimulationTime;
    var last := if e.lastTimestamp == SENTINEL then raw else e.lastTimestamp;
    var last' := if info.timerRestart then 0 else last;
    var t := e.telemetry.(
      timestamp := Add(e.telemetry.timestamp, Sub(raw, last')),
      rawRenderingTimestamp := info.renderTime,
      rawSimulationTimestamp := info.simulationTime,
      rawPausedSimulationTimestamp := raw);
    e.(telemetry := t, lastTimestamp := raw)
  }

  /** A run of frame-starts with nothing in between. */
  function FrameStarts(e: Engine, infos: seq<FrameStartInfo>): Engine
    decreases |infos|
  {
    if infos == [] then e else FrameStarts(FrameStart(e, infos[0]), infos[1..])
  }

  /** No restart, and no raw value equal to the sentinel except perhaps the
      last one (a sentinel raw value makes the next frame a first frame). */
  ghost predicate Steady(infos: seq<FrameStartInfo>)
  {
    forall i :: 0 <= i < |infos| ==>
      !infos[i].timerRestart && (i < |infos| - 1 ==> infos[i].pausedSimulationTime != SENTINEL)
  }

  function LastRaw(infos: seq<FrameStartInfo>): U64
    requires infos != []
  {
    infos[|infos| - 1].pausedSimulationTime
  }

  /** Telescoping: over a steady run, the per-frame steps add up modulo
      2^64 to the distance from the last raw value seen before the run to
      the run's last raw value. */
  lemma {:induction false} SteadyRunTelescopes(e: Engine, infos: seq<FrameStartInfo>)
    requires e.lastTimestamp != SENTINEL
    requires infos != [] && Steady(infos)
    ensures FrameStarts(e, infos).telemetry.timestamp
         == Add(e.telemetry.timestamp, Sub(LastRaw(infos), e.lastTimestamp))
    ensures FrameStarts(e, infos).lastTimestamp == LastRaw(infos)
    decreases |infos|
  {
    var e1 := FrameStart(e, infos[0]);
    AddSubInverse(infos[0].pausedSimulationTime, e.lastTimestamp,
                  Sub(e1.telemetry.timestamp, e.telemetry.timestamp));
    AddSubInverse(e1.telemetry.timestamp, e.telemetry.timestamp,
                  Sub(infos[0].pausedSimulationTime, e.lastTimestamp));
    if |infos| > 1 {
      var rest := infos[1..];
      assert Steady(rest) by {
        forall i | 0 <= i < |rest|
          ensures !rest[i].timerRestart && (i < |rest| - 1 ==> rest[i].pausedSimulationTime != SENTINEL)
        {
          assert rest[i] == infos[i + 1];
        }
      }
      assert LastRaw(rest) == LastRaw(infos);
      SteadyRunTelescopes(e1, rest);
      SubChain(e.telemetry.timestamp, e.lastTimestamp, infos[0].pausedSimulationTime, LastRaw(infos));
    }
  }

  /** From the start of a session, a steady run advances the output clock
      by the distance from the first raw value to the last. */
  lemma SessionClockTelescopes(e: Engine, infos: seq<FrameStartInfo>)
    requires e.lastTimestamp == SENTINEL
    requires infos != [] && Steady(infos)
    ensures FrameStarts(e, infos).telemetry.timestamp
         == Add(e.telemetry.timestamp, Sub(LastRaw(infos), infos[0].pausedSimulationTime))
    ensures FrameStarts(e, infos).lastTimestamp == LastRaw(infos)
  {
    var e1 := FrameStart(e, infos[0]);
    if |infos| == 1 {
      assert Sub(LastRaw(infos), infos[0].pausedSimulationTime) == 0;
    } else {
      var rest := infos[1..];
      assert Steady(rest) by {
        forall i | 0 <= i < |rest|
          ensures !rest[i].timerRestart && (i < |rest| - 1 ==> rest[i].pausedSimulationTime != SENTINEL)
        {
          assert rest[i] == infos[i + 1];
        }
      }
      assert LastRaw(rest) == LastRaw(infos);
      SteadyRunTelescopes(e1, rest);
    }
  }

  /** A raw value of 2^64 - 1 is indistinguishable from "no frame yet": the
      frame after it, if not a restart, leaves the output clock where it
      was, however far the raw clock moved. */
  lemma SentinelRawRestartsContinuity(e: Engine, info: FrameStartInfo, next: FrameStartInfo)
    requires info.pausedSimulationTime == SENTINEL
    requires !next.timerRestart
    ensures FrameStart(e, info).lastTimestamp == SENTINEL
    ensures FrameStart(FrameStart(e, info), next).telemetry.timestamp
         == FrameStart(e, info).telemetry.timestamp
  {
  }
}
