/** `telemetry_frame_end`: deciding whether and what to emit for a frame. */
module Emission {

  import opened TelemetryState
  import opened Sink
  import opened Session

  /** The fixed part of a live frame-end, after the optional header. */
  function Report(t: Telemetry): seq<Output>
  {
    [LogRecord(Record(t)), LogNote(AboutToPublish), Publish(OdometryOf(t)),
     LogNote(AboutToSpin), SpinSome, LogNote(Spinned)]
  }

  /** The frame-end handler. While paused it does nothing at all. Otherwise
      it writes the owed header (and stops owing it), one data line, then
      publishes and drives the publisher once, logging around both. */
  function FrameEnd(e: Engine): (r: (Engine, seq<Output>))
    ensures e.outputPaused ==> r.0 == e && r.1 == []
    ensures !e.outputPaused ==>
      var h := if e.printHeader then 1 else 0;
      && r.0 == e.(printHeader := false)
      && |r.1| == h + 6
      && (e.printHeader ==> r.1[0] == LogNote(Header))
      && r.1[h] == LogRecord(Record(e.telemetry))
      && r.1[h + 1] == LogNote(AboutToPublish)
      && r.1[h + 2] == Publish(OdometryOf(e.telemetry))
      && r.1[h + 3] == LogNote(AboutToSpin)
      && r.1[h + 4] == SpinSome
      && r.1[h + 5] == LogNote(Spinned)
  {
    if e.outputPaused then (e, [])
    else
      var header := if e.printHeader then [LogNote(Header)] else [];
      (e.(printHeader := false), header + Report(e.telemetry))
  }

  lemma ReportCounts(t: Telemetry)
    ensures Count(Report(t), HeaderKind) == 0
    ensures Count(Report(t), RecordKind) == 1
    ensures Count(Report(t), PublishKind) == 1
    ensures Count(Report(t), SpinKind) == 1
  {
    var r := Report(t);
    assert KindOf(r[1]) == OtherKind && KindOf(r[3]) == OtherKind && KindOf(r[5]) == OtherKind;
    forall k
      ensures Count(r, k) == Count([r[0]], k) + Count([r[1]], k) + Count([r[2]], k)
                            + Count([r[3]], k) + Count([r[4]], k) + Count([r[5]], k)
    {
      assert r == [r[0]] + ([r[1]] + ([r[2]] + ([r[3]] + ([r[4]] + [r[5]]))));
      CountAppend([r[4]], [r[5]], k);
      CountAppend([r[3]], [r[4]] + [r[5]], k);
      CountAppend([r[2]], [r[3]] + ([r[4]] + [r[5]]), k);
      CountAppend([r[1]], [r[2]] + ([r[3]] + ([r[4]] + [r[5]])), k);
      CountAppend([r[0]], [r[1]] + ([r[2]] + ([r[3]] + ([r[4]] + [r[5]]))), k);
    }
  }

  /** What one frame-end emits, counted: a header exactly when one was owed
      and output is live, and one data line, one publish and one spin per
      live frame. */
  lemma FrameEndCounts(e: Engine)
    ensures var live := if e.outputPaused then 0 else 1;
      && Count(FrameEnd(e).1, HeaderKind) == (if !e.outputPaused && e.printHeader then 1 else 0)
      && Count(FrameEnd(e).1, RecordKind) == live
      && Count(FrameEnd(e).1, PublishKind) == live
      && Count(FrameEnd(e).1, SpinKind) == live
    ensures !FrameEnd(e).0.printHeader || e.outputPaused
  {
    if !e.outputPaused {
      var header := if e.printHeader then [LogNote(Header)] else [];
      assert FrameEnd(e).1 == header + Report(e.telemetry);
      ReportCounts(e.telemetry);
      CountAppend(header, Report(e.telemetry), HeaderKind);
      CountAppend(header, Report(e.telemetry), RecordKind);
      CountAppend(header, Report(e.telemetry), PublishKind);
      CountAppend(header, Report(e.telemetry), SpinKind);
    }
  }
}
