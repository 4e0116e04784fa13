/**
 * Properties of the Scanner view-state machine: the reachability invariant,
 * the flags that only ever grow, the capture credited by a stop, and the
 * pupil -> retina -> results analysis sequence.
 */
module ScannerProofs {
  import opened Wrappers
  import opened ScannerModel

  /** Every event the controls allow keeps the invariant. */
  lemma StepPreservesInv(s: ScanState, e: Event)
    requires Inv(s) && Enabled(s, e)
    ensures Inv(Step(s, e))
  {
  }

  /** Any admissible sequence of events keeps the invariant. */
  lemma {:induction false} RunPreservesInv(s: ScanState, events: seq<Event>)
    requires Inv(s) && Admissible(s, events)
    ensures Inv(Run(s, events))
    decreases |events|
  {
    if events != [] {
      StepPreservesInv(s, events[0]);
      RunPreservesInv(Step(s, events[0]), events[1..]);
    }
  }

  /** Every state reachable from a freshly mounted page satisfies the invariant. */
  lemma ReachableSatisfiesInv(events: seq<Event>)
    requires Admissible(Initial(), events)
    ensures Inv(Run(Initial(), events))
  {
    RunPreservesInv(Initial(), events);
  }

  /** No event, allowed or not, clears a buffered flag or the history flag. */
  lemma StepIsMonotone(s: ScanState, e: Event)
    ensures forall v: Video :: IsBuffered(s, v) ==> IsBuffered(Step(s, e), v)
    ensures s.hasHistory ==> Step(s, e).hasHistory
  {
  }

  /** Once ready, always ready; once there is history, there always is. */
  lemma {:induction false} RunIsMonotone(s: ScanState, events: seq<Event>)
    ensures forall v: Video :: IsBuffered(s, v) ==> IsBuffered(Run(s, events), v)
    ensures IsReady(s) ==> IsReady(Run(s, events))
    ensures s.hasHistory ==> Run(s, events).hasHistory
    decreases |events|
  {
    if events != [] {
      StepIsMonotone(s, events[0]);
      RunIsMonotone(Step(s, events[0]), events[1..]);
    }
  }

  /** While recording, no allowed event other than the record button touches the mode or the captures. */
  lemma RecordingStepFreezesMode(s: ScanState, e: Event)
    requires Inv(s) && s.capture.isRecording && Enabled(s, e) && e != RecordPress
    ensures Step(s, e).capture.isRecording && Step(s, e).capture.scanMode == s.capture.scanMode
    ensures Step(s, e).capture.hasPupil == s.capture.hasPupil && Step(s, e).capture.hasRetina == s.capture.hasRetina
  {
  }

  /** A recording runs, in the mode it began in, until the record button is pressed again. */
  lemma {:induction false} RecordingFreezesMode(s: ScanState, events: seq<Event>)
    requires Inv(s) && s.capture.isRecording && Admissible(s, events) && RecordPress !in events
    ensures Inv(Run(s, events)) && Run(s, events).capture.isRecording
    ensures Run(s, events).capture.scanMode == s.capture.scanMode
    ensures Run(s, events).capture.hasPupil == s.capture.hasPupil && Run(s, events).capture.hasRetina == s.capture.hasRetina
    decreases |events|
  {
    if events != [] {
      assert events[0] in events;
      StepPreservesInv(s, events[0]);
      RecordingStepFreezesMode(s, events[0]);
      assert events == [events[0]] + events[1..];
      RecordingFreezesMode(Step(s, events[0]), events[1..]);
    }
  }

  /**
   * Start a recording in state `s`, let any allowed events other than the
   * record button happen, and press it again: the capture credited is the one
   * of the mode the recording began in, and the other capture is untouched.
   */
  lemma StopCreditsStartMode(s: ScanState, events: seq<Event>)
    requires Inv(s) && !s.capture.isRecording && Enabled(s, RecordPress)
    requires Admissible(Step(s, RecordPress), events) && RecordPress !in events
    requires Enabled(Run(Step(s, RecordPress), events), RecordPress)
    ensures var u := Step(Run(Step(s, RecordPress), events), RecordPress);
      !u.capture.isRecording &&
      u.capture.hasPupil == (s.capture.hasPupil || s.capture.scanMode == PupilMode) &&
      u.capture.hasRetina == (s.capture.hasRetina || s.capture.scanMode == RetinaMode)
  {
    var started := Step(s, RecordPress);
    StepPreservesInv(s, RecordPress);
    RecordingFreezesMode(started, events);
  }

  /** With the invariant, at most one capture can exist while recording and "Run Analysis" never shows mid-recording. */
  lemma RecordingHidesRunAnalysis(s: ScanState)
    requires Inv(s) && s.capture.isRecording
    ensures !Enabled(s, RunAnalysisPress) && (!s.capture.hasPupil || !s.capture.hasRetina)
  {
  }

  /** The three-event analysis sequence as an event list. */
  function AnalysisEvents(): seq<Event> {
    [RunAnalysisPress, PupilClipEnd, RetinaClipEnd]
  }

  /** Running the analysis sequence is running its three handlers in turn. */
  lemma RunAnalysisEvents(s: ScanState)
    ensures Run(s, AnalysisEvents()) == RetinaClipEnded(PupilClipEnded(StartAnalyze(s)))
    ensures Admissible(s, AnalysisEvents()) <==>
      Enabled(s, RunAnalysisPress) && Enabled(StartAnalyze(s), PupilClipEnd) &&
      Enabled(PupilClipEnded(StartAnalyze(s)), RetinaClipEnd)
  {
  }

  /**
   * From a state where "Run Analysis" is offered, the analysis runs its pupil
   * phase, then its retina phase, and ends in the report: history is
   * recorded, the capture state is the initial one, and the buffers and the
   * report text are as before.
   */
  lemma AnalysisSequence(s: ScanState)
    requires Inv(s) && Enabled(s, RunAnalysisPress)
    ensures var a := StartAnalyze(s);
      HeaderText(a) == "Analyzing pupil" && VisibleVideo(a) == Some(PupilAnalysis)
    ensures var b := PupilClipEnded(StartAnalyze(s));
      HeaderText(b) == "Analyzing retina" && VisibleVideo(b) == Some(RetinaAnalysis)
    ensures Admissible(s, AnalysisEvents())
    ensures var u := Run(s, AnalysisEvents());
      u.showResults && u.hasHistory && u.capture == InitialCapture &&
      u.buffers == s.buffers && u.report == s.report &&
      Inv(u)
  {
  }

  /** While analysing, the header names a live phase, never "none". */
  lemma HeaderNamesLivePhase(s: ScanState)
    requires Inv(s) && s.capture.isAnalyzing
    ensures HeaderText(s) == "Analyzing pupil" || HeaderText(s) == "Analyzing retina"
  {
  }

  /** In a reachable state a video is shown exactly while recording or analysing. */
  lemma VisibleWhileBusy(s: ScanState)
    requires Inv(s)
    ensures VisibleVideo(s).Some? <==> s.capture.isRecording || s.capture.isAnalyzing
  {
  }

  /** Pressing a hidden key twice is the same as pressing it once. */
  lemma InjectIsIdempotent(s: ScanState, k: Injector)
    ensures Inject(Inject(s, k), k) == Inject(s, k)
  {
  }
}
