/**
 * The Scanner page as an object: its `useState` fields, updated in place by
 * one method per handler. Each method is tied to the handler function of
 * ScannerModel that it implements, and each keeps the reachability
 * invariant, given the guard the page puts on its control.
 */
module ScannerPage {
  import M = ScannerModel

  class Scanner {
    var isRecording: bool
    var isAnalyzing: bool
    var analysisPhase: M.Phase
    var showResults: bool
    var hasHistory: bool
    var scanMode: M.Mode
    var hasPupil: bool
    var hasRetina: bool
    var pupilBuffered: bool
    var retinaBuffered: bool
    var anaPupilBuffered: bool
    var anaRetinaBuffered: bool
    var concussionProb: string
    var otherCondition: string
    var otherConditionDescription: string

    /** The fields as one value. */
    function State(): M.ScanState
      reads this
    {
      M.ScanState(M.Capture(isRecording, isAnalyzing, analysisPhase, scanMode, hasPupil, hasRetina),
                  showResults, hasHistory,
                  M.Buffers(pupilBuffered, retinaBuffered, anaPupilBuffered, anaRetinaBuffered),
                  M.Report(concussionProb, otherCondition, otherConditionDescription))
    }

    ghost predicate Valid()
      reads this
    {
      M.Inv(State())
    }

    /** The initial `useState` values. */
    constructor ()
      ensures State() == M.Initial() && Valid()
    {
      isRecording, isAnalyzing, analysisPhase := false, false, M.NoPhase;
      showResults, hasHistory := false, false;
      scanMode, hasPupil, hasRetina := M.PupilMode, false, false;
      pupilBuffered, retinaBuffered, anaPupilBuffered, anaRetinaBuffered := false, false, false, false;
      concussionProb := "97.4% Probability";
      otherCondition := "Papilledema";
      otherConditionDescription := "Early stage brain swelling; dangerously high pressures in cranium.";
    }

    /** `onCanPlayThrough` of video `v`. */
    method OnCanPlayThrough(v: M.Video)
      requires Valid()
      modifies this
      ensures State() == M.MarkBuffered(old(State()), v) && Valid()
    {
      match v
      case PupilLoop => pupilBuffered := true;
      case RetinaLoop => retinaBuffered := true;
      case PupilAnalysis => anaPupilBuffered := true;
      case RetinaAnalysis => anaRetinaBuffered := true;
    }

    /**
     * `record`, pressed while the record button is rendered. Its `disabled`
     * and the inert footer coincide with the handler's own early return.
     */
    method Record()
      requires Valid() && M.RecordControlsShown(State())
      modifies this
      ensures State() == M.Record(old(State())) && Valid()
    {
      var isReady := pupilBuffered && retinaBuffered && anaPupilBuffered && anaRetinaBuffered;
      if !isReady || isAnalyzing {
        return;
      }
      var wasRecording := isRecording;
      if wasRecording && scanMode == M.PupilMode && !hasPupil {
        hasPupil := true;
      }
      if wasRecording && scanMode == M.RetinaMode && !hasRetina {
        hasRetina := true;
      }
      isRecording := !wasRecording;
    }

    /** A mode button, which is disabled while recording. */
    method SelectMode(m: M.Mode)
      requires Valid() && M.Enabled(State(), M.ModePress(m))
      modifies this
      ensures State() == M.SelectMode(old(State()), m) && Valid()
    {
      scanMode := m;
    }

    /** `startAnalyze`, behind "Run Analysis". */
    method StartAnalyze()
      requires Valid() && M.Enabled(State(), M.RunAnalysisPress)
      modifies this
      ensures State() == M.StartAnalyze(old(State())) && Valid()
    {
      isAnalyzing := true;
      analysisPhase := M.PupilPhase;
    }

    /** `resetState`. */
    method ResetState()
      requires Valid()
      modifies this
      ensures State() == M.ResetState(old(State())) && Valid()
    {
      isAnalyzing := false;
      isRecording := false;
      hasPupil := false;
      hasRetina := false;
      scanMode := M.PupilMode;
      analysisPhase := M.NoPhase;
    }

    /** `onEnded` of the pupil-analysis clip, which plays only in the pupil phase. */
    method OnPupilAnalysisEnded()
      requires Valid() && M.Enabled(State(), M.PupilClipEnd)
      modifies this
      ensures State() == M.PupilClipEnded(old(State())) && Valid()
    {
      analysisPhase := M.RetinaPhase;
    }

    /** `onEnded` of the retina-analysis clip, which plays only in the retina phase. */
    method OnRetinaAnalysisEnded()
      requires Valid() && M.Enabled(State(), M.RetinaClipEnd)
      modifies this
      ensures State() == M.RetinaClipEnded(old(State())) && Valid()
    {
      showResults := true;
      hasHistory := true;
      ResetState();
    }

    /** "Open Diagnostic", rendered only once there is history. */
    method OpenDiagnostic()
      requires Valid() && M.Enabled(State(), M.OpenDiagnosticPress)
      modifies this
      ensures State() == M.OpenReport(old(State())) && Valid()
    {
      showResults := true;
    }

    /** "Close Report", rendered only inside the modal. */
    method CloseReport()
      requires Valid() && M.Enabled(State(), M.CloseReportPress)
      modifies this
      ensures State() == M.CloseReport(old(State())) && Valid()
    {
      showResults := false;
    }

    /** The three result setters of one hidden key. */
    method SetReport(r: M.Report)
      modifies this
      ensures State() == old(State()).(report := r)
    {
      concussionProb := r.concussionProb;
      otherCondition := r.otherCondition;
      otherConditionDescription := r.otherConditionDescription;
    }

    /** The hidden `iritis` key. */
    method Iritis()
      requires Valid()
      modifies this
      ensures State() == M.Inject(old(State()), M.Iritis) && Valid()
    {
      SetReport(M.Diagnosis(M.Iritis));
    }

    /** The hidden `papilledema` key. */
    method Papilledema()
      requires Valid()
      modifies this
      ensures State() == M.Inject(old(State()), M.Papilledema) && Valid()
    {
      SetReport(M.Diagnosis(M.Papilledema));
    }

    /** The hidden `retinalBleed` key. */
    method RetinalBleed()
      requires Valid()
      modifies this
      ensures State() == M.Inject(old(State()), M.RetinalBleed) && Valid()
    {
      SetReport(M.Diagnosis(M.RetinalBleed));
    }
  }
}
