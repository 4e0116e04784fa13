/**
 * The capture -> analysis -> results view-state machine of the Scanner page,
 * as values: the page's `useState` fields form one `ScanState`, every event
 * handler is a function from the state before the event to the state after it
 * (React batches the setter calls of one handler, so each handler reads only
 * the pre-event state), and the derived values the page renders are functions
 * of the state.
 */
module ScannerModel {
  import opened Wrappers

  /** The two capture modes chosen in the footer switch ('pupil' | 'retina'). */
  datatype Mode = PupilMode | RetinaMode

  /** The analysis phase ('none' | 'pupil' | 'retina'). */
  datatype Phase = NoPhase | PupilPhase | RetinaPhase

  /** The four stacked video elements inside the circular viewport. */
  datatype Video = PupilLoop | RetinaLoop | PupilAnalysis | RetinaAnalysis

  /** The three hidden keys that swap the canned diagnosis. */
  datatype Injector = Iritis | Papilledema | RetinalBleed

  /** The part of the state that `resetState` restores. */
  datatype Capture = Capture(
    isRecording: bool,
    isAnalyzing: bool,
    analysisPhase: Phase,
    scanMode: Mode,
    hasPupil: bool,
    hasRetina: bool)

  /** The four `canplaythrough` flags. */
  datatype Buffers = Buffers(
    pupilBuffered: bool,
    retinaBuffered: bool,
    anaPupilBuffered: bool,
    anaRetinaBuffered: bool)

  /** The three strings the diagnostic modal shows. */
  datatype Report = Report(concussionProb: string, otherCondition: string, otherConditionDescription: string)

  datatype ScanState = ScanState(
    capture: Capture,
    showResults: bool,
    hasHistory: bool,
    buffers: Buffers,
    report: Report)

  /** The capture part of a freshly mounted page, which `resetState` restores. */
  const InitialCapture := Capture(false, false, NoPhase, PupilMode, false, false)

  /** The text the header interpolates for a phase. */
  function PhaseName(p: Phase): string {
    match p
    case NoPhase => "none"
    case PupilPhase => "pupil"
    case RetinaPhase => "retina"
  }

  /** The fixed triple each hidden key writes into the modal. */
  function Diagnosis(k: Injector): Report {
    match k
    case Iritis =>
      Report("97.3% Probability", "Traumatic Iritis",
             "Blunt force trauma to the eye that often occurs simultaneously with a concussion.")
    case Papilledema =>
      Report("97.4% Probability", "Papilledema",
             "Early stage brain swelling; dangerously high pressures in cranium.")
    case RetinalBleed =>
      Report("98.3% Probability", "Retinal Hemorrhage",
             "Small bleeding on the back of eye; indicates brain being rattled.")
  }

  // ---------------------------------------------------------------------------
  // Derived values
  // ---------------------------------------------------------------------------

  /** Whether a video has fired `canplaythrough`. */
  function IsBuffered(s: ScanState, v: Video): bool {
    match v
    case PupilLoop => s.buffers.pupilBuffered
    case RetinaLoop => s.buffers.retinaBuffered
    case PupilAnalysis => s.buffers.anaPupilBuffered
    case RetinaAnalysis => s.buffers.anaRetinaBuffered
  }

  /** The system is ready once every one of the four videos is buffered. */
  function IsReady(s: ScanState): (r: bool)
    ensures r <==> forall v: Video :: IsBuffered(s, v)
  {
    IsBuffered(s, PupilLoop) && IsBuffered(s, RetinaLoop) &&
    IsBuffered(s, PupilAnalysis) && IsBuffered(s, RetinaAnalysis)
  }

  /** Both captures exist, so "Run Analysis" replaces the record controls. */
  predicate IsReadyForAnalysis(s: ScanState)
    ensures IsReadyForAnalysis(s) <==> forall m: Mode :: HasCapture(s, m)
  {
    HasCapture(s, PupilMode) && HasCapture(s, RetinaMode)
  }

  /** Whether the capture of a mode exists. */
  predicate HasCapture(s: ScanState, m: Mode) {
    match m
    case PupilMode => s.capture.hasPupil
    case RetinaMode => s.capture.hasRetina
  }

  /** The status label in the header bar. */
  function HeaderText(s: ScanState): (r: string)
    ensures s.capture.isAnalyzing ==> r == "Analyzing " + PhaseName(s.capture.analysisPhase)
    ensures r == "System Ready" <==> !s.capture.isAnalyzing && IsReady(s)
    ensures r == "Initializing Vision Model" <==> !s.capture.isAnalyzing && !IsReady(s)
  {
    if s.capture.isAnalyzing then "Analyzing " + PhaseName(s.capture.analysisPhase)
    else if IsReady(s) then "System Ready"
    else "Initializing Vision Model"
  }

  /** The two looping capture videos, as opposed to the two analysis clips. */
  predicate IsLoop(v: Video) {
    v == PupilLoop || v == RetinaLoop
  }

  /** Whether a video element is rendered opaque (`opacity-80`) rather than hidden. */
  predicate IsVisible(s: ScanState, v: Video)
    ensures IsVisible(s, v) ==> (IsLoop(v) <==> !s.capture.isAnalyzing)
    ensures IsVisible(s, v) && IsLoop(v) ==> s.capture.isRecording
  {
    var c := s.capture;
    match v
    case PupilLoop => !c.isAnalyzing && c.isRecording && c.scanMode == PupilMode
    case RetinaLoop => !c.isAnalyzing && c.isRecording && c.scanMode == RetinaMode
    case PupilAnalysis => c.isAnalyzing && c.analysisPhase == PupilPhase
    case RetinaAnalysis => c.isAnalyzing && c.analysisPhase == RetinaPhase
  }

  /** The one video that is opaque, if any: no state shows two at once. */
  function VisibleVideo(s: ScanState): (r: Option<Video>)
    ensures forall v: Video :: IsVisible(s, v) <==> r == Some(v)
  {
    var c := s.capture;
    if c.isAnalyzing then
      match c.analysisPhase
      case NoPhase => None
      case PupilPhase => Some(PupilAnalysis)
      case RetinaPhase => Some(RetinaAnalysis)
    else if c.isRecording then
      match c.scanMode
      case PupilMode => Some(PupilLoop)
      case RetinaMode => Some(RetinaLoop)
    else None
  }

  // ---------------------------------------------------------------------------
  // The reachability invariant
  // ---------------------------------------------------------------------------

  /** What holds in every state the page can reach through its controls. */
  predicate Inv(s: ScanState) {
    var c := s.capture;
    (IsReadyForAnalysis(s) ==> !c.isRecording) &&
    (c.isRecording ==> IsReady(s) && !c.isAnalyzing) &&
    (c.hasPupil || c.hasRetina ==> IsReady(s)) &&
    (c.isAnalyzing <==> c.analysisPhase != NoPhase) &&
    (c.isAnalyzing ==> IsReadyForAnalysis(s)) &&
    (s.showResults ==> s.hasHistory)
  }

  /** The state of a freshly mounted page. */
  function Initial(): (s: ScanState)
    ensures Inv(s)
    ensures !IsReady(s) && !s.showResults && !s.hasHistory && s.capture == InitialCapture
    ensures s.report == Diagnosis(Papilledema)
    ensures HeaderText(s) == "Initializing Vision Model" && VisibleVideo(s) == None
  {
    ScanState(InitialCapture, false, false, Buffers(false, false, false, false),
              Report("97.4% Probability", "Papilledema",
                     "Early stage brain swelling; dangerously high pressures in cranium."))
  }

  // ---------------------------------------------------------------------------
  // Event handlers
  // ---------------------------------------------------------------------------

  /** `onCanPlayThrough` of one video: its buffered flag becomes true, and only that. */
  function MarkBuffered(s: ScanState, v: Video): (t: ScanState)
    ensures IsBuffered(t, v)
    ensures forall w: Video :: w != v ==> IsBuffered(t, w) == IsBuffered(s, w)
    ensures t.(buffers := s.buffers) == s
    ensures Inv(s) ==> Inv(t)
  {
    var b := s.buffers;
    match v
    case PupilLoop => s.(buffers := b.(pupilBuffered := true))
    case RetinaLoop => s.(buffers := b.(retinaBuffered := true))
    case PupilAnalysis => s.(buffers := b.(anaPupilBuffered := true))
    case RetinaAnalysis => s.(buffers := b.(anaRetinaBuffered := true))
  }

  /** `record`: ignored unless ready and idle; otherwise toggles recording, crediting a stop to the current mode. */
  function Record(s: ScanState): (t: ScanState)
    ensures !IsReady(s) || s.capture.isAnalyzing ==> t == s
    ensures IsReady(s) && !s.capture.isAnalyzing ==>
      var c, d := s.capture, t.capture;
      d.isRecording == !c.isRecording &&
      d.hasPupil == (c.hasPupil || (c.isRecording && c.scanMode == PupilMode)) &&
      d.hasRetina == (c.hasRetina || (c.isRecording && c.scanMode == RetinaMode))
    ensures !s.capture.isRecording ==>
      t.capture.hasPupil == s.capture.hasPupil && t.capture.hasRetina == s.capture.hasRetina
    ensures s.capture.scanMode == PupilMode ==> t.capture.hasRetina == s.capture.hasRetina
    ensures s.capture.scanMode == RetinaMode ==> t.capture.hasPupil == s.capture.hasPupil
    ensures t.capture.(isRecording := s.capture.isRecording, hasPupil := s.capture.hasPupil,
                       hasRetina := s.capture.hasRetina) == s.capture
    ensures t.(capture := s.capture) == s
    ensures Inv(s) && RecordControlsShown(s) ==> Inv(t)
  {
    var c := s.capture;
    if !IsReady(s) || c.isAnalyzing then s
    else
      var hasPupil := if c.isRecording && c.scanMode == PupilMode && !c.hasPupil then true else c.hasPupil;
      var hasRetina := if c.isRecording && c.scanMode == RetinaMode && !c.hasRetina then true else c.hasRetina;
      s.(capture := c.(hasPupil := hasPupil, hasRetina := hasRetina, isRecording := !c.isRecording))
  }

  /** A mode button: the mode becomes `m` and nothing else changes. */
  function SelectMode(s: ScanState, m: Mode): (t: ScanState)
    ensures t.capture.scanMode == m && t.capture.(scanMode := s.capture.scanMode) == s.capture
    ensures t.(capture := s.capture) == s
    ensures Inv(s) ==> Inv(t)
  {
    s.(capture := s.capture.(scanMode := m))
  }

  /** `startAnalyze`: analysis begins with the pupil phase. */
  function StartAnalyze(s: ScanState): (t: ScanState)
    ensures t.capture.isAnalyzing && t.capture.analysisPhase == PupilPhase
    ensures HeaderText(t) == "Analyzing pupil" && VisibleVideo(t) == Some(PupilAnalysis)
    ensures t.capture.(isAnalyzing := s.capture.isAnalyzing, analysisPhase := s.capture.analysisPhase) == s.capture
    ensures t.(capture := s.capture) == s
    ensures Inv(s) && Enabled(s, RunAnalysisPress) ==> Inv(t)
  {
    s.(capture := s.capture.(isAnalyzing := true, analysisPhase := PupilPhase))
  }

  /** `resetState`: the capture part returns to its initial value; buffers, history, modal and report stay. */
  function ResetState(s: ScanState): (t: ScanState)
    ensures t.capture == InitialCapture && t.(capture := s.capture) == s
    ensures !IsReadyForAnalysis(t) && VisibleVideo(t) == None
    ensures Inv(s) ==> Inv(t)
  {
    s.(capture := InitialCapture)
  }

  /** `onEnded` of the pupil-analysis clip: the phase moves on to retina. */
  function PupilClipEnded(s: ScanState): (t: ScanState)
    ensures t.capture.analysisPhase == RetinaPhase
    ensures t.capture.(analysisPhase := s.capture.analysisPhase) == s.capture
    ensures t.(capture := s.capture) == s
    ensures Inv(s) && s.capture.isAnalyzing ==> Inv(t)
  {
    s.(capture := s.capture.(analysisPhase := RetinaPhase))
  }

  /** `onEnded` of the retina-analysis clip: the report opens, history is recorded, capture is reset. */
  function RetinaClipEnded(s: ScanState): (t: ScanState)
    ensures t.showResults && t.hasHistory && t.capture == InitialCapture
    ensures t.buffers == s.buffers && t.report == s.report
    ensures Inv(s) ==> Inv(t)
  {
    ResetState(s.(showResults := true, hasHistory := true))
  }

  /** "Open Diagnostic": the modal is shown. */
  function OpenReport(s: ScanState): (t: ScanState)
    ensures t.showResults && t.(showResults := s.showResults) == s
    ensures Inv(s) && s.hasHistory ==> Inv(t)
  {
    s.(showResults := true)
  }

  /** "Close Report": the modal is hidden, and nothing else changes. */
  function CloseReport(s: ScanState): (t: ScanState)
    ensures !t.showResults && t.(showResults := s.showResults) == s
    ensures Inv(s) ==> Inv(t)
  {
    s.(showResults := false)
  }

  /** A hidden key: the report becomes that key's triple, and nothing else changes. */
  function Inject(s: ScanState, k: Injector): (t: ScanState)
    ensures t.report == Diagnosis(k) && t.(report := s.report) == s
    ensures Inv(s) ==> Inv(t)
  {
    s.(report := Diagnosis(k))
  }

  // ---------------------------------------------------------------------------
  // The machine the controls allow
  // ---------------------------------------------------------------------------

  datatype Event =
    | CanPlayThrough(video: Video)
    | RecordPress
    | ModePress(mode: Mode)
    | RunAnalysisPress
    | PupilClipEnd
    | RetinaClipEnd
    | OpenDiagnosticPress
    | CloseReportPress
    | SecretKey(injector: Injector)

  /** The footer takes clicks: it is not inert (analysing) and not covered by the modal. */
  predicate FooterLive(s: ScanState) {
    !s.capture.isAnalyzing && !s.showResults
  }

  /** The record button and the mode switch are rendered (not yet replaced by "Run Analysis") and not covered. */
  predicate RecordControlsShown(s: ScanState) {
    !s.showResults && !IsReadyForAnalysis(s)
  }

  /** The presses of a control in the footer. */
  predicate IsFooterEvent(e: Event) {
    e == RecordPress || e.ModePress? || e == RunAnalysisPress
  }

  /** Whether the page lets event `e` happen in state `s`. */
  predicate Enabled(s: ScanState, e: Event)
    ensures s.capture.isAnalyzing && IsFooterEvent(e) ==> !Enabled(s, e)
    ensures s.showResults && Enabled(s, e) ==> !IsFooterEvent(e) && e != OpenDiagnosticPress
    ensures Enabled(s, e) && e == OpenDiagnosticPress ==> s.hasHistory
    ensures Enabled(s, e) && (e == RecordPress || e.ModePress?) ==> !IsReadyForAnalysis(s)
    ensures Enabled(s, e) && e == RunAnalysisPress ==> IsReadyForAnalysis(s)
  {
    match e
    case CanPlayThrough(_) => true
    case RecordPress => FooterLive(s) && RecordControlsShown(s) && IsReady(s)
    case ModePress(_) => FooterLive(s) && RecordControlsShown(s) && !s.capture.isRecording
    case RunAnalysisPress => FooterLive(s) && IsReadyForAnalysis(s)
    case PupilClipEnd => s.capture.isAnalyzing && s.capture.analysisPhase == PupilPhase
    case RetinaClipEnd => s.capture.isAnalyzing && s.capture.analysisPhase == RetinaPhase
    case OpenDiagnosticPress => s.hasHistory && !s.showResults
    case CloseReportPress => s.showResults
    case SecretKey(_) => true
  }

  /** The handler an event runs. */
  function Step(s: ScanState, e: Event): ScanState {
    match e
    case CanPlayThrough(v) => MarkBuffered(s, v)
    case RecordPress => Record(s)
    case ModePress(m) => SelectMode(s, m)
    case RunAnalysisPress => StartAnalyze(s)
    case PupilClipEnd => PupilClipEnded(s)
    case RetinaClipEnd => RetinaClipEnded(s)
    case OpenDiagnosticPress => OpenReport(s)
    case CloseReportPress => CloseReport(s)
    case SecretKey(k) => Inject(s, k)
  }

  /** The state after a sequence of events. */
  function Run(s: ScanState, events: seq<Event>): ScanState
    decreases |events|
  {
    if events == [] then s else Run(Step(s, events[0]), events[1..])
  }

  /** Every event of the sequence is allowed in the state it happens in. */
  predicate Admissible(s: ScanState, events: seq<Event>)
    decreases |events|
  {
    events == [] || (Enabled(s, events[0]) && Admissible(Step(s, events[0]), events[1..]))
  }
}
