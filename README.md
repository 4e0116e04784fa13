# Eye-scanner mockup: view-state machines

This project models the two small state machines of a browser mockup of a
mobile "eye scanner". None of the scanning in the mockup is real.

- **The Scanner page** sequences capture, analysis and results. The user
  records a pupil clip and a retina clip, choosing the mode with a two-way
  switch. Once both captures exist, "Run Analysis" replaces the record
  controls. Two analysis clips then play in turn, and at the end a modal
  shows a canned diagnosis. Four videos must report `canplaythrough` before
  recording is possible. Three hidden keys swap the diagnosis text.
- **The Demo page** shows three condition cards. A click flips a card to its
  video and locks the other two. Clicking the flipped card again unlocks
  them all.

Layout of the model:

- `scanner_model.dfy` (module `ScannerModel`) holds the Scanner page as
  values. The page's `useState` fields form one `ScanState`, grouped into:
  - `capture`: exactly the fields that `resetState` restores;
  - `buffers`: the four "buffered" flags;
  - the two modal flags;
  - `report`: the three result strings.

  Each event handler is one function from the pre-event state to the
  post-event state. React batches the setter calls of a handler, and every
  handler here reads only the pre-event state, so one atomic transition per
  handler is exact. The derived values (`IsReady`, `IsReadyForAnalysis`, the
  header label, the opaque video) are functions of the state. `Enabled`
  states which events the rendered controls allow. `Step` and `Run` apply
  events, `Admissible` says every event of a sequence was allowed when it
  happened, and `Inv` is the reachability invariant.
- `scanner_proofs.dfy` (module `ScannerProofs`) holds the lemmas over traces
  of events.
- `scanner_page.dfy` (module `ScannerPage`) holds the page object. Class
  `Scanner` has the fifteen `useState` fields and one method per handler.
  Each method updates the fields setter by setter, and its contract ties the
  new state to the handler function and keeps the invariant.
- `demo.dfy` (module `DemoPage`) holds the `conditions` table, the
  `isActive`/`isLocked` derivation, the click toggle as a function, and class
  `Demo` with the single `videoPlayingId` field.
- `wrappers.dfy` holds the `Option` type, which stands for a value that may
  be `null`.

Guards taken from the rendered page:
- The record button is `disabled` until ready.
- The mode buttons are `disabled` while recording.
- The footer is `pointer-events-none` while analysing.
- "Run Analysis" is rendered instead of the record controls once both
  captures exist.
- "Open Diagnostic" is rendered only when there is history.
- "Close Report" exists only inside the modal.
- The results modal is `fixed inset-0 z-[100]`, so while it is shown it
  covers the header and the footer. The model therefore also requires the
  modal to be closed for header and footer presses. The hidden keys sit at
  `z-[200]` and stay clickable.

The `Scanner.Record` method requires only that the record control is
rendered and not covered. Its `disabled` and inert-footer guards coincide
with the handler's own early return (`src/pages/Scanner.jsx:68`), which the
method keeps.

## Model

| member | source | states |
|---|---|---|
| ScannerModel.IsReady | src/pages/Scanner.jsx:34-35 | the system is ready exactly when every one of the four videos is buffered |
| ScannerModel.IsReadyForAnalysis | src/pages/Scanner.jsx:91 | "Run Analysis" is offered exactly when the capture of every mode exists |
| ScannerModel.HeaderText | src/pages/Scanner.jsx:107-110 | while analysing the label is "Analyzing " plus the phase name; otherwise it is "System Ready" exactly when ready and "Initializing Vision Model" exactly when not |
| ScannerModel.IsVisible | src/pages/Scanner.jsx:147-173 | an opaque looping capture video means recording outside analysis, and an opaque analysis clip means analysing |
| ScannerModel.VisibleVideo | src/pages/Scanner.jsx:143-181 | a video is opaque exactly when it is the one this function returns, so no state shows two videos at once |
| ScannerModel.Initial | src/pages/Scanner.jsx:19-39 | the mounted page satisfies the invariant, is not ready, has no history and the initial capture state, shows "Initializing Vision Model" and no video, and its initial result strings, written out separately, equal the `papilledema` triple |
| ScannerModel.MarkBuffered | src/pages/Scanner.jsx:146-172 | `onCanPlayThrough` sets that video's flag, leaves the other flags and everything outside the buffers unchanged, and keeps the invariant |
| ScannerModel.Record | src/pages/Scanner.jsx:67-72 | when not ready or while analysing nothing changes; otherwise recording flips, a stop in pupil mode sets `hasPupil` and a stop in retina mode sets `hasRetina`, a start sets neither, the other mode's flag never changes, nothing outside those three fields changes, and with the record control shown the invariant is kept |
| ScannerModel.SelectMode | src/pages/Scanner.jsx:209-212 | the mode becomes the chosen one, nothing else changes, and the invariant is kept |
| ScannerModel.StartAnalyze | src/pages/Scanner.jsx:62-65 | analysis starts in the pupil phase, the header reads "Analyzing pupil" and the pupil-analysis clip is the visible video; only those two fields change, and when "Run Analysis" is live the invariant is kept |
| ScannerModel.ResetState | src/pages/Scanner.jsx:44-51 | the capture part becomes the initial one (no recording, no analysis, no captures, mode pupil, phase none), nothing else changes, no video is visible, and the invariant is kept |
| ScannerModel.PupilClipEnded | src/pages/Scanner.jsx:166 | the phase becomes retina, nothing else changes, and during analysis the invariant is kept |
| ScannerModel.RetinaClipEnded | src/pages/Scanner.jsx:176-180 | the report is shown, history is recorded, the capture part is the initial one, and the buffers and result strings are unchanged |
| ScannerModel.OpenReport | src/pages/Scanner.jsx:113-116 | only `showResults` changes, to true; with history present the invariant is kept |
| ScannerModel.CloseReport | src/pages/Scanner.jsx:251 | only `showResults` changes, to false, and the invariant is kept |
| ScannerModel.Inject | src/pages/Scanner.jsx:74-89 | a hidden key sets the three result strings to its fixed triple and changes nothing else |
| ScannerModel.Enabled | src/pages/Scanner.jsx:189-224 | no footer control is live while analysing; with the modal shown neither the footer nor "Open Diagnostic" takes presses; "Open Diagnostic" needs history; record and mode presses need the record controls, and "Run Analysis" needs both captures |
| ScannerProofs.StepPreservesInv | src/pages/Scanner.jsx:189-224 | every event the controls allow keeps the invariant: both captures imply not recording, recording implies ready and not analysing, a capture implies ready, analysing exactly when the phase is not none, analysing implies both captures, and the modal implies history |
| ScannerProofs.RunPreservesInv | src/pages/Scanner.jsx:192-224 | every admissible sequence of events keeps the invariant |
| ScannerProofs.ReachableSatisfiesInv | src/pages/Scanner.jsx:19-39 | every state reachable from the mounted page through its controls satisfies the invariant |
| ScannerProofs.StepIsMonotone | src/pages/Scanner.jsx:146-178 | no event, allowed or not, clears a buffered flag or `hasHistory` |
| ScannerProofs.RunIsMonotone | src/pages/Scanner.jsx:29-35 | along any sequence of events the buffered flags and `hasHistory` only grow, so once ready the page stays ready |
| ScannerProofs.RecordingStepFreezesMode | src/pages/Scanner.jsx:209-212 | while recording, no allowed event other than the record button changes the mode, the captures or the recording flag |
| ScannerProofs.RecordingFreezesMode | src/pages/Scanner.jsx:209-212 | a recording keeps its mode and the captures through any admissible run without a record press |
| ScannerProofs.StopCreditsStartMode | src/pages/Scanner.jsx:67-72 | starting a recording, any allowed events, then the press that stops it credits the capture of the mode the recording began in and leaves the other capture as before |
| ScannerProofs.RecordingHidesRunAnalysis | src/pages/Scanner.jsx:192-224 | in a reachable recording state at most one capture exists and "Run Analysis" is not offered |
| ScannerProofs.RunAnalysisEvents | src/pages/Scanner.jsx:160-180 | the analysis event sequence runs the `startAnalyze`, pupil `onEnded` and retina `onEnded` handlers in turn, and is admissible exactly when each is allowed when it happens |
| ScannerProofs.AnalysisSequence | src/pages/Scanner.jsx:160-180 | from a state where "Run Analysis" is live, the header reads "Analyzing pupil" and then "Analyzing retina" with the matching clip visible; the sequence is admissible and ends with the report shown, history recorded, the initial capture state, the buffers and result strings unchanged, and the invariant kept |
| ScannerProofs.HeaderNamesLivePhase | src/pages/Scanner.jsx:108-109 | in a reachable state the analysing header reads "Analyzing pupil" or "Analyzing retina", never "Analyzing none" |
| ScannerProofs.VisibleWhileBusy | src/pages/Scanner.jsx:147-173 | in a reachable state some video is opaque exactly while recording or analysing |
| ScannerProofs.InjectIsIdempotent | src/pages/Scanner.jsx:75-89 | pressing a hidden key twice is the same as pressing it once |
| ScannerPage.Scanner.constructor | src/pages/Scanner.jsx:19-39 | the fields start as the initial state, which satisfies the invariant |
| ScannerPage.Scanner.OnCanPlayThrough | src/pages/Scanner.jsx:144-172 | the new state is `MarkBuffered` of the old one, and the invariant is kept |
| ScannerPage.Scanner.Record | src/pages/Scanner.jsx:67-72 | when the record button is rendered and not covered, the new state is `Record` of the old one, and the invariant is kept |
| ScannerPage.Scanner.SelectMode | src/pages/Scanner.jsx:209-212 | when the mode buttons are live, the new state is `SelectMode` of the old one, and the invariant is kept |
| ScannerPage.Scanner.StartAnalyze | src/pages/Scanner.jsx:62-65 | when "Run Analysis" is live, the new state is `StartAnalyze` of the old one, and the invariant is kept |
| ScannerPage.Scanner.ResetState | src/pages/Scanner.jsx:44-51 | the new state is `ResetState` of the old one, and the invariant is kept |
| ScannerPage.Scanner.OnPupilAnalysisEnded | src/pages/Scanner.jsx:160-167 | in the pupil phase the new state is `PupilClipEnded` of the old one, and the invariant is kept |
| ScannerPage.Scanner.OnRetinaAnalysisEnded | src/pages/Scanner.jsx:170-181 | in the retina phase the new state is `RetinaClipEnded` of the old one, and the invariant is kept |
| ScannerPage.Scanner.OpenDiagnostic | src/pages/Scanner.jsx:113-116 | with history and the modal closed, the new state is `OpenReport` of the old one, and the invariant is kept |
| ScannerPage.Scanner.CloseReport | src/pages/Scanner.jsx:251 | with the modal shown, the new state is `CloseReport` of the old one, and the invariant is kept |
| ScannerPage.Scanner.SetReport | src/pages/Scanner.jsx:74-89 | the three result setters of a hidden key replace the report and nothing else |
| ScannerPage.Scanner.Iritis | src/pages/Scanner.jsx:75-79 | the new state is the old one with the `iritis` triple, and the invariant is kept |
| ScannerPage.Scanner.Papilledema | src/pages/Scanner.jsx:80-84 | the new state is the old one with the `papilledema` triple, and the invariant is kept |
| ScannerPage.Scanner.RetinalBleed | src/pages/Scanner.jsx:85-89 | the new state is the old one with the `retinalBleed` triple, and the invariant is kept |
| DemoPage.Conditions | src/pages/Demo.jsx:14-18 | there are three cards and each card's id equals its index |
| DemoPage.IsActive | src/pages/Demo.jsx:33 | with nothing selected no card is active, and an active card's id is the only id that is active |
| DemoPage.IsLocked | src/pages/Demo.jsx:33-34 | no card is both active and locked; with nothing selected no card is locked; with a selection a card is locked exactly when it is not active |
| DemoPage.Click | src/pages/Demo.jsx:39-43 | a locked card's click leaves the selection unchanged; clicking the active card clears it; with nothing selected the click makes that card active; an unlocked click clears exactly when the card was active |
| DemoPage.ClickKeepsSelection | src/pages/Demo.jsx:39-43 | a click keeps `videoPlayingId` null or one of the card ids |
| DemoPage.ClickAllKeepsSelection | src/pages/Demo.jsx:6 | any sequence of clicks keeps `videoPlayingId` null or one of the card ids |
| DemoPage.SelectionLocksOthers | src/pages/Demo.jsx:33-34 | with a card selected, exactly that card is active and every other card is locked |
| DemoPage.ClickFromNothing | src/pages/Demo.jsx:33-41 | clicking a card with nothing selected makes it the only active card and locks the other two, and clicking it again clears the selection |
| DemoPage.Demo.constructor | src/pages/Demo.jsx:6 | the page starts with nothing selected |
| DemoPage.Demo.ClickCard | src/pages/Demo.jsx:32-43 | the new `videoPlayingId` is `Click` of the old one for that card's id, and it stays null or a card id |

## Left out

- `src/App.jsx` is the router that mounts the two pages. It has no logic of its own.
- `useWindowSize` and all layout arithmetic (`h/15`, `w/1.2`, the footer height) are left out. They are window-resize plumbing and floating-point division.
- The `document.body.style.overflow` effect is left out. It is a DOM side effect with no influence on the state.
- Media behaviour is left out: whether `autoPlay` actually starts a clip, replay on a second analysis, and a rejected play promise. The two `onEnded` events are modelled only as happening in their own phase.
- The two analysis clips are assumed to end only in their own phase, because each plays only while it is opaque. This is a media assumption, not a rendered guard.
- Keyboard activation is not modelled. `pointer-events-none` on the footer and the modal overlay block pointer input only. A focused footer button can still be activated with Tab and Enter, which during analysis would re-run `startAnalyze` and put the phase back to pupil, and with the modal open would reach the footer buttons. The guards in `Enabled` describe pointer input.
- A repeated `canplaythrough` is modelled, and it is harmless, because the flags only ever become true.
- Demo's `videoRefs` array and its preload effect are left out. They touch media elements only.
- CSS classes, animations, the "Next Steps" link and the rest of the JSX tree are left out. So is the static "Initializing Vision Model..." overlay, which shows exactly while the header reads "Initializing Vision Model" outside analysis.
