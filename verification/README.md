# Locusview 2.0 field workflow — a Dafny model

This project models the client-side workflow of the Locusview 2.0 demo:
a field operative fills in a job packet (an uploaded work order, a scanned
material barcode, a GPS fix and a photo) and submits it to the application's
list of submitted jobs; a separate safety-checklist modal lets the
operative tick every item of a work order's checklist before confirming.

Everything is a pure state-transition function over immutable records:

- `Checklist` — the safety-checklist modal: seeding an unticked copy,
  toggling by identifier, the all-complete flag and the confirm gate.
- `FieldForm` — the job-packet form: a record of nullable captures, the
  capture mode (`Off | Barcode | Photo`, the source's `null | 'barcode' |
  'photo'`), the locating flag and two error slots; one function per
  handler, the buttons' enabled rules, and `Step`, which applies one event.
  Browser capabilities are inputs: a file-loaded event carries the parsed
  document (or nothing when parsing throws), a detection event carries the
  raw values found, the shutter carries the encoded frame, GPS events carry
  the formatted coordinates.
- `FormLemmas` — the invariant every event keeps, the completeness of every
  emitted payload, button gating, capture sessions and upload examples.
- `JobList` — the application's append-only job list with its reset and
  has-jobs flag.
- `Session` — the form and the job list joined by the submit callback, and
  runs of arbitrary input sequences.
- `Opt`, `JsonValue` — nullable values and results, and parsed JSON with
  JavaScript truthiness.

The declared types and the modal's wording promise more than the handlers
do. The model follows the handlers:

- The modal tells the operative that every item must be confirmed before
  proceeding (components/SafetyChecklistModal.tsx:50). Yet the form never
  opens the modal, and its submit gate checks only the work order, material
  id, GPS string and photo. Checklist completion therefore gates nothing.
- `isMaterialVerified` is declared (types.ts:22-27), but no handler sets it,
  so the model has no verified flag.
- The upload validator checks only that `workOrder`, `task` and `location`
  are truthy. A document shaped like the fixture work-order packets names
  its number `workOrderNumber`, so it is rejected (`FormLemmas.UploadExamples`).
- The application appends the submitted payload as it is. The submitted
  job type declares an instance id, a submission date, a completed
  checklist and three statuses (types.ts:41-51). None of them is set on the
  payload. The payload is the stored work order's properties with
  `materialId`, `gpsCoords` and `photoUrl` written over them.
- The form's reset clears the captures and both error slots. It leaves the
  capture mode and the locating flag as they were.

Asynchronous outcomes are applied the way the handlers apply them, without
checking the current capture mode. In particular, a barcode detection that
resolves after its session was cancelled still stores the material id and
closes whatever camera view is open (`FormLemmas.LateDetectionClosesPhotoView`).

## Model

| member | source | states |
|---|---|---|
| Checklist.Seed | components/SafetyChecklistModal.tsx:14-17 | the seeded copy has the same length, the same ids and prompts in the same order, and every item unticked |
| Checklist.Toggle | components/SafetyChecklistModal.tsx:19-25 | exactly the items whose id equals the toggled id have their tick reversed; every other item is unchanged; length, ids, prompts and order are kept |
| Checklist.AllComplete | components/SafetyChecklistModal.tsx:27 | the `every` fold holds iff every item is ticked, so it holds of an empty checklist |
| Checklist.Confirm | components/SafetyChecklistModal.tsx:29-33 | the checklist is handed over iff every item is ticked; what is handed over is the current checklist, every item ticked; otherwise nothing is handed over |
| Checklist.ConfirmEnabled | components/SafetyChecklistModal.tsx:77 | the confirm button is enabled iff clicking confirm would hand the checklist over |
| Checklist.ToggleTwice | components/SafetyChecklistModal.tsx:19-25 | toggling the same id twice restores the checklist |
| Checklist.ToggleCommutes | components/SafetyChecklistModal.tsx:19-25 | toggles of two ids may be applied in either order |
| Checklist.ToggleAllFlipsListed | components/SafetyChecklistModal.tsx:19-25 | a series of toggles over distinct ids reverses exactly the items whose id is in the series |
| Checklist.TickingEveryItemEnablesConfirm | components/SafetyChecklistModal.tsx:14-33 | after seeding, ticking every id once in any order enables the confirm button and confirm hands back every item ticked, ids and prompts intact |
| Checklist.SeedConfirmsOnlyWhenEmpty | components/SafetyChecklistModal.tsx:16-27 | a freshly seeded checklist can be confirmed iff it has no items |
| Checklist.GasMainExample | data/mockWorkOrders.ts:14-18 | on the gas-main checklist, two of three ticks leave confirm refused and the third enables it |
| FieldForm.Reset | components/FieldCrewApp.tsx:110-120 | the reset form is the initial form except for the capture mode and locating flag, which are kept; it cannot be submitted |
| FieldForm.AllDataCaptured | components/FieldCrewApp.tsx:224 | holds iff a work order is stored and the material id, GPS string and photo are non-null and non-empty; a freshly reset form never satisfies it |
| FieldForm.PayloadOf | components/FieldCrewApp.tsx:262-267 | the payload has the work order's keys plus the three capture keys; the captures are the captured strings, overriding same-named work-order fields; other work-order fields are copied |
| FieldForm.Submit | components/FieldCrewApp.tsx:260-270 | a payload is emitted iff work order, material id, GPS and photo are all present and non-empty; then it carries the captured values and the form is reset; otherwise the form is unchanged |
| FieldForm.Validate | components/FieldCrewApp.tsx:277-291 | a document is accepted iff it is an object with truthy `workOrder`, `task` and `location`; a parse failure or a parsed `null` gives the parse-failure message; anything else gives the missing-fields message |
| FieldForm.PickFile | components/FieldCrewApp.tsx:273-275 | choosing a file empties the upload-error slot and changes nothing else; with no file nothing changes |
| FieldForm.LoadFile | components/FieldCrewApp.tsx:277-291 | an object document with truthy `workOrder`, `task` and `location` becomes the work order with nothing else changed; any other outcome sets an upload error, keeps the work order and changes nothing else |
| FieldForm.FileReadFailure | components/FieldCrewApp.tsx:292-294 | a read failure sets the upload error and changes nothing else |
| FieldForm.WithMode | components/FieldCrewApp.tsx:145-147 | setting the mode changes no capture; entering a new camera view clears the error; re-setting the same mode or leaving the camera view keeps it |
| FieldForm.CameraFailure | components/FieldCrewApp.tsx:172-176 | a camera failure sets the camera error and closes the camera view, leaving the captures untouched |
| FieldForm.CameraOpened | components/FieldCrewApp.tsx:163-170 | a barcode session without a detector sets the unsupported error and closes the view, captures untouched; any other opened session changes nothing |
| FieldForm.Detect | components/FieldCrewApp.tsx:199-210 | the material id is set, and the view closed, only when the first barcode's raw value is non-empty; otherwise nothing changes |
| FieldForm.TakePhoto | components/FieldCrewApp.tsx:244-258 | the shutter always closes the camera view; with a drawing context the photo is stored, otherwise it is kept; the other captures are untouched |
| FieldForm.RequestGps | components/FieldCrewApp.tsx:226-229 | a GPS request sets the locating flag and clears the error, captures untouched |
| FieldForm.GpsSuccess | components/FieldCrewApp.tsx:230-234 | a fix stores the coordinates and clears the locating flag, nothing else changes |
| FieldForm.GpsFailure | components/FieldCrewApp.tsx:235-239 | a failure sets the GPS error and clears the locating flag; the coordinates and everything else are kept |
| FieldForm.CaptureButtonDisabled | components/FieldCrewApp.tsx:39 | a captured value always disables its button; an uncaptured one is disabled iff the extra condition holds |
| FieldForm.Enabled | components/FieldCrewApp.tsx:334-377 | an enabled button belongs to the view on screen: camera-view buttons only while a camera view is open, the shutter only in photo mode, packet-view buttons only when none is open; submit is enabled iff submitting would emit |
| FieldForm.Press | components/FieldCrewApp.tsx:335-370 | only the submit handler can emit; scan and photo open their view, cancel and the shutter close it, GPS starts locating; scan, photo, GPS and cancel change no capture |
| FieldForm.Step | components/FieldCrewApp.tsx:122-297 | a click on a hidden or disabled button does nothing; no browser callback emits a payload; a thrown detection changes nothing; upload events touch no capture or mode |
| FormLemmas.InitialInv | components/FieldCrewApp.tsx:96-103 | the initial form satisfies the invariant |
| FormLemmas.StepKeepsInv | components/FieldCrewApp.tsx:199-290 | every event keeps the invariant (a stored material id is non-empty, a stored work order was accepted) and every emitted payload is complete |
| FormLemmas.OnlySubmitEmits | components/FieldCrewApp.tsx:260-270 | an event emits a payload iff it is a click on an enabled submit button |
| FormLemmas.NoDoubleSubmit | components/FieldCrewApp.tsx:260-270 | after a submission the submit button is disabled and a second submit emits nothing |
| FormLemmas.CaptureButtons | components/FieldCrewApp.tsx:368-370 | in the packet view a capture button is enabled iff its value is not captured and it is not otherwise disabled (GPS: not locating); submit is enabled iff submitting would emit; a click on a disabled button does nothing |
| FormLemmas.GpsSingleRequest | components/FieldCrewApp.tsx:226-229 | after a GPS click the button is disabled until the request answers |
| FormLemmas.ScanSession | components/FieldCrewApp.tsx:189-213 | a scan click opens the barcode view with the error cleared; misses, empty first values and detector errors keep scanning; the first hit stores the id and closes the view |
| FormLemmas.FailedScanSession | components/FieldCrewApp.tsx:163-176 | a missing detector or a camera failure ends the scan with the matching error and nothing captured |
| FormLemmas.LateDetectionClosesPhotoView | components/FieldCrewApp.tsx:198-204 | a detection hit arriving while the photo view is open stores the material id and closes the photo view |
| FormLemmas.PhotoSession | components/FieldCrewApp.tsx:244-258 | the photo click opens the photo view with the shutter enabled; the shutter stores the frame and closes the view, other captures untouched |
| FormLemmas.UploadExamples | components/FieldCrewApp.tsx:282-290 | the short-form document is accepted; the fixture-shaped packet, an empty task and a parsed `null` are rejected with the matching message and leave the work order unchanged |
| FormLemmas.PickThenLoadClearsError | components/FieldCrewApp.tsx:273-290 | choosing a file and then loading an accepted document leaves no upload error and stores the document; loading alone keeps whatever error was there |
| JobList.Initial | App.tsx:7 | the job list starts empty |
| JobList.Append | App.tsx:9-11 | a submission grows the list by one, the new job last, every earlier job unchanged in place |
| JobList.Reset | App.tsx:13-15 | the reset list is empty whatever it held |
| JobList.AppendEachKeepsOrder | App.tsx:9-11 | submissions recorded one by one follow the earlier jobs in submission order |
| JobList.HasJobsFlag | App.tsx:17 | the has-jobs flag holds iff the list is non-empty: true after any submission, false after reset and at start |
| JobList.HasSubmittedJobs | App.tsx:17 | the flag holds iff the list is not the empty list |
| Session.Next | App.tsx:9-15 | a form event updates the form and appends exactly the payload it emits, if any; the demo reset empties the list and leaves the form |
| Session.Run | App.tsx:9-15 | without a demo reset, a series of inputs keeps every earlier job in place and adds at most one job per input |
| Session.RunKeepsGood | components/FieldCrewApp.tsx:260-268 | any input sequence keeps the form invariant and the completeness of every recorded job |
| Session.ReachableJobsAreComplete | components/FieldCrewApp.tsx:260-268 | from page load, every recorded job has a truthy work order, task and location and non-empty material id, GPS string and photo |
| Session.HappyPathRecordsOneJob | components/FieldCrewApp.tsx:224-268 | upload, scan, GPS, photo and submit record one job carrying the scanned id and return the form to its initial state |

## Left out

- Camera streams, `getUserMedia`, `play()`, stream teardown and the `requestAnimationFrame` polling loop are not modelled. A frame that is not ready only polls again, so it has no model event. Their outcomes appear only as the events `CameraFailed`, `CameraReady`, `Detected` and `DetectionThrew`.
- Canvas drawing and `toDataURL` are not modelled. The shutter event carries the encoded frame, or nothing when no 2D context is available.
- `FileReader` and `JSON.parse` are not modelled. The file-loaded event carries the parsed value, or nothing when parsing throws. The `typeof text === 'string'` test always holds for `readAsText`, so it is not modelled.
- The branches taken when the video or canvas element is missing are not modelled (FieldCrewApp.tsx:159, 180, 245). Those elements are always rendered while a camera view is open.
- Clearing the file input's value on reset is not modelled (FieldCrewApp.tsx:117-119). It is DOM state.
- The upload button only opens the file dialog, so it is not a model event. Its disabled rule (line 70) is not modelled either. `FilePicked` and `FileLoaded` may therefore arrive while a work order is stored, as they may reach the handler.
- GPS coordinate formatting with `toFixed(6)` is not modelled. The coordinate string is opaque.
- JSON numbers are reals, so NaN is not modelled. Property reads see only the document's own properties.
- All rendering, styling and icons are left out. The back-office dashboard's HTML report and download are left out, as is the AI chat assistant.
- The inspection, GIS and financial statuses, the financial cost synthesis and a material-verified flag are left out. They are declared as types, but no modelled code computes or changes them.
- The modal's cancel and backdrop close only call the parent's close callback, which holds no modal state.
