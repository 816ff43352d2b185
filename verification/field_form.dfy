/**
 * The field job-packet form: a record of nullable captured values plus the
 * capture mode, the GPS "locating" flag and two error slots, driven by
 * discrete events. Browser capabilities (file reader, camera, barcode
 * detector, geolocation) appear only as the outcomes their callbacks deliver.
 */
module FieldForm {
  import opened Opt
  import opened JsonValue

  /** The camera view in use: none, barcode scanning, or photo taking. */
  datatype Mode = Off | Barcode | Photo

  /** The form's whole state. */
  datatype Form = Form(
    workOrder: Option<Document>,
    materialId: Option<string>,
    gpsCoords: Option<string>,
    photoUrl: Option<string>,
    mode: Mode,
    isLocating: bool,
    error: Option<string>,
    fileError: Option<string>)

  /** The state the form starts in. */
  const Initial := Form(None, None, None, None, Off, false, None, None)

  const MissingFieldsMessage := "Invalid work order file. Missing required fields."
  const ParseFailureMessage := "Failed to parse JSON. Please upload a valid file."
  const ReadFailureMessage := "Failed to read the file."
  const CameraMessage := "Could not access camera. Please check permissions."
  const UnsupportedMessage := "Barcode scanner is not supported on this browser."
  const GpsMessage := "Could not get GPS location. Please enable location services."

  /** The property names the submit action writes over the work order's own. */
  const CapturedKeys: set<string> := {"materialId", "gpsCoords", "photoUrl"}

  /** `!!value` on a nullable string: present and not empty. */
  predicate Present(v: Option<string>)
  {
    v.Some? && v.value != ""
  }

  /** A parsed document the upload validator accepts: work order, task and location are all truthy. */
  predicate Accepted(doc: Document)
  {
    Truthy(Field(doc, "workOrder")) && Truthy(Field(doc, "task")) && Truthy(Field(doc, "location"))
  }

  /** Everything the submit button waits for. */
  predicate AllDataCaptured(f: Form)
    ensures AllDataCaptured(f) <==>
      && f.workOrder.Some?
      && f.materialId.Some? && |f.materialId.value| > 0
      && f.gpsCoords.Some? && |f.gpsCoords.value| > 0
      && f.photoUrl.Some? && |f.photoUrl.value| > 0
    ensures AllDataCaptured(f) ==> f != Initial.(mode := f.mode, isLocating := f.isLocating)
  {
    f.workOrder.Some? && Present(f.materialId) && Present(f.gpsCoords) && Present(f.photoUrl)
  }

  /** The four captured values are the same in both states. */
  predicate SameCaptures(f: Form, g: Form)
  {
    g.workOrder == f.workOrder && g.materialId == f.materialId
    && g.gpsCoords == f.gpsCoords && g.photoUrl == f.photoUrl
  }

  // ---------------------------------------------------------------------------
  // Reset and submit

  /**
   * Clearing the form after a submission: the captures and both error slots
   * return to their initial values; the capture mode and the locating flag
   * are not touched.
   */
  function Reset(f: Form): (r: Form)
    ensures r == Initial.(mode := f.mode, isLocating := f.isLocating)
    ensures !AllDataCaptured(r)
  {
    f.(workOrder := None, materialId := None, gpsCoords := None, photoUrl := None,
       error := None, fileError := None)
  }

  /** A submitted job packet: the work order's properties with the three captures written over them. */
  type Payload = map<string, Json>

  /** What one event does: the next state, and the payload handed to the job list, if any. */
  datatype Outcome = Outcome(form: Form, emitted: Option<Payload>)

  /** The payload built from a complete form. */
  function PayloadOf(f: Form): (p: Payload)
    requires AllDataCaptured(f)
    ensures p.Keys == f.workOrder.value.Keys + CapturedKeys
    ensures p["materialId"] == JStr(f.materialId.value)
    ensures p["gpsCoords"] == JStr(f.gpsCoords.value)
    ensures p["photoUrl"] == JStr(f.photoUrl.value)
    ensures forall k :: k in f.workOrder.value && k !in CapturedKeys ==> p[k] == f.workOrder.value[k]
  {
    f.workOrder.value + map[
      "materialId" := JStr(f.materialId.value),
      "gpsCoords" := JStr(f.gpsCoords.value),
      "photoUrl" := JStr(f.photoUrl.value)]
  }

  /**
   * The submit action. With a work order and non-empty material id, GPS string
   * and photo, it emits one payload and clears the form; otherwise it emits
   * nothing and changes nothing.
   */
  function Submit(f: Form): (r: Outcome)
    ensures r.emitted.Some? <==>
      && f.workOrder.Some?
      && f.materialId.Some? && f.materialId.value != ""
      && f.gpsCoords.Some? && f.gpsCoords.value != ""
      && f.photoUrl.Some? && f.photoUrl.value != ""
    ensures r.emitted.None? ==> r.form == f
    ensures r.emitted.Some? ==>
      && r.form == Initial.(mode := f.mode, isLocating := f.isLocating)
      && r.emitted.value.Keys == f.workOrder.value.Keys + CapturedKeys
      && r.emitted.value["materialId"] == JStr(f.materialId.value)
      && r.emitted.value["gpsCoords"] == JStr(f.gpsCoords.value)
      && r.emitted.value["photoUrl"] == JStr(f.photoUrl.value)
      && forall k :: k in f.workOrder.value && k !in CapturedKeys ==> r.emitted.value[k] == f.workOrder.value[k]
  {
    if AllDataCaptured(f) then Outcome(Reset(f), Some(PayloadOf(f))) else Outcome(f, None)
  }

  // ---------------------------------------------------------------------------
  // Work-order upload

  /**
   * The upload validator, given what parsing produced (None when parsing
   * threw). A document is accepted exactly when it is an object whose
   * `workOrder`, `task` and `location` are all truthy. Reading a property of
   * a parsed `null` throws, which lands in the parse-failure handler; any
   * other non-object has no such properties and is reported as missing
   * fields.
   */
  function Validate(parsed: Option<Json>): (r: Result<Document>)
    ensures r.Ok? <==> parsed.Some? && parsed.value.JObj? && Accepted(parsed.value.fields)
    ensures r.Ok? ==> r.value == parsed.value.fields
    ensures r.Err? && (parsed.None? || parsed.value.JNull?) ==> r.error == ParseFailureMessage
    ensures r.Err? && parsed.Some? && !parsed.value.JNull? ==> r.error == MissingFieldsMessage
  {
    match parsed
    case None => Err(ParseFailureMessage)
    case Some(JNull) => Err(ParseFailureMessage)
    case Some(JObj(doc)) =>
      if Accepted(doc) then Ok(doc) else Err(MissingFieldsMessage)
    case Some(_) => Err(MissingFieldsMessage)
  }

  /**
   * A file was chosen in the upload dialog: a previous upload error is
   * cleared and nothing else changes. With no file chosen nothing happens.
   */
  function PickFile(f: Form, hasFile: bool): (r: Form)
    ensures hasFile ==> r.fileError.None? && r.(fileError := f.fileError) == f
    ensures !hasFile ==> r == f
  {
    if hasFile then f.(fileError := None) else f
  }

  /**
   * The file reader delivered the file's parsed content. An accepted document
   * becomes the work order; anything else sets the upload error and leaves
   * the work order as it was.
   */
  function LoadFile(f: Form, parsed: Option<Json>): (r: Form)
    ensures parsed.Some? && parsed.value.JObj? && Accepted(parsed.value.fields) ==>
      r == f.(workOrder := Some(parsed.value.fields))
    ensures !(parsed.Some? && parsed.value.JObj? && Accepted(parsed.value.fields)) ==>
      && r.workOrder == f.workOrder
      && r.fileError.Some?
      && r.(fileError := f.fileError) == f
  {
    match Validate(parsed)
    case Ok(doc) => f.(workOrder := Some(doc))
    case Err(message) => f.(fileError := Some(message))
  }

  /** The file reader failed: the upload error is set and nothing else changes. */
  function FileReadFailure(f: Form): (r: Form)
    ensures r.fileError == Some(ReadFailureMessage)
    ensures r.(fileError := f.fileError) == f
  {
    f.(fileError := Some(ReadFailureMessage))
  }

  // ---------------------------------------------------------------------------
  // Capture mode

  /**
   * Setting the capture mode. When the mode actually changes to a camera
   * view, the camera effect starts and first clears the error slot; setting
   * the mode it already has does nothing, and leaving the camera view keeps
   * the error.
   */
  function WithMode(f: Form, m: Mode): (r: Form)
    ensures r.mode == m
    ensures SameCaptures(f, r) && r.isLocating == f.isLocating && r.fileError == f.fileError
    ensures m != f.mode && m != Off ==> r.error.None?
    ensures m == f.mode || m == Off ==> r.error == f.error
  {
    if m == f.mode then f
    else if m == Off then f.(mode := Off)
    else f.(mode := m, error := None)
  }

  /** Opening the camera failed: the error is reported and the camera view is left. */
  function CameraFailure(f: Form): (r: Form)
    ensures r.error == Some(CameraMessage) && r.mode == Off
    ensures SameCaptures(f, r) && r.isLocating == f.isLocating && r.fileError == f.fileError
  {
    WithMode(f.(error := Some(CameraMessage)), Off)
  }

  /**
   * The camera opened for a session started in `session` mode. A barcode
   * session without a barcode detector reports the error and leaves the
   * camera view; in every other case the state is untouched (the scan loop
   * or the photo preview runs outside it).
   */
  function CameraOpened(f: Form, session: Mode, detectorSupported: bool): (r: Form)
    ensures session == Barcode && !detectorSupported ==>
      && r.error == Some(UnsupportedMessage) && r.mode == Off
      && SameCaptures(f, r) && r.isLocating == f.isLocating && r.fileError == f.fileError
    ensures !(session == Barcode && !detectorSupported) ==> r == f
  {
    if session == Barcode && !detectorSupported then WithMode(f.(error := Some(UnsupportedMessage)), Off)
    else f
  }

  /**
   * A barcode-detection call resolved with the raw values of the barcodes it
   * found. Only a non-empty raw value on the first barcode is taken: it
   * becomes the material id and the camera view is left. Otherwise scanning
   * goes on and nothing changes.
   */
  function Detect(f: Form, rawValues: seq<string>): (r: Form)
    ensures |rawValues| > 0 && rawValues[0] != "" ==>
      && r.materialId == Some(rawValues[0]) && r.mode == Off
      && r.workOrder == f.workOrder && r.gpsCoords == f.gpsCoords && r.photoUrl == f.photoUrl
      && r.isLocating == f.isLocating && r.fileError == f.fileError && r.error == f.error
    ensures !(|rawValues| > 0 && rawValues[0] != "") ==> r == f
  {
    if |rawValues| > 0 && rawValues[0] != "" then WithMode(f.(materialId := Some(rawValues[0])), Off)
    else f
  }

  /**
   * The shutter handler in the photo view. When a 2D drawing context is
   * available (`grab` holds the encoded frame) the photo is stored; in
   * either case the camera view is left.
   */
  function TakePhoto(f: Form, grab: Option<string>): (r: Form)
    ensures r.mode == Off
    ensures grab.Some? ==> r.photoUrl == grab
    ensures grab.None? ==> r.photoUrl == f.photoUrl
    ensures r.workOrder == f.workOrder && r.materialId == f.materialId && r.gpsCoords == f.gpsCoords
    ensures r.isLocating == f.isLocating && r.fileError == f.fileError && r.error == f.error
  {
    match grab
    case Some(dataUrl) => WithMode(f.(photoUrl := Some(dataUrl)), Off)
    case None => WithMode(f, Off)
  }

  // ---------------------------------------------------------------------------
  // GPS

  /** The GPS button: a single position request starts, and the error slot is cleared. */
  function RequestGps(f: Form): (r: Form)
    ensures r.isLocating && r.error.None?
    ensures SameCaptures(f, r) && r.mode == f.mode && r.fileError == f.fileError
  {
    f.(isLocating := true, error := None)
  }

  /** The position request succeeded with the formatted coordinates. */
  function GpsSuccess(f: Form, coords: string): (r: Form)
    ensures r.gpsCoords == Some(coords) && !r.isLocating
    ensures r.(gpsCoords := f.gpsCoords, isLocating := f.isLocating) == f
  {
    f.(gpsCoords := Some(coords), isLocating := false)
  }

  /** The position request failed: the error is set and the coordinates are kept. */
  function GpsFailure(f: Form): (r: Form)
    ensures r.error == Some(GpsMessage) && !r.isLocating
    ensures r.gpsCoords == f.gpsCoords
    ensures r.(error := f.error, isLocating := f.isLocating) == f
  {
    f.(error := Some(GpsMessage), isLocating := false)
  }

  // ---------------------------------------------------------------------------
  // Buttons and events

  /** The buttons of the two views. The shutter carries the encoded frame, or None without a drawing context. */
  datatype Button =
    | ScanButton
    | GpsButton
    | PhotoButton
    | SubmitButton
    | ShutterButton(grab: Option<string>)
    | CancelButton

  /** The capture-button rule: a button is disabled once its value is captured or when it is otherwise disabled. */
  predicate CaptureButtonDisabled(captured: bool, disabled: bool)
    ensures captured ==> CaptureButtonDisabled(captured, disabled)
    ensures !captured ==> (CaptureButtonDisabled(captured, disabled) <==> disabled)
  {
    captured || disabled
  }

  /**
   * Whether a button is on screen and enabled. The packet view (scan, GPS,
   * photo, submit) is shown when no camera view is open; the camera view
   * shows cancel, and the shutter only in photo mode.
   */
  predicate Enabled(f: Form, b: Button)
    ensures Enabled(f, b) ==> (f.mode == Off <==> !(b.ShutterButton? || b.CancelButton?))
    ensures Enabled(f, b) && b.ShutterButton? ==> f.mode == Photo
    ensures b.SubmitButton? ==> (Enabled(f, b) <==> f.mode == Off && Submit(f).emitted.Some?)
  {
    match b
    case ScanButton => f.mode == Off && !CaptureButtonDisabled(Present(f.materialId), false)
    case GpsButton => f.mode == Off && !CaptureButtonDisabled(Present(f.gpsCoords), f.isLocating)
    case PhotoButton => f.mode == Off && !CaptureButtonDisabled(Present(f.photoUrl), false)
    case SubmitButton => f.mode == Off && AllDataCaptured(f)
    case ShutterButton(_) => f.mode == Photo
    case CancelButton => f.mode != Off
  }

  /**
   * The click handler of each button. Only submit can emit a payload; the
   * scan and photo buttons open their camera view, cancel and the shutter
   * close it, and the GPS button starts locating.
   */
  function Press(f: Form, b: Button): (r: Outcome)
    ensures r.emitted.Some? ==> b.SubmitButton?
    ensures b.ScanButton? ==> r.form.mode == Barcode
    ensures b.PhotoButton? ==> r.form.mode == Photo
    ensures b.CancelButton? || b.ShutterButton? ==> r.form.mode == Off
    ensures b.GpsButton? ==> r.form.isLocating && r.form.mode == f.mode
    ensures !b.SubmitButton? && !b.ShutterButton? ==> SameCaptures(f, r.form)
  {
    match b
    case ScanButton => Outcome(WithMode(f, Barcode), None)
    case GpsButton => Outcome(RequestGps(f), None)
    case PhotoButton => Outcome(WithMode(f, Photo), None)
    case SubmitButton => Submit(f)
    case ShutterButton(grab) => Outcome(TakePhoto(f, grab), None)
    case CancelButton => Outcome(WithMode(f, Off), None)
  }

  /**
   * Everything that can happen to the form: a click, or the outcome of a
   * browser callback. Callback outcomes are applied as the handlers apply
   * them, without checking the current capture mode.
   */
  datatype Event =
    | Click(button: Button)
    | FilePicked(hasFile: bool)
    | FileLoaded(parsed: Option<Json>)
    | FileReadFailed
    | CameraFailed
    | CameraReady(session: Mode, detectorSupported: bool)
    | Detected(rawValues: seq<string>)
    | DetectionThrew
    | GpsFix(coords: string)
    | GpsFailed

  /**
   * One event's effect. A click on a hidden or disabled button does nothing,
   * and no browser callback ever emits a payload.
   */
  function Step(f: Form, e: Event): (r: Outcome)
    ensures e.Click? && !Enabled(f, e.button) ==> r == Outcome(f, None)
    ensures !e.Click? ==> r.emitted.None?
    ensures e.DetectionThrew? ==> r.form == f
    ensures e.FilePicked? || e.FileLoaded? || e.FileReadFailed? ==>
      r.form.materialId == f.materialId && r.form.gpsCoords == f.gpsCoords
      && r.form.photoUrl == f.photoUrl && r.form.mode == f.mode
  {
    match e
    case Click(b) => if Enabled(f, b) then Press(f, b) else Outcome(f, None)
    case FilePicked(hasFile) => Outcome(PickFile(f, hasFile), None)
    case FileLoaded(parsed) => Outcome(LoadFile(f, parsed), None)
    case FileReadFailed => Outcome(FileReadFailure(f), None)
    case CameraFailed => Outcome(CameraFailure(f), None)
    case CameraReady(session, detectorSupported) => Outcome(CameraOpened(f, session, detectorSupported), None)
    case Detected(rawValues) => Outcome(Detect(f, rawValues), None)
    case DetectionThrew => Outcome(f, None)
    case GpsFix(coords) => Outcome(GpsSuccess(f, coords), None)
    case GpsFailed => Outcome(GpsFailure(f), None)
  }
}
