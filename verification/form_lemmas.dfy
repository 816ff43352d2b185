/**
 * Properties of the field job-packet form that relate several events: the
 * state invariant every event keeps, what a submitted payload always holds,
 * the capture buttons' gating, and worked examples.
 */
module FormLemmas {
  import opened Opt
  import opened JsonValue
  import opened FieldForm

  /**
   * What every reachable form satisfies: a captured material id is never
   * empty (only a non-empty raw value is taken) and a stored work order is
   * one the upload validator accepted.
   */
  predicate Inv(f: Form)
  {
    && (f.materialId.Some? ==> f.materialId.value != "")
    && (f.workOrder.Some? ==> Accepted(f.workOrder.value))
  }

  /** A payload whose work-order fields are truthy and whose three captures are non-empty strings. */
  predicate CompletePayload(p: Payload)
  {
    && Accepted(p)
    && (forall k :: k in CapturedKeys ==> k in p && p[k].JStr? && p[k].s != "")
  }

  /** The form starts in the invariant. */
  lemma InitialInv()
    ensures Inv(Initial)
  {
  }

  /**
   * Every event keeps the invariant, and whatever payload an event emits is
   * complete.
   */
  lemma StepKeepsInv(f: Form, e: Event)
    requires Inv(f)
    ensures Inv(Step(f, e).form)
    ensures Step(f, e).emitted.Some? ==> CompletePayload(Step(f, e).emitted.value)
  {
  }

  /** Only a click on an enabled submit button hands a payload to the job list. */
  lemma OnlySubmitEmits(f: Form, e: Event)
    ensures Step(f, e).emitted.Some? <==> e == Click(SubmitButton) && Enabled(f, SubmitButton)
  {
  }

  /** A submission is followed by a form that cannot be submitted again. */
  lemma NoDoubleSubmit(f: Form)
    ensures !Enabled(Step(f, Click(SubmitButton)).form, SubmitButton)
    ensures Step(Step(f, Click(SubmitButton)).form, Click(SubmitButton)).emitted.None?
  {
  }

  /**
   * The packet view's buttons: a capture button is enabled exactly when its
   * value is not yet captured and it is not otherwise disabled (the GPS
   * button while locating); submit is enabled exactly when everything is
   * captured. A click on a disabled capture button does nothing.
   */
  lemma CaptureButtons(f: Form)
    requires f.mode == Off
    ensures Enabled(f, ScanButton) <==> !(f.materialId.Some? && f.materialId.value != "")
    ensures Enabled(f, GpsButton) <==> !(f.gpsCoords.Some? && f.gpsCoords.value != "") && !f.isLocating
    ensures Enabled(f, PhotoButton) <==> !(f.photoUrl.Some? && f.photoUrl.value != "")
    ensures Enabled(f, SubmitButton) <==> Submit(f).emitted.Some?
    ensures Present(f.materialId) ==> Step(f, Click(ScanButton)) == Outcome(f, None)
    ensures Present(f.gpsCoords) || f.isLocating ==> Step(f, Click(GpsButton)) == Outcome(f, None)
    ensures Present(f.photoUrl) ==> Step(f, Click(PhotoButton)) == Outcome(f, None)
  {
  }

  /** One GPS click starts exactly one request: a second click before the answer does nothing. */
  lemma GpsSingleRequest(f: Form)
    requires Enabled(f, GpsButton)
    ensures Step(f, Click(GpsButton)).form.isLocating
    ensures var g := Step(f, Click(GpsButton)).form;
      Step(g, Click(GpsButton)) == Outcome(g, None)
  {
  }

  /**
   * A barcode session: the scan click opens the barcode view with the error
   * cleared; misses and failed detections leave it scanning; the first hit
   * stores the material id, closes the view, and disables the scan button.
   */
  lemma ScanSession(f: Form, v: string)
    requires f.mode == Off && !Present(f.materialId)
    requires v != ""
    ensures var s := Step(f, Click(ScanButton)).form;
      && s.mode == Barcode && s.error.None? && SameCaptures(f, s)
      && Step(s, Detected([])).form == s
      && Step(s, Detected(["", v])).form == s
      && Step(s, DetectionThrew).form == s
      && Step(s, CameraReady(Barcode, true)).form == s
    ensures var s := Step(Step(f, Click(ScanButton)).form, Detected([v])).form;
      && s.mode == Off && s.materialId == Some(v)
      && !Enabled(s, ScanButton)
  {
  }

  /**
   * A barcode view without a detector, or a camera that will not open, ends
   * the session with an error and nothing captured.
   */
  lemma FailedScanSession(f: Form)
    requires f.mode == Off && !Present(f.materialId)
    ensures var s := Step(Step(f, Click(ScanButton)).form, CameraReady(Barcode, false)).form;
      s.mode == Off && s.error == Some(UnsupportedMessage) && SameCaptures(f, s)
    ensures var s := Step(Step(f, Click(ScanButton)).form, CameraFailed).form;
      s.mode == Off && s.error == Some(CameraMessage) && SameCaptures(f, s)
  {
  }

  /**
   * Detection outcomes are not checked against the current mode: a hit that
   * resolves after the barcode view was cancelled and the photo view opened
   * still stores the material id and closes the photo view.
   */
  lemma LateDetectionClosesPhotoView(f: Form, v: string)
    requires f.mode == Photo && v != ""
    ensures Step(f, Detected([v])).form.mode == Off
    ensures Step(f, Detected([v])).form.materialId == Some(v)
  {
  }

  /** The photo session: the shutter stores the frame and closes the view. */
  lemma PhotoSession(f: Form, dataUrl: string)
    requires f.mode == Off && !Present(f.photoUrl)
    ensures var s := Step(f, Click(PhotoButton)).form;
      s.mode == Photo && Enabled(s, ShutterButton(Some(dataUrl))) && !Enabled(s, SubmitButton)
    ensures var s := Step(Step(f, Click(PhotoButton)).form, Click(ShutterButton(Some(dataUrl)))).form;
      s.mode == Off && s.photoUrl == Some(dataUrl)
      && s.workOrder == f.workOrder && s.materialId == f.materialId && s.gpsCoords == f.gpsCoords
  {
  }

  /**
   * Choosing a file clears the upload error that an earlier attempt left,
   * and an accepted document then loads without one: the accept branch
   * itself never clears the slot.
   */
  lemma PickThenLoadClearsError(f: Form, doc: Document)
    requires Accepted(doc)
    ensures Step(Step(f, FilePicked(true)).form, FileLoaded(Some(JObj(doc)))).form.fileError.None?
    ensures Step(Step(f, FilePicked(true)).form, FileLoaded(Some(JObj(doc)))).form.workOrder == Some(doc)
    ensures Step(f, FileLoaded(Some(JObj(doc)))).form.fileError == f.fileError
  {
  }

  /** A work-order document in the short form the validator looks for. */
  const ShortFormDocument: Document := map[
    "workOrder" := JStr("GAS-MAIN-2024-001"),
    "task" := JStr("Gas Main Replacement"),
    "location" := JStr("Corner of 5th Ave & Elm St")]

  /** The gas-main packet of the fixture data, as a document: it names its number `workOrderNumber`. */
  const PacketDocument: Document := map[
    "id" := JStr("wo-gas-123"),
    "workOrderNumber" := JStr("GAS-MAIN-2024-001"),
    "task" := JStr("Gas Main Replacement"),
    "location" := JStr("Corner of 5th Ave & Elm St"),
    "billOfMaterials" := JArr([]),
    "safetyChecklist" := JArr([])]

  /**
   * Upload outcomes: the short form is accepted; a packet shaped like the
   * fixture data lacks `workOrder` and is rejected; a file holding `null`
   * is reported as a parse failure; an empty task string is rejected. A
   * rejection leaves the stored work order alone.
   */
  lemma UploadExamples(f: Form)
    ensures Step(f, FileLoaded(Some(JObj(ShortFormDocument)))).form.workOrder == Some(ShortFormDocument)
    ensures var g := Step(f, FileLoaded(Some(JObj(PacketDocument)))).form;
      g.fileError == Some(MissingFieldsMessage) && g.workOrder == f.workOrder
    ensures var g := Step(f, FileLoaded(Some(JNull))).form;
      g.fileError == Some(ParseFailureMessage) && g.workOrder == f.workOrder
    ensures var g := Step(f, FileLoaded(Some(JObj(ShortFormDocument["task" := JStr("")])))).form;
      g.fileError == Some(MissingFieldsMessage) && g.workOrder == f.workOrder
  {
  }
}
