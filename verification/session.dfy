/**
 * The application as a whole: the field form and the submitted-job list,
 * joined by the submit callback, plus the dashboard's demo reset.
 */
module Session {
  import opened Opt
  import opened JsonValue
  import opened FieldForm
  import opened FormLemmas
  import JobList

  /** The form's state and the list of submitted jobs. */
  datatype App = App(form: Form, jobs: seq<Payload>)

  /** An input: an event on the form, or the dashboard's reset. */
  datatype Input = FormInput(e: Event) | ResetDemo

  /** The application when the page loads. */
  const Start := App(Initial, JobList.Initial())

  /**
   * One input. A form event updates the form, and a payload it emits is
   * appended to the job list; the reset empties the list and leaves the
   * form alone.
   */
  function Next(a: App, input: Input): (r: App)
    ensures input.ResetDemo? ==> r.form == a.form && r.jobs == []
    ensures input.FormInput? ==> r.form == Step(a.form, input.e).form
    ensures input.FormInput? && Step(a.form, input.e).emitted.None? ==> r.jobs == a.jobs
    ensures input.FormInput? && Step(a.form, input.e).emitted.Some? ==>
      r.jobs == a.jobs + [Step(a.form, input.e).emitted.value]
  {
    match input
    case ResetDemo => a.(jobs := JobList.Reset(a.jobs))
    case FormInput(e) =>
      var o := Step(a.form, e);
      match o.emitted
      case None => a.(form := o.form)
      case Some(p) => App(o.form, JobList.Append(a.jobs, p))
  }

  /** A series of inputs, applied left to right. */
  function Run(a: App, inputs: seq<Input>): (r: App)
    decreases |inputs|
    ensures (forall i :: 0 <= i < |inputs| ==> inputs[i].FormInput?) ==>
      && |a.jobs| <= |r.jobs| <= |a.jobs| + |inputs|
      && r.jobs[..|a.jobs|] == a.jobs
  {
    if |inputs| == 0 then a else Run(Next(a, inputs[0]), inputs[1..])
  }

  /** The form keeps its invariant and every recorded job is a complete payload. */
  predicate Good(a: App)
  {
    Inv(a.form) && forall i :: 0 <= i < |a.jobs| ==> CompletePayload(a.jobs[i])
  }

  /** One input keeps the application good. */
  lemma NextKeepsGood(a: App, input: Input)
    requires Good(a)
    ensures Good(Next(a, input))
  {
  }

  /** Any series of inputs keeps the application good. */
  lemma {:induction false} RunKeepsGood(a: App, inputs: seq<Input>)
    requires Good(a)
    decreases |inputs|
    ensures Good(Run(a, inputs))
  {
    if |inputs| > 0 {
      NextKeepsGood(a, inputs[0]);
      RunKeepsGood(Next(a, inputs[0]), inputs[1..]);
    }
  }

  /**
   * Whatever happens after the page loads, every job in the list carries a
   * truthy work order, task and location and non-empty material id, GPS
   * string and photo, and a captured material id is never empty.
   */
  lemma ReachableJobsAreComplete(inputs: seq<Input>)
    ensures var a := Run(Start, inputs);
      && (forall i :: 0 <= i < |a.jobs| ==> CompletePayload(a.jobs[i]))
      && (a.form.materialId.Some? ==> a.form.materialId.value != "")
  {
    RunKeepsGood(Start, inputs);
  }

  /** The inputs of one complete job packet, from upload to submission. */
  const HappyPath: seq<Input> := [
    FormInput(FilePicked(true)),
    FormInput(FileLoaded(Some(JObj(ShortFormDocument)))),
    FormInput(Click(ScanButton)),
    FormInput(CameraReady(Barcode, true)),
    FormInput(Detected(["GASPIPE-HDPE-4IN"])),
    FormInput(Click(GpsButton)),
    FormInput(GpsFix(Coordinates)),
    FormInput(Click(PhotoButton)),
    FormInput(CameraReady(Photo, true)),
    FormInput(Click(ShutterButton(Some(Frame)))),
    FormInput(Click(SubmitButton))
  ]

  const Coordinates := "40.712800° N, 74.006000° W"
  const Frame := "data:image/jpeg;base64,AAAA"
  const Loaded := Initial.(workOrder := Some(ShortFormDocument))
  const Scanned := Loaded.(materialId := Some("GASPIPE-HDPE-4IN"))
  const Located := Scanned.(gpsCoords := Some(Coordinates))
  const Photographed := Located.(photoUrl := Some(Frame))

  /** The states the complete packet passes through, one per input. */
  const HappyStates: seq<App> := [
    App(Initial, []),
    App(Loaded, []),
    App(Loaded.(mode := Barcode), []),
    App(Loaded.(mode := Barcode), []),
    App(Scanned, []),
    App(Scanned.(isLocating := true), []),
    App(Located, []),
    App(Located.(mode := Photo), []),
    App(Located.(mode := Photo), []),
    App(Photographed, []),
    App(Initial, [PayloadOf(Photographed)])
  ]

  /** Upload: picking and loading the short-form document stores it. */
  lemma UploadSteps()
    ensures Next(Start, HappyPath[0]) == HappyStates[0]
    ensures Next(HappyStates[0], HappyPath[1]) == HappyStates[1]
  {
  }

  /** Scan: opening the barcode view, the camera and a hit. */
  lemma ScanSteps()
    ensures Next(HappyStates[1], HappyPath[2]) == HappyStates[2]
    ensures Next(HappyStates[2], HappyPath[3]) == HappyStates[3]
    ensures Next(HappyStates[3], HappyPath[4]) == HappyStates[4]
  {
  }

  /** GPS: the request and its fix. */
  lemma GpsSteps()
    ensures Next(HappyStates[4], HappyPath[5]) == HappyStates[5]
    ensures Next(HappyStates[5], HappyPath[6]) == HappyStates[6]
  {
  }

  /** Photo: opening the photo view, the camera and the shutter. */
  lemma PhotoSteps()
    ensures Next(HappyStates[6], HappyPath[7]) == HappyStates[7]
    ensures Next(HappyStates[7], HappyPath[8]) == HappyStates[8]
    ensures Next(HappyStates[8], HappyPath[9]) == HappyStates[9]
  {
  }

  /** Submission: the complete form is recorded and cleared. */
  lemma SubmitSteps()
    ensures Next(HappyStates[9], HappyPath[10]) == HappyStates[10]
  {
  }

  /**
   * The complete packet: from the page load, the inputs above record one job
   * whose material id is the scanned value, and leave the form as it started.
   */
  lemma HappyPathRecordsOneJob()
    ensures |Run(Start, HappyPath).jobs| == 1
    ensures JobList.HasSubmittedJobs(Run(Start, HappyPath).jobs)
    ensures "materialId" in Run(Start, HappyPath).jobs[0]
    ensures Run(Start, HappyPath).jobs[0]["materialId"] == JStr("GASPIPE-HDPE-4IN")
    ensures Run(Start, HappyPath).form == Initial
  {
    UploadSteps();
    ScanSteps();
    GpsSteps();
    PhotoSteps();
    SubmitSteps();
    RunFollows(Start, HappyPath, HappyStates);
    assert HappyStates[10].jobs[0] == PayloadOf(Photographed);
  }

  /**
   * When each input takes the application to the next listed state, running
   * the inputs ends in the last one.
   */
  lemma {:induction false} RunFollows(a: App, inputs: seq<Input>, states: seq<App>)
    requires |states| == |inputs| > 0
    requires Next(a, inputs[0]) == states[0]
    requires forall k :: 0 <= k < |inputs| - 1 ==> Next(states[k], inputs[k + 1]) == states[k + 1]
    decreases |inputs|
    ensures Run(a, inputs) == states[|states| - 1]
  {
    if |inputs| > 1 {
      RunFollows(states[0], inputs[1..], states[1..]);
    }
  }
}
