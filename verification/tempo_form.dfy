/**
 * The pure decisions of the TEMPO visualization page: validating the form,
 * reading the bounding-box field, building the request bodies, turning the
 * backend's answers into the result the page stores, one step of job polling,
 * and which panel the page shows for its state.
 */
module TempoForm {
  import opened Wrappers
  import opened Text
  import opened Http

  const Collection := "C2930730944-LARC_CLOUD"
  const MissingTimes := "Please select both start and end times"
  const TimesOutOfOrder := "End time must be after start time"
  const BboxFormat := "Bounding box must be in format: west, south, east, north (e.g., -150, -40, 14, 65)"

  /** The loading messages and fallback texts the page uses. */
  const LoadingSample := "Loading sample data..."
  const GeneratingSample := "Generating sample visualizations..."
  const GeneratingAllThree := "Generating all three visualizations..."
  const TestingConnection := "Testing API connection..."
  const NotAvailable := "API is not available"
  const SampleFailure := "Failed to generate sample data"
  const GenerateFailure := "Failed to generate visualizations"
  const StartFailure := "Failed to start parallel processing"
  const JobFailed := "Job failed"
  const AllThreePlot := "all_three"
  const PreloadJobId := "preload"

  /** The default box, as the form shows it and as the preload sends it. */
  const DefaultBboxText := "-150, -40, 14, 65"
  const DefaultBbox: seq<real> := [-150.0, -40.0, 14.0, 65.0]

  /** The form fields, all kept as the strings the inputs hold. */
  datatype Form = Form(startTime: string, endTime: string, bbox: string, variable: string, plotType: string)

  const InitialForm := Form("2023-12-30T22:30", "2023-12-30T22:45", DefaultBboxText, "product/vertical_column", "map")

  /** `new Date(s)` reduced to its time value; `None` is an Invalid Date. */
  type DateParser = string -> Option<int>

  /** `parseFloat(s)`; `None` is `NaN`. */
  type NumberParser = string -> Option<real>

  // ---------------------------------------------------------------------------
  // Validation

  /** `startDate >= endDate` on two dates: false as soon as either is invalid. */
  predicate OutOfOrder(start: Option<int>, end: Option<int>)
  {
    start.Some? && end.Some? && start.value >= end.value
  }

  /** The error the form check throws before anything is sent, if any. */
  function ValidateTimes(form: Form, parseDate: DateParser): (r: Option<string>)
    ensures r == Some(MissingTimes) <==> form.startTime == "" || form.endTime == ""
    ensures r == Some(TimesOutOfOrder) <==>
      form.startTime != "" && form.endTime != "" && OutOfOrder(parseDate(form.startTime), parseDate(form.endTime))
    ensures r.None? || r == Some(MissingTimes) || r == Some(TimesOutOfOrder)
    ensures form.startTime != "" && form.endTime != "" && parseDate(form.startTime).None? ==> r.None?
  {
    if form.startTime == "" || form.endTime == "" then Some(MissingTimes)
    else if OutOfOrder(parseDate(form.startTime), parseDate(form.endTime)) then Some(TimesOutOfOrder)
    else None
  }

  // ---------------------------------------------------------------------------
  // The bounding-box field

  /** `bbox.split(',').map(part => parseFloat(part.trim()))`. */
  function ParseParts(bbox: string, parseFloat: NumberParser): (r: seq<Option<real>>)
    ensures |r| == Count(bbox, ',') + 1
    ensures forall i :: 0 <= i < |r| ==> r[i] == parseFloat(Trim(Split(bbox, ',')[i]))
  {
    var parts := Split(bbox, ',');
    seq(|parts|, i requires 0 <= i < |parts| => parseFloat(Trim(parts[i])))
  }

  predicate AllNumbers(xs: seq<Option<real>>)
  {
    forall i :: 0 <= i < |xs| ==> xs[i].Some?
  }

  function Numbers(xs: seq<Option<real>>): (r: seq<real>)
    requires AllNumbers(xs)
    ensures |r| == |xs| && forall i :: 0 <= i < |xs| ==> xs[i] == Some(r[i])
  {
    seq(|xs|, i requires 0 <= i < |xs| => xs[i].value)
  }

  /** The box the parallel path sends: none for a blank field, four numbers,
      or the format error when there are not four parts or one is not a number. */
  function StrictBbox(bbox: string, parseFloat: NumberParser): (r: Result<Option<seq<real>>, string>)
    ensures r == Success(None) <==> AllSpace(bbox)
    ensures r.Failure? <==>
      !AllSpace(bbox) && !(Count(bbox, ',') == 3 && AllNumbers(ParseParts(bbox, parseFloat)))
    ensures r.Failure? ==> r.error == BboxFormat
    ensures r.Success? && r.value.Some? ==>
      |r.value.value| == 4 && Count(bbox, ',') == 3 &&
      forall i :: 0 <= i < 4 ==> parseFloat(Trim(Split(bbox, ',')[i])) == Some(r.value.value[i])
  {
    if Trim(bbox) == "" then Success(None)
    else
      var parts := ParseParts(bbox, parseFloat);
      if |parts| == 4 && AllNumbers(parts) then Success(Some(Numbers(parts)))
      else Failure(BboxFormat)
  }

  /** The box the `all_three` path sends: attached whenever a non-empty field
      splits into four parts, with no check that they are numbers (a `NaN`
      part travels as `null`). */
  function LenientBbox(bbox: string, parseFloat: NumberParser): (r: Option<seq<Option<real>>>)
    ensures r.Some? <==> bbox != "" && Count(bbox, ',') == 3
    ensures r.Some? ==> (|r.value| == 4 &&
      forall i :: 0 <= i < 4 ==> r.value[i] == parseFloat(Trim(Split(bbox, ',')[i])))
  {
    if bbox == "" then None
    else
      var parts := ParseParts(bbox, parseFloat);
      if |parts| == 4 then Some(parts) else None
  }

  /** Every box the parallel path accepts, the `all_three` path sends with the same numbers. */
  lemma StrictAcceptedIsSentLeniently(bbox: string, parseFloat: NumberParser)
    requires StrictBbox(bbox, parseFloat).Success? && StrictBbox(bbox, parseFloat).value.Some?
    ensures var box := StrictBbox(bbox, parseFloat).value.value;
      LenientBbox(bbox, parseFloat).Some? &&
      forall i :: 0 <= i < 4 ==> LenientBbox(bbox, parseFloat).value[i] == Some(box[i])
  {
    assert !AllSpace(bbox);
  }

  /** The converse fails: a four-part field with a part that is not a number is
      rejected by the parallel path and still sent, with a `null`, by the other. */
  lemma LenientSendsWhatStrictRejects(bbox: string, parseFloat: NumberParser, k: nat)
    requires Count(bbox, ',') == 3 && k < 4 && parseFloat(Trim(Split(bbox, ',')[k])).None?
    ensures StrictBbox(bbox, parseFloat) == Failure(BboxFormat)
    ensures LenientBbox(bbox, parseFloat).Some? && LenientBbox(bbox, parseFloat).value[k].None?
  {
    CountZero(bbox, ',');
    assert ',' in bbox;
    var j :| 0 <= j < |bbox| && bbox[j] == ',';
    assert !IsJsSpace(bbox[j]);
    assert !AllSpace(bbox);
    assert !AllNumbers(ParseParts(bbox, parseFloat)) by {
      assert ParseParts(bbox, parseFloat)[k].None?;
    }
  }

  // ---------------------------------------------------------------------------
  // Request bodies

  /** The body of a request to the parallel route; `bbox` is omitted when `None`. */
  datatype ParallelRequest = ParallelRequest(
    startTime: string, endTime: string, plotTypes: seq<string>, variables: seq<string>,
    collectionId: string, bbox: Option<seq<real>>)

  /** The body of a request to the `all` route; `None` inside `bbox` is a `NaN` sent as `null`. */
  datatype AllThreeRequest = AllThreeRequest(
    startTime: string, endTime: string, plotType: string, variable: string,
    collectionId: string, bbox: Option<seq<Option<real>>>)

  /** The seconds the time inputs leave out. */
  function WithSeconds(t: string): (r: string)
    ensures |r| == |t| + 3 && r[..|t|] == t && r[|t|..] == ":00"
  {
    t + ":00"
  }

  /** The parallel request for the form, or the bounding-box error thrown before sending. */
  function ParallelRequestOf(form: Form, plotTypes: seq<string>, parseFloat: NumberParser): (r: Result<ParallelRequest, string>)
    ensures r.Failure? <==> StrictBbox(form.bbox, parseFloat).Failure?
    ensures r.Failure? ==> r.error == BboxFormat
    ensures r.Success? ==>
      r.value.bbox == StrictBbox(form.bbox, parseFloat).value &&
      r.value.variables == [form.variable] && r.value.plotTypes == plotTypes &&
      r.value.collectionId == Collection &&
      r.value.startTime == WithSeconds(form.startTime) && r.value.endTime == WithSeconds(form.endTime)
  {
    match StrictBbox(form.bbox, parseFloat)
    case Failure(e) => Failure(e)
    case Success(box) =>
      Success(ParallelRequest(WithSeconds(form.startTime), WithSeconds(form.endTime), plotTypes,
                              [form.variable], Collection, box))
  }

  /** The `all_three` request a submission sends. */
  function AllThreeRequestOf(form: Form, parseFloat: NumberParser): (r: AllThreeRequest)
    ensures r.plotType == AllThreePlot && r.variable == form.variable && r.collectionId == Collection
    ensures r.startTime == WithSeconds(form.startTime) && r.endTime == WithSeconds(form.endTime)
    ensures r.bbox.Some? <==> form.bbox != "" && Count(form.bbox, ',') == 3
    ensures r.bbox.Some? ==> (|r.bbox.value| == 4 &&
      forall i :: 0 <= i < 4 ==> r.bbox.value[i] == parseFloat(Trim(Split(form.bbox, ',')[i])))
  {
    AllThreeRequest(WithSeconds(form.startTime), WithSeconds(form.endTime), AllThreePlot,
                    form.variable, Collection, LenientBbox(form.bbox, parseFloat))
  }

  /** The `all_three` request the preload sends: always the default box, whatever the form holds. */
  function PreloadRequestOf(form: Form): (r: AllThreeRequest)
    ensures r.plotType == AllThreePlot && r.variable == form.variable && r.collectionId == Collection
    ensures r.startTime == WithSeconds(form.startTime) && r.endTime == WithSeconds(form.endTime)
    ensures r.bbox.Some? && |r.bbox.value| == 4
    ensures forall i :: 0 <= i < 4 ==> r.bbox.value[i] == Some(DefaultBbox[i])
  {
    AllThreeRequest(WithSeconds(form.startTime), WithSeconds(form.endTime), AllThreePlot,
                    form.variable, Collection, Some([Some(-150.0), Some(-40.0), Some(14.0), Some(65.0)]))
  }

  // ---------------------------------------------------------------------------
  // Bodies the routes answer with

  datatype Plot = Plot(success: bool, imageBase64: Option<string>, error: Option<string>)

  datatype AllThreeData = AllThreeData(
    jobId: Option<string>, filesProcessed: Option<nat>, visualizations: Option<map<string, Plot>>,
    successCount: Option<nat>, totalCount: Option<nat>, bbox: Option<seq<real>>)

  datatype AllThreeBody = AllThreeBody(success: bool, data: Option<AllThreeData>, message: Option<string>)

  datatype SubmitBody = SubmitBody(success: bool, jobId: Option<string>, message: Option<string>)

  datatype JobStatus = JobStatus(
    status: string, progress: nat, completedPlots: seq<string>, failedPlots: seq<string>,
    results: Option<map<string, Plot>>, error: Option<string>)

  datatype HealthBody = HealthBody(status: Option<string>)

  /** The status a fresh parallel job is shown with before its first poll. */
  const QueuedStatus := JobStatus("queued", 0, [], [], Some(map[]), None)

  /** `errorData.message || \`API responded with status N\`` for a non-ok answer
      whose body, if it parsed, carried `message`. */
  function NotOkText(status: nat, message: Option<string>): (t: string)
    ensures message.Some? && message.value != "" ==> t == message.value
    ensures message.None? || message.value == "" ==> t == StatusText(status)
  {
    OrElse(message, StatusText(status))
  }

  // ---------------------------------------------------------------------------
  // What the page stores as its result

  /** A stored result: one image from a polled job, or the three-plot outcome. */
  datatype Shown =
    | Single(image: string, jobId: string, variable: string, filesProcessed: nat, message: string)
    | AllThree(jobId: string, variable: string, filesProcessed: nat, visualizations: map<string, Plot>,
               successCount: nat, totalCount: nat, bbox: Option<seq<real>>, message: string)

  /** `n || fallback` on a count: an absent or zero count falls back. */
  function OrCount(n: Option<nat>, fallback: nat): (r: nat)
    ensures n.Some? && n.value != 0 ==> r == n.value
    ensures n.None? || n.value == 0 ==> r == fallback
  {
    if n.Some? && n.value != 0 then n.value else fallback
  }

  function GeneratedMessage(count: nat): string
  {
    "Generated " + NatToString(count) + " visualizations successfully"
  }

  /** The stored `all_three` result: the backend's counts and id, each
      replaced by its fallback when falsy, and the variable taken from the form. */
  function AllThreeShown(d: AllThreeData, defaultJobId: string, variable: string, defaultBbox: Option<seq<real>>): (s: Shown)
    requires d.visualizations.Some?
    ensures s.AllThree? && s.visualizations == d.visualizations.value && s.variable == variable
    ensures s.jobId == OrElse(d.jobId, defaultJobId)
    ensures defaultJobId != "" ==> s.jobId != ""
    ensures s.filesProcessed == OrCount(d.filesProcessed, 1) && s.filesProcessed >= 1
    ensures s.successCount == OrCount(d.successCount, |d.visualizations.value|)
    ensures s.totalCount == OrCount(d.totalCount, |d.visualizations.value|)
    ensures s.successCount == 0 ==> |d.visualizations.value| == 0
    ensures s.totalCount == 0 ==> |d.visualizations.value| == 0
    ensures s.message == GeneratedMessage(s.successCount)
    ensures s.bbox == (if d.bbox.Some? then d.bbox else defaultBbox)
  {
    var count := |d.visualizations.value|;
    var success := OrCount(d.successCount, count);
    AllThree(OrElse(d.jobId, defaultJobId), variable, OrCount(d.filesProcessed, 1), d.visualizations.value,
             success, OrCount(d.totalCount, count),
             if d.bbox.Some? then d.bbox else defaultBbox, GeneratedMessage(success))
  }

  /** The body passes the page's check `data.success && data.data && data.data.visualizations`. */
  predicate Usable(b: AllThreeBody)
  {
    b.success && b.data.Some? && b.data.value.visualizations.Some?
  }

  /** Awaiting the `all` route: the result to store, or the message of the error thrown. */
  function AllThreeOutcome(reply: Reply<AllThreeBody>, defaultJobId: string, variable: string,
                           defaultBbox: Option<seq<real>>, failure: string): (r: Result<Shown, string>)
    ensures r.Success? <==> reply.Ok() && reply.body.Success? && Usable(reply.body.value)
    ensures r.Success? ==> r.value == AllThreeShown(reply.body.value.data.value, defaultJobId, variable, defaultBbox)
    ensures reply.NetworkError? ==> r == Failure(reply.reason)
    ensures reply.Answered? && !reply.Ok() ==>
      r == Failure(NotOkText(reply.status, if reply.body.Success? then reply.body.value.message else None))
    ensures reply.Ok() && reply.body.Failure? ==> r == Failure(reply.body.error)
    ensures reply.Ok() && reply.body.Success? && !Usable(reply.body.value) ==>
      r == Failure(OrElse(reply.body.value.message, failure))
  {
    match reply
    case NetworkError(reason) => Failure(reason)
    case Answered(status, body) =>
      if !reply.Ok() then
        Failure(NotOkText(status, if body.Success? then body.value.message else None))
      else
        match body
        case Failure(e) => Failure(e)
        case Success(b) =>
          if Usable(b) then Success(AllThreeShown(b.data.value, defaultJobId, variable, defaultBbox))
          else Failure(OrElse(b.message, failure))
  }

  /** The preload: a health check that must be ok, then the `all` route with
      `'preload'` and the default box as fallbacks. */
  function PreloadOutcome(health: Reply<Json>, reply: Reply<AllThreeBody>, variable: string): (r: Result<Shown, string>)
    ensures health.NetworkError? ==> r == Failure(health.reason)
    ensures health.Answered? && !health.Ok() ==> r == Failure(NotAvailable)
    ensures health.Ok() ==> r == AllThreeOutcome(reply, PreloadJobId, variable, Some(DefaultBbox), SampleFailure)
    ensures r.Success? ==> r.value.AllThree? && r.value.bbox.Some? && r.value.jobId != ""
  {
    if health.NetworkError? then Failure(health.reason)
    else if !health.Ok() then Failure(NotAvailable)
    else AllThreeOutcome(reply, PreloadJobId, variable, Some(DefaultBbox), SampleFailure)
  }

  /** Awaiting the parallel route after the box was read: the backend's `job_id`
      (possibly absent), or the message of the error thrown. */
  function SubmitOutcome(reply: Reply<SubmitBody>): (r: Result<Option<string>, string>)
    ensures r.Success? <==> reply.Ok() && reply.body.Success? && reply.body.value.success
    ensures r.Success? ==> r.value == reply.body.value.jobId
    ensures reply.NetworkError? ==> r == Failure(reply.reason)
    ensures reply.Answered? && !reply.Ok() ==>
      r == Failure(NotOkText(reply.status, if reply.body.Success? then reply.body.value.message else None))
    ensures reply.Ok() && reply.body.Failure? ==> r == Failure(reply.body.error)
    ensures reply.Ok() && reply.body.Success? && !reply.body.value.success ==>
      r == Failure(OrElse(reply.body.value.message, StartFailure))
  {
    match reply
    case NetworkError(reason) => Failure(reason)
    case Answered(status, body) =>
      if !reply.Ok() then
        Failure(NotOkText(status, if body.Success? then body.value.message else None))
      else
        match body
        case Failure(e) => Failure(e)
        case Success(b) =>
          if b.success then Success(b.jobId) else Failure(OrElse(b.message, StartFailure))
  }

  /** Starting a parallel job: a request that could not be built (its box
      was rejected) is never sent, and its error is the outcome. */
  function ParallelOutcome(request: Result<ParallelRequest, string>, reply: Reply<SubmitBody>): (r: Result<Option<string>, string>)
    ensures request.Failure? ==> r == Failure(request.error)
    ensures request.Success? ==> r == SubmitOutcome(reply)
  {
    if request.Failure? then Failure(request.error) else SubmitOutcome(reply)
  }

  /** How a submission ends before any poller runs: rejected by the form check,
      answered by the `all` route, or handed to the parallel route. */
  datatype Submission =
    | Rejected(error: string)
    | AllThreeDone(generated: Result<Shown, string>)
    | ParallelStarted(started: Result<Option<string>, string>)

  function SubmissionOf(form: Form, parseDate: DateParser, parseFloat: NumberParser,
                        allReply: Reply<AllThreeBody>, parallelReply: Reply<SubmitBody>): (r: Submission)
    ensures r.Rejected? <==> ValidateTimes(form, parseDate).Some?
    ensures r.Rejected? ==> r.error == ValidateTimes(form, parseDate).value
    ensures r.AllThreeDone? <==> ValidateTimes(form, parseDate).None? && form.plotType == AllThreePlot
    ensures r.AllThreeDone? ==>
      r.generated == AllThreeOutcome(allReply, AllThreePlot, form.variable, None, GenerateFailure)
    ensures r.ParallelStarted? ==>
      r.started == ParallelOutcome(ParallelRequestOf(form, [form.plotType], parseFloat), parallelReply)
  {
    match ValidateTimes(form, parseDate)
    case Some(e) => Rejected(e)
    case None =>
      if form.plotType == AllThreePlot then
        AllThreeDone(AllThreeOutcome(allReply, AllThreePlot, form.variable, None, GenerateFailure))
      else
        ParallelStarted(ParallelOutcome(ParallelRequestOf(form, [form.plotType], parseFloat), parallelReply))
  }

  /** A job id that `if (jobId)` lets through: present and non-empty. */
  predicate Truthy(jobId: Option<string>)
  {
    jobId.Some? && jobId.value != ""
  }

  // ---------------------------------------------------------------------------
  // Polling a job

  /** `checkJobStatus`: the decoded status of an ok answer, else nothing. */
  function StatusOf(reply: Reply<JobStatus>): (r: Option<JobStatus>)
    ensures r.Some? <==> reply.Ok() && reply.body.Success?
    ensures r.Some? ==> r.value == reply.body.value
  {
    if reply.Ok() && reply.body.Success? then Some(reply.body.value) else None
  }

  /** What one tick of a poller does with the status it fetched. `CompletedWithoutResults`
      is a completed status with no `results`: reading it throws after the timer
      was cleared and loading was switched off. */
  datatype Step = KeepPolling | Completed(image: string) | Failed(error: string) | CompletedWithoutResults

  predicate Terminal(status: string) { status == "completed" || status == "failed" }

  /** `results[plotType]?.image_base64 || ''`. */
  function ImageOf(results: map<string, Plot>, plotType: string): (image: string)
    ensures plotType !in results ==> image == ""
    ensures plotType in results ==> image == OrElse(results[plotType].imageBase64, "")
  {
    if plotType in results then OrElse(results[plotType].imageBase64, "") else ""
  }

  function PollStep(status: Option<JobStatus>, plotType: string): (r: Step)
    ensures r.KeepPolling? <==> status.None? || !Terminal(status.value.status)
    ensures r.Failed? <==> status.Some? && status.value.status == "failed"
    ensures r.Failed? ==> r.error == OrElse(status.value.error, JobFailed) && r.error != ""
    ensures r.Completed? <==> status.Some? && status.value.status == "completed" && status.value.results.Some?
    ensures r.Completed? ==> r.image == ImageOf(status.value.results.value, plotType)
    ensures r.CompletedWithoutResults? <==> status.Some? && status.value.status == "completed" && status.value.results.None?
  {
    match status
    case None => KeepPolling
    case Some(s) =>
      if s.status == "completed" then
        if s.results.Some? then Completed(ImageOf(s.results.value, plotType)) else CompletedWithoutResults
      else if s.status == "failed" then Failed(OrElse(s.error, JobFailed))
      else KeepPolling
  }

  /** The name the loading message uses; a plot type outside the table reads `undefined`. */
  function PlotName(plotType: string): (name: string)
    ensures plotType == "map" ==> name == "Geographic Map"
    ensures plotType == "zonal_mean" ==> name == "Zonal Mean Plot"
    ensures plotType == "contour" ==> name == "Contour Plot"
    ensures plotType !in {"map", "zonal_mean", "contour"} ==> name == "undefined"
  {
    if plotType == "map" then "Geographic Map"
    else if plotType == "zonal_mean" then "Zonal Mean Plot"
    else if plotType == "contour" then "Contour Plot"
    else "undefined"
  }

  /** The loading message while a single plot is generated. */
  function GeneratingMessage(plotType: string): string
  {
    "Generating " + PlotName(plotType) + "..."
  }

  /** The result a completed poll stores. */
  function PolledShown(image: string, jobId: string, variable: string, plotType: string): (s: Shown)
    ensures s.Single? && s.image == image && s.jobId == jobId && s.variable == variable && s.filesProcessed == 1
  {
    Single(image, jobId, variable, 1, "Generated " + plotType + " visualization successfully")
  }

  // ---------------------------------------------------------------------------
  // Connection test

  /** `\`API is healthy! Status: ${data.status}\``: an absent status prints `undefined`. */
  function HealthyMessage(status: Option<string>): string
  {
    "API is healthy! Status: " + (if status.Some? then status.value else "undefined")
  }

  /** Awaiting the health route from the connection test. */
  function ConnectionOutcome(reply: Reply<HealthBody>): (r: Result<Shown, string>)
    ensures r.Success? <==> reply.Ok() && reply.body.Success?
    ensures r.Success? ==> r == Success(Single("", "", "", 0, HealthyMessage(reply.body.value.status)))
    ensures reply.NetworkError? ==> r == Failure(reply.reason)
    ensures reply.Answered? && !reply.Ok() ==> r == Failure(StatusText(reply.status))
    ensures reply.Ok() && reply.body.Failure? ==> r == Failure(reply.body.error)
  {
    match reply
    case NetworkError(reason) => Failure(reason)
    case Answered(status, body) =>
      if !reply.Ok() then Failure(StatusText(status))
      else
        match body
        case Failure(e) => Failure(e)
        case Success(b) => Success(Single("", "", "", 0, HealthyMessage(b.status)))
  }

  // ---------------------------------------------------------------------------
  // Which panel the page shows

  datatype Tab = Explore | Visualize | Help

  /** The results area: the loading state, the empty state, the results (with
      the error banner when the error is a non-empty string), or the help page. */
  datatype Panel = Loading(preloading: bool, message: string) | Empty | Results(banner: Option<string>, shown: Option<Shown>) | HelpPage

  function PanelFor(tab: Tab, isLoading: bool, isPreloading: bool, isInitialLoad: bool,
                    error: Option<string>, result: Option<Shown>, loadingMessage: string): (p: Panel)
    ensures p.HelpPage? <==> tab == Help
    ensures tab == Explore ==> (p.Loading? <==> isLoading || isPreloading)
    ensures tab == Visualize ==> (p.Loading? <==> isLoading)
    ensures p.Loading? ==> p.preloading == isPreloading && p.message == loadingMessage
    ensures p.Empty? <==> tab != Help && !p.Loading? && isInitialLoad
    ensures p.Results? ==> p.shown == result && (p.banner.Some? <==> Truthy(error)) && (p.banner.Some? ==> p.banner == error)
  {
    if tab == Help then HelpPage
    else if isLoading || (tab == Explore && isPreloading) then Loading(isPreloading, loadingMessage)
    else if isInitialLoad then Empty
    else Results(if Truthy(error) then error else None, result)
  }
}
