/**
 * The TEMPO visualization page as a state machine: the fields its React
 * state holds, and the handlers that update them. Each `fetch` the handlers
 * await is a parameter holding what it delivers; each running `setInterval`
 * poller is an entry of `polls`, and a timer firing is a call to `Tick`.
 */
module TempoVisualization {
  import opened Wrappers
  import opened Text
  import opened Http
  import opened TempoForm

  /** One poller: the job it watches and the form values its callback captured. */
  datatype Poll = Poll(jobId: string, plotType: string, variable: string)

  /** The pollers after a parallel start: one more, for the job, when a truthy id came back. */
  function PollsAfter(polls: seq<Poll>, started: Result<Option<string>, string>, form: Form): (r: seq<Poll>)
    ensures started.Success? && Truthy(started.value) ==>
      |r| == |polls| + 1 && r[..|polls|] == polls && r[|polls|] == Poll(started.value.value, form.plotType, form.variable)
    ensures !(started.Success? && Truthy(started.value)) ==> r == polls
  {
    if started.Success? && Truthy(started.value) then polls + [Poll(started.value.value, form.plotType, form.variable)]
    else polls
  }

  /** The loading message after a parallel start: the plot being generated, once its poller runs. */
  function MessageAfter(message: string, started: Result<Option<string>, string>, form: Form): string
  {
    if started.Success? && Truthy(started.value) then GeneratingMessage(form.plotType) else message
  }

  class Page {
    var isLoading: bool
    var isInitialLoad: bool
    var result: Option<Shown>
    var error: Option<string>
    var loadingMessage: string
    var retryCount: nat
    var isPreloading: bool
    var activeTab: Tab
    var currentJobId: Option<string>
    var jobStatus: Option<JobStatus>
    var form: Form
    var polls: seq<Poll>

    /** The panel the results area renders for the current state. */
    function View(): (p: Panel)
      reads this
      ensures p.HelpPage? <==> activeTab == Help
      ensures activeTab != Help ==> (p.Loading? <==> isLoading || (activeTab == Explore && isPreloading))
      ensures p.Empty? ==> isInitialLoad
      ensures p.Results? ==> p.shown == result && !isInitialLoad
    {
      PanelFor(activeTab, isLoading, isPreloading, isInitialLoad, error, result, loadingMessage)
    }

    constructor()
      ensures !isLoading && isInitialLoad && isPreloading
      ensures result.None? && error.None? && loadingMessage == "" && retryCount == 0
      ensures activeTab == Explore && currentJobId.None? && jobStatus.None?
      ensures form == InitialForm && polls == []
      ensures View() == Loading(true, "")
    {
      isLoading := false;
      isInitialLoad := true;
      result := None;
      error := None;
      loadingMessage := "";
      retryCount := 0;
      isPreloading := true;
      activeTab := Explore;
      currentJobId := None;
      jobStatus := None;
      form := InitialForm;
      polls := [];
    }

    /** A tab button. */
    method SelectTab(tab: Tab)
      modifies this`activeTab
      ensures activeTab == tab
    {
      activeTab := tab;
    }

    /** An input change: the named form field takes the new value; a name
        outside the form changes none of the fields the page reads. */
    method ChangeInput(name: string, value: string)
      modifies this`form
      ensures name == "startTime" ==> form == old(form).(startTime := value)
      ensures name == "endTime" ==> form == old(form).(endTime := value)
      ensures name == "bbox" ==> form == old(form).(bbox := value)
      ensures name == "variable" ==> form == old(form).(variable := value)
      ensures name == "plotType" ==> form == old(form).(plotType := value)
      ensures name !in {"startTime", "endTime", "bbox", "variable", "plotType"} ==> form == old(form)
    {
      if name == "startTime" {
        form := form.(startTime := value);
      } else if name == "endTime" {
        form := form.(endTime := value);
      } else if name == "bbox" {
        form := form.(bbox := value);
      } else if name == "variable" {
        form := form.(variable := value);
      } else if name == "plotType" {
        form := form.(plotType := value);
      }
    }

    /** The preload, run on mount and again whenever the times or the variable
        change. `health` and `reply` are what the two fetches deliver; `sent`
        is the request made to the `all` route, if one was. A failure is
        swallowed: no error is shown and the empty state returns. */
    method Preload(health: Reply<Json>, reply: Reply<AllThreeBody>)
      returns (sent: Option<AllThreeRequest>, outcome: Result<Shown, string>)
      modifies this`isPreloading, this`loadingMessage, this`result, this`isInitialLoad, this`form, this`error
      ensures sent == (if health.Ok() then Some(PreloadRequestOf(old(form))) else None)
      ensures outcome == PreloadOutcome(health, reply, old(form).variable)
      ensures !isPreloading && loadingMessage == ""
      ensures outcome.Success? ==>
        result == Some(outcome.value) && !isInitialLoad && error == old(error) &&
        form == old(form).(bbox := DefaultBboxText)
      ensures outcome.Failure? ==> result == old(result) && isInitialLoad && error.None? && form == old(form)
    {
      isPreloading := true;
      loadingMessage := LoadingSample;
      sent := None;
      if health.Ok() {
        sent := Some(PreloadRequestOf(form));
        loadingMessage := GeneratingSample;
      }
      outcome := PreloadOutcome(health, reply, form.variable);
      match outcome {
        case Success(shown) =>
          result := Some(shown);
          isInitialLoad := false;
          form := form.(bbox := DefaultBboxText);
        case Failure(_) =>
          error := None;
          isInitialLoad := true;
      }
      isPreloading := false;
      loadingMessage := "";
    }

    /** `startParallelProcessing`: reads the box of the form the handler closed
        over (`submitted`), submits the job and returns the backend's `job_id`;
        on any error it sets `error` and returns nothing. `request` is the body
        sent to the parallel route, or the box error that stopped it. */
    method StartParallelProcessing(submitted: Form, plotTypes: seq<string>, parseFloat: NumberParser, reply: Reply<SubmitBody>)
      returns (jobId: Option<string>, request: Result<ParallelRequest, string>, outcome: Result<Option<string>, string>)
      modifies this`currentJobId, this`jobStatus, this`error
      ensures request == ParallelRequestOf(submitted, plotTypes, parseFloat)
      ensures outcome == ParallelOutcome(request, reply)
      ensures outcome.Success? ==>
        jobId == outcome.value && currentJobId == jobId && jobStatus == Some(QueuedStatus) && error == old(error)
      ensures outcome.Failure? ==>
        jobId.None? && error == Some(outcome.error) && currentJobId == old(currentJobId) && jobStatus == old(jobStatus)
    {
      request := ParallelRequestOf(submitted, plotTypes, parseFloat);
      outcome := ParallelOutcome(request, reply);
      match outcome {
        case Success(id) =>
          currentJobId := id;
          jobStatus := Some(QueuedStatus);
          jobId := id;
        case Failure(e) =>
          error := Some(e);
          jobId := None;
      }
    }

    /** `checkJobStatus`: a status that arrived is stored and returned; a failed
        fetch returns nothing and leaves `jobStatus` as it was. */
    method CheckJobStatus(reply: Reply<JobStatus>) returns (status: Option<JobStatus>)
      modifies this`jobStatus
      ensures status == StatusOf(reply)
      ensures jobStatus == (if status.Some? then status else old(jobStatus))
    {
      status := StatusOf(reply);
      if status.Some? {
        jobStatus := status;
      }
    }

    /** The state `handleSubmit` leaves after starting from the form `form0`, the
        pollers `polls0` and the loading message `message0`. Validation errors
        show and stop loading with no request sent; `all_three` stores its
        result or its error; a parallel start stores the queued job and adds its
        poller, while a failed one sets its error but leaves `isLoading` set.
        Earlier pollers are never stopped. */
    predicate Submitted(form0: Form, polls0: seq<Poll>, message0: string, parseDate: DateParser, parseFloat: NumberParser,
                        allReply: Reply<AllThreeBody>, parallelReply: Reply<SubmitBody>, sentAll: Option<AllThreeRequest>,
                        sentParallel: Option<Result<ParallelRequest, string>>, submission: Submission)
      reads this
    {
      && submission == SubmissionOf(form0, parseDate, parseFloat, allReply, parallelReply)
      && !isInitialLoad
      && sentAll == (if submission.AllThreeDone? then Some(AllThreeRequestOf(form0, parseFloat)) else None)
      && (submission.ParallelStarted? ==>
            sentParallel == Some(ParallelRequestOf(form0, [form0.plotType], parseFloat)))
      && (!submission.ParallelStarted? ==>
            sentParallel.None? && !isLoading && loadingMessage == "" && jobStatus.None? && currentJobId.None? &&
            polls == polls0)
      && (submission.Rejected? ==> error == Some(submission.error) && result.None?)
      && (submission.AllThreeDone? && submission.generated.Success? ==>
            result == Some(submission.generated.value) && error.None?)
      && (submission.AllThreeDone? && submission.generated.Failure? ==>
            result.None? && error == Some(submission.generated.error))
      && (submission.ParallelStarted? && submission.started.Failure? ==>
            isLoading && result.None? && error == Some(submission.started.error) &&
            jobStatus.None? && currentJobId.None?)
      && (submission.ParallelStarted? && submission.started.Success? ==>
            isLoading && result.None? && error.None? &&
            jobStatus == Some(QueuedStatus) && currentJobId == submission.started.value)
      && (submission.ParallelStarted? ==>
            polls == PollsAfter(polls0, submission.started, form0) &&
            loadingMessage == MessageAfter(message0, submission.started, form0))
    }

    /** `handleSubmit`. The form is validated first; `all_three` goes to the `all`
        route and stores its result or error; any other plot type starts a
        parallel job and, when a job id comes back, starts a poller. A failed
        parallel start sets its error but leaves `isLoading` set. Earlier
        pollers are never stopped. */
    method HandleSubmit(parseDate: DateParser, parseFloat: NumberParser,
                        allReply: Reply<AllThreeBody>, parallelReply: Reply<SubmitBody>)
      returns (sentAll: Option<AllThreeRequest>, sentParallel: Option<Result<ParallelRequest, string>>, submission: Submission)
      modifies this`isLoading, this`isInitialLoad, this`error, this`result, this`currentJobId, this`jobStatus,
        this`loadingMessage, this`polls
      ensures Submitted(old(form), old(polls), old(loadingMessage), parseDate, parseFloat, allReply, parallelReply,
                        sentAll, sentParallel, submission)
      ensures submission.ParallelStarted? && submission.started.Failure? && activeTab != Help ==> View().Loading?
    {
      isLoading := true;
      isInitialLoad := false;
      error := None;
      result := None;
      currentJobId := None;
      jobStatus := None;
      sentAll, sentParallel := None, None;
      submission := SubmissionOf(form, parseDate, parseFloat, allReply, parallelReply);
      match submission {
        case Rejected(e) =>
          error := Some(e);
          isLoading := false;
          loadingMessage := "";
        case AllThreeDone(_) =>
          sentAll := SubmitAllThree(form, parseFloat, allReply);
        case ParallelStarted(_) =>
          var request := SubmitSingle(form, parseFloat, parallelReply);
          sentParallel := Some(request);
      }
    }

    /** The `all_three` branch of `handleSubmit`, after validation, for the form it closed over. */
    method SubmitAllThree(submitted: Form, parseFloat: NumberParser, reply: Reply<AllThreeBody>) returns (sent: Option<AllThreeRequest>)
      modifies this`result, this`error, this`isLoading, this`loadingMessage
      ensures sent == Some(AllThreeRequestOf(submitted, parseFloat))
      ensures !isLoading && loadingMessage == ""
      ensures var outcome := AllThreeOutcome(reply, AllThreePlot, submitted.variable, None, GenerateFailure);
        (outcome.Success? ==> result == Some(outcome.value) && error == old(error)) &&
        (outcome.Failure? ==> result == old(result) && error == Some(outcome.error))
    {
      loadingMessage := GeneratingAllThree;
      sent := Some(AllThreeRequestOf(submitted, parseFloat));
      match AllThreeOutcome(reply, AllThreePlot, submitted.variable, None, GenerateFailure) {
        case Success(shown) =>
          result := Some(shown);
        case Failure(e) =>
          error := Some(e);
      }
      isLoading := false;
      loadingMessage := "";
    }

    /** The single-plot branch of `handleSubmit`: start the job and, when a
        truthy job id comes back, start its poller, which keeps the plot type
        and variable of the form the handler closed over. */
    method SubmitSingle(submitted: Form, parseFloat: NumberParser, reply: Reply<SubmitBody>)
      returns (request: Result<ParallelRequest, string>)
      modifies this`currentJobId, this`jobStatus, this`error, this`loadingMessage, this`polls
      ensures request == ParallelRequestOf(submitted, [submitted.plotType], parseFloat)
      ensures var outcome := ParallelOutcome(request, reply);
        polls == PollsAfter(old(polls), outcome, submitted) &&
        loadingMessage == MessageAfter(old(loadingMessage), outcome, submitted) &&
        (outcome.Failure? ==>
          error == Some(outcome.error) && currentJobId == old(currentJobId) && jobStatus == old(jobStatus)) &&
        (outcome.Success? ==>
          error == old(error) && currentJobId == outcome.value && jobStatus == Some(QueuedStatus))
    {
      var jobId, outcome;
      jobId, request, outcome := StartParallelProcessing(submitted, [submitted.plotType], parseFloat, reply);
      if Truthy(jobId) {
        loadingMessage := GeneratingMessage(submitted.plotType);
        polls := polls + [Poll(jobId.value, submitted.plotType, submitted.variable)];
      }
    }

    /** One tick of poller `i`, given what its status fetch delivered. A terminal
        status stops that poller and clears loading; a completed one stores the
        image, a failed one the error. */
    method Tick(i: nat, reply: Reply<JobStatus>) returns (step: Step)
      requires i < |polls|
      modifies this`jobStatus, this`polls, this`isLoading, this`loadingMessage, this`result, this`error
      ensures step == PollStep(StatusOf(reply), old(polls)[i].plotType)
      ensures jobStatus == (if StatusOf(reply).Some? then StatusOf(reply) else old(jobStatus))
      ensures step.KeepPolling? ==>
        polls == old(polls) && isLoading == old(isLoading) && loadingMessage == old(loadingMessage) &&
        result == old(result) && error == old(error)
      ensures !step.KeepPolling? ==>
        polls == old(polls)[..i] + old(polls)[i + 1..] && !isLoading && loadingMessage == ""
      ensures step.Completed? ==>
        result == Some(PolledShown(step.image, old(polls)[i].jobId, old(polls)[i].variable, old(polls)[i].plotType)) &&
        error == old(error)
      ensures step.Failed? ==> error == Some(step.error) && result == old(result)
      ensures step.CompletedWithoutResults? ==> result == old(result) && error == old(error)
    {
      var poll := polls[i];
      var status := CheckJobStatus(reply);
      step := PollStep(status, poll.plotType);
      if !step.KeepPolling? {
        polls := polls[..i] + polls[i + 1..];
        isLoading := false;
        loadingMessage := "";
        if step.Completed? {
          result := Some(PolledShown(step.image, poll.jobId, poll.variable, poll.plotType));
        } else if step.Failed? {
          error := Some(step.error);
        }
      }
    }

    /** `testConnection`: stores the health message as a result, or sets the error. */
    method TestConnection(reply: Reply<HealthBody>)
      modifies this`isLoading, this`error, this`loadingMessage, this`result
      ensures !isLoading && loadingMessage == ""
      ensures ConnectionOutcome(reply).Success? ==> result == Some(ConnectionOutcome(reply).value) && error.None?
      ensures ConnectionOutcome(reply).Failure? ==> result == old(result) && error == Some(ConnectionOutcome(reply).error)
    {
      isLoading := true;
      error := None;
      loadingMessage := TestingConnection;
      match ConnectionOutcome(reply) {
        case Success(shown) =>
          result := Some(shown);
        case Failure(e) =>
          error := Some(e);
      }
      isLoading := false;
      loadingMessage := "";
    }

    /** `handleRetry`: clears the error, counts the retry, then submits again
        when a result is stored and tests the connection otherwise. */
    method HandleRetry(parseDate: DateParser, parseFloat: NumberParser, allReply: Reply<AllThreeBody>,
                       parallelReply: Reply<SubmitBody>, health: Reply<HealthBody>)
      returns (resubmitted: Option<Submission>, sentAll: Option<AllThreeRequest>,
               sentParallel: Option<Result<ParallelRequest, string>>)
      modifies this`retryCount, this`isLoading, this`isInitialLoad, this`error, this`result, this`currentJobId,
        this`jobStatus, this`loadingMessage, this`polls
      ensures retryCount == old(retryCount) + 1
      ensures resubmitted.Some? <==> old(result).Some?
      ensures resubmitted.Some? ==>
        Submitted(old(form), old(polls), old(loadingMessage), parseDate, parseFloat, allReply, parallelReply,
                  sentAll, sentParallel, resubmitted.value)
      ensures resubmitted.None? ==>
        sentAll.None? && sentParallel.None? && !isLoading && loadingMessage == "" &&
        isInitialLoad == old(isInitialLoad) && polls == old(polls) && jobStatus == old(jobStatus) &&
        currentJobId == old(currentJobId) &&
        (ConnectionOutcome(health).Success? ==> result == Some(ConnectionOutcome(health).value) && error.None?) &&
        (ConnectionOutcome(health).Failure? ==> result == old(result) && error == Some(ConnectionOutcome(health).error))
    {
      error := None;
      retryCount := retryCount + 1;
      if result.Some? {
        var submission;
        sentAll, sentParallel, submission := HandleSubmit(parseDate, parseFloat, allReply, parallelReply);
        resubmitted := Some(submission);
      } else {
        resubmitted, sentAll, sentParallel := None, None, None;
        TestConnection(health);
      }
    }
  }
}
