/** The account summary component's state machine: a summarize request moves the
    view from idle to loading and, when the remote call completes, to results or to
    an error; while loading, a host interval timer rotates a status phrase.

    The host's timers are part of the state: `runningTimers` holds the handles the
    host would still fire, and `nextTimerHandle` is the (positive) handle the next
    `setInterval` returns. The awaited remote call is split into `BeginSummarize`
    (everything up to the `await`) and `CompleteSummarize` (everything after it);
    `pendingCalls` counts the calls issued and not yet answered. Nothing stops a
    second summarize while one is in flight, so completions may interleave. */
module SummaryView {
  import opened Wrappers
  import opened JsText
  import opened Platform
  import opened SummaryData

  /** The status phrases shown while a summary is being generated. */
  const FlavorTexts: seq<string> := [
    "Analyzing opportunities and pipeline...",
    "Reviewing order statuses and fulfillment...",
    "Examining handoff records and engineering workflow...",
    "Processing account data with AI...",
    "Identifying process bottlenecks...",
    "Calculating next steps and recommendations...",
    "Synthesizing insights across all records...",
    "Generating comprehensive summary..."]

  /** The index `Math.floor(Math.random() * 8)` can produce. */
  type FlavorIndex = i: int | 0 <= i < 8

  datatype SummaryState = SummaryState(
    recordId: Option<string>,
    data: Option<SummaryResult>,
    isLoading: bool,
    hasError: bool,
    errorMessage: string,
    currentFlavorText: string,
    flavorTextInterval: Option<nat>,
    runningTimers: set<nat>,
    nextTimerHandle: nat,
    pendingCalls: nat)

  /** A thrown fault: `error.body?.message` and `error.message`. */
  datatype Fault = Fault(bodyMessage: Option<string>, message: Option<string>)

  /** How the awaited remote call ends: it returns a result (whose `success` flag
      tells a domain failure apart), or it throws. */
  datatype RemoteOutcome = Returned(result: SummaryResult) | Thrown(fault: Fault)

  predicate Succeeded(outcome: RemoteOutcome) {
    outcome.Returned? && outcome.result.success
  }

  const UnknownErrorMessage := "An unknown error occurred."
  const UnexpectedErrorMessage := "An unexpected error occurred."

  /** The message the error view shows for a failed outcome: the result's own
      message for a domain failure, the fault's body message and then its plain
      message for a thrown fault, each falling back to a fixed text; never empty. */
  function FailureMessage(outcome: RemoteOutcome): (r: string)
    requires !Succeeded(outcome)
    ensures outcome.Returned? && Truthy(outcome.result.errorMessage) ==> r == outcome.result.errorMessage.value
    ensures outcome.Returned? && !Truthy(outcome.result.errorMessage) ==> r == UnknownErrorMessage
    ensures outcome.Thrown? && Truthy(outcome.fault.bodyMessage) ==> r == outcome.fault.bodyMessage.value
    ensures outcome.Thrown? && !Truthy(outcome.fault.bodyMessage) && Truthy(outcome.fault.message) ==>
      r == outcome.fault.message.value
    ensures outcome.Thrown? && !Truthy(outcome.fault.bodyMessage) && !Truthy(outcome.fault.message) ==>
      r == UnexpectedErrorMessage
    ensures r != ""
  {
    match outcome
    case Returned(result) => OrElse(result.errorMessage, UnknownErrorMessage)
    case Thrown(fault) => OrElse(fault.bodyMessage, OrElse(fault.message, UnexpectedErrorMessage))
  }

  function SuccessToast(title: string, message: string): Toast {
    Toast(title, message, "success", Some("dismissable"))
  }

  function StickyErrorToast(title: string, message: string): Toast {
    Toast(title, message, "error", Some("sticky"))
  }

  /** The component as first rendered for the record `recordId`. */
  function Init(recordId: Option<string>): (s: SummaryState)
    ensures Wf(s) && ShowInitialState(s)
    ensures s.recordId == recordId && s.errorMessage == "" && s.currentFlavorText == ""
    ensures s.pendingCalls == 0 && s.runningTimers == {} && s.flavorTextInterval.None?
  {
    SummaryState(recordId, None, false, false, "", "", None, {}, 1, 0)
  }

  /** The states the component can reach: at most one timer runs, and it is the one
      the component holds; a timer only runs while loading; the status phrase is
      blank unless loading; loading means a call is in flight, with no error and no
      data; an error always carries a message; loaded data always reports success.
      (An error does not exclude data: a late failure of an earlier call can follow
      the success of a later one.) */
  ghost predicate Wf(s: SummaryState) {
    && TimersTracked(s)
    && (s.flavorTextInterval.Some? ==> s.isLoading)
    && (s.currentFlavorText == "" || s.currentFlavorText in FlavorTexts)
    && (!s.isLoading ==> s.currentFlavorText == "")
    && (s.isLoading ==> !s.hasError && s.data.None? && s.pendingCalls > 0)
    && (s.hasError ==> s.errorMessage != "")
    && (s.data.Some? ==> s.data.value.success)
  }

  /** The host runs no timer other than the one the component holds, and handles
      are positive and below the next one the host hands out. */
  ghost predicate TimersTracked(s: SummaryState) {
    && s.nextTimerHandle >= 1
    && s.runningTimers == (if s.flavorTextInterval.Some? then {s.flavorTextInterval.value} else {})
    && (s.flavorTextInterval.Some? ==> 1 <= s.flavorTextInterval.value < s.nextTimerHandle)
  }

  /** `if (this.flavorTextInterval)`: a held handle is truthy unless it is 0. */
  predicate HoldsTimer(s: SummaryState) {
    s.flavorTextInterval.Some? && s.flavorTextInterval.value != 0
  }

  /** Shows the first phrase, cancels the held timer if any, and starts a new one. */
  function StartFlavorTextRotation(s: SummaryState): (r: SummaryState)
    ensures r.currentFlavorText == FlavorTexts[0]
    ensures r.flavorTextInterval == Some(s.nextTimerHandle)
    ensures TimersTracked(s) ==> TimersTracked(r) && r.runningTimers == {s.nextTimerHandle}
    ensures r.data == s.data && r.isLoading == s.isLoading && r.hasError == s.hasError
    ensures r.recordId == s.recordId && r.pendingCalls == s.pendingCalls && r.errorMessage == s.errorMessage
  {
    var kept := if HoldsTimer(s) then s.runningTimers - {s.flavorTextInterval.value} else s.runningTimers;
    s.(currentFlavorText := FlavorTexts[0],
       runningTimers := kept + {s.nextTimerHandle},
       flavorTextInterval := Some(s.nextTimerHandle),
       nextTimerHandle := s.nextTimerHandle + 1)
  }

  /** Cancels the held timer if any and blanks the phrase. */
  function StopFlavorTextRotation(s: SummaryState): (r: SummaryState)
    ensures r.currentFlavorText == ""
    ensures Wf(s) ==> Wf(r) && r.runningTimers == {} && r.flavorTextInterval.None?
    ensures r.data == s.data && r.isLoading == s.isLoading && r.hasError == s.hasError
    ensures r.errorMessage == s.errorMessage && r.nextTimerHandle == s.nextTimerHandle
    ensures r.recordId == s.recordId && r.pendingCalls == s.pendingCalls
  {
    var stopped :=
      if HoldsTimer(s) then
        s.(runningTimers := s.runningTimers - {s.flavorTextInterval.value}, flavorTextInterval := None)
      else s;
    stopped.(currentFlavorText := "")
  }

  /** The host fires timer `handle`; a running timer shows the phrase at `index`. */
  function TimerFired(s: SummaryState, handle: nat, index: FlavorIndex): (r: SummaryState)
    ensures Wf(s) ==> Wf(r)
    ensures handle !in s.runningTimers ==> r == s
    ensures r.currentFlavorText != s.currentFlavorText ==> r.currentFlavorText in FlavorTexts
    ensures handle in s.runningTimers ==> r == s.(currentFlavorText := FlavorTexts[index])
  {
    if handle in s.runningTimers then s.(currentFlavorText := FlavorTexts[index]) else s
  }

  /** `handleSummarize` up to the `await`: clears the previous outcome, starts the
      rotation and issues the remote call. */
  function BeginSummarize(s: SummaryState): (r: Step<SummaryState>)
    ensures Wf(s) ==> Wf(r.state) && |r.state.runningTimers| == 1
    ensures r.state.isLoading && !r.state.hasError && r.state.data.None? && r.state.errorMessage == ""
    ensures r.state.currentFlavorText == FlavorTexts[0]
    ensures r.state.pendingCalls == s.pendingCalls + 1 && r.state.recordId == s.recordId
    ensures r.effects == [CallGetAccountSummary(s.recordId)]
  {
    var cleared := s.(isLoading := true, hasError := false, data := None, errorMessage := "",
                      pendingCalls := s.pendingCalls + 1);
    Step(StartFlavorTextRotation(cleared), [CallGetAccountSummary(s.recordId)])
  }

  /** `handleSummarize` after the `await` of a call in flight: stops the rotation,
      stores the data or the error, toasts, and leaves the loading state, whether or
      not a later call has already been answered. */
  function CompleteSummarize(s: SummaryState, outcome: RemoteOutcome): (r: Step<SummaryState>)
    requires s.pendingCalls > 0
    ensures Wf(s) ==> Wf(r.state) && r.state.runningTimers == {}
    ensures !r.state.isLoading && r.state.currentFlavorText == ""
    ensures r.state.pendingCalls == s.pendingCalls - 1 && r.state.recordId == s.recordId
    ensures Succeeded(outcome) ==>
      && r.state.data == Some(outcome.result) && r.state.hasError == s.hasError
      && r.state.errorMessage == s.errorMessage
      && r.effects == [ShowToast(SuccessToast("Summary Generated", "Account summary has been generated successfully."))]
    ensures !Succeeded(outcome) ==>
      && r.state.data == s.data && r.state.hasError && r.state.errorMessage == FailureMessage(outcome)
      && r.effects == [ShowToast(StickyErrorToast("Error", FailureMessage(outcome)))]
  {
    var stopped := StopFlavorTextRotation(s).(pendingCalls := s.pendingCalls - 1);
    if Succeeded(outcome) then
      Step(stopped.(data := Some(outcome.result), isLoading := false),
           [ShowToast(SuccessToast("Summary Generated", "Account summary has been generated successfully."))])
    else
      var message := FailureMessage(outcome);
      Step(stopped.(hasError := true, errorMessage := message, isLoading := false),
           [ShowToast(StickyErrorToast("Error", message))])
  }

  /** The whole of `handleSummarize`, with the remote call completing as `outcome`. */
  function HandleSummarize(s: SummaryState, outcome: RemoteOutcome): (r: Step<SummaryState>)
    ensures Wf(s) ==> Wf(r.state) && r.state.runningTimers == {} && r.state.flavorTextInterval.None?
    ensures !r.state.isLoading && r.state.currentFlavorText == ""
    ensures r.state.data.Some? <==> Succeeded(outcome)
    ensures r.state.data.Some? ==> r.state.data.value == outcome.result
    ensures r.state.hasError <==> !Succeeded(outcome)
    ensures r.state.hasError ==> r.state.errorMessage == FailureMessage(outcome)
    ensures !r.state.hasError ==> r.state.errorMessage == ""
    ensures |r.effects| == 2 && r.effects[0] == CallGetAccountSummary(s.recordId)
    ensures r.effects[1].ShowToast? && (r.effects[1].toast.variant == "success" <==> Succeeded(outcome))
    ensures Succeeded(outcome) ==>
      r.effects[1] == ShowToast(SuccessToast("Summary Generated", "Account summary has been generated successfully."))
    ensures !Succeeded(outcome) ==> r.effects[1] == ShowToast(StickyErrorToast("Error", r.state.errorMessage))
    ensures !Navigates(r.effects)
    ensures r.state.pendingCalls == s.pendingCalls && r.state.recordId == s.recordId
  {
    var begun := BeginSummarize(s);
    var done := CompleteSummarize(begun.state, outcome);
    Step(done.state, begun.effects + done.effects)
  }

  /** `handleRetry` runs the summarize flow again. */
  function HandleRetry(s: SummaryState, outcome: RemoteOutcome): (r: Step<SummaryState>)
    ensures !r.state.isLoading && (r.state.data.Some? <==> Succeeded(outcome))
    ensures r.state.hasError <==> !Succeeded(outcome)
  {
    HandleSummarize(s, outcome)
  }

  /** `handleRefresh` drops the data and stops the rotation before summarizing; the
      outcome is exactly that of summarizing from the same state. */
  function HandleRefresh(s: SummaryState, outcome: RemoteOutcome): (r: Step<SummaryState>)
    ensures r == HandleSummarize(s, outcome)
  {
    HandleSummarize(StopFlavorTextRotation(s.(data := None)), outcome)
  }

  /** `disconnectedCallback`: teardown stops the rotation, so no timer outlives the view. */
  function Disconnected(s: SummaryState): (r: SummaryState)
    ensures Wf(s) ==> Wf(r) && r.runningTimers == {}
    ensures r.data == s.data && r.hasError == s.hasError && r.isLoading == s.isLoading
    ensures r.recordId == s.recordId && r.pendingCalls == s.pendingCalls
    ensures r.currentFlavorText == "" && r.errorMessage == s.errorMessage
  {
    StopFlavorTextRotation(s)
  }

  /** The prompt to summarize shows when nothing is loading, failed or loaded. */
  predicate ShowInitialState(s: SummaryState) {
    !s.isLoading && !s.hasError && s.data.None?
  }

  /** The results show when data is loaded and nothing is loading or failed. */
  predicate ShowResults(s: SummaryState) {
    !s.isLoading && !s.hasError && s.data.Some?
  }

  /** In a reachable state exactly one of the loading, error, initial and results
      views shows, and the results view shows successful data. */
  lemma ViewsPartition(s: SummaryState)
    requires Wf(s)
    ensures !(ShowInitialState(s) && ShowResults(s))
    ensures s.isLoading ==> !s.hasError && !ShowInitialState(s) && !ShowResults(s)
    ensures s.hasError ==> !ShowInitialState(s) && !ShowResults(s)
    ensures !s.isLoading && !s.hasError ==> ShowInitialState(s) != ShowResults(s)
    ensures ShowResults(s) ==> s.data.value.success
  {
  }

  /** The events the component reacts to. */
  datatype SummaryEvent =
    | Summarize(outcome: RemoteOutcome)
    | Retry(outcome: RemoteOutcome)
    | Refresh(outcome: RemoteOutcome)
    | Begin
    | Complete(outcome: RemoteOutcome)
    | Tick(handle: nat, index: FlavorIndex)
    | Disconnect

  /** A completion only answers a call that was issued and not yet answered. */
  predicate Enabled(s: SummaryState, e: SummaryEvent) {
    e.Complete? ==> s.pendingCalls > 0
  }

  function Next(s: SummaryState, e: SummaryEvent): SummaryState
    requires Enabled(s, e)
  {
    match e
    case Summarize(o) => HandleSummarize(s, o).state
    case Retry(o) => HandleRetry(s, o).state
    case Refresh(o) => HandleRefresh(s, o).state
    case Begin => BeginSummarize(s).state
    case Complete(o) => CompleteSummarize(s, o).state
    case Tick(h, i) => TimerFired(s, h, i)
    case Disconnect => Disconnected(s)
  }

  /** Every event keeps a reachable state reachable. */
  lemma NextPreservesWf(s: SummaryState, e: SummaryEvent)
    requires Wf(s) && Enabled(s, e)
    ensures Wf(Next(s, e))
  {
  }

  /** Applies the events of `events` in order, skipping completions with no call in flight. */
  function Run(s: SummaryState, events: seq<SummaryEvent>): SummaryState
    requires Wf(s)
    decreases |events|
  {
    if |events| == 0 then s
    else
      var s' := if Enabled(s, events[0]) then (NextPreservesWf(s, events[0]); Next(s, events[0])) else s;
      Run(s', events[1..])
  }

  /** From the initial view, any sequence of events keeps at most one status timer
      running, and none once the view is neither loading nor showing a phrase. */
  lemma {:induction false} RunPreservesWf(s: SummaryState, events: seq<SummaryEvent>)
    requires Wf(s)
    ensures Wf(Run(s, events))
    ensures |Run(s, events).runningTimers| <= 1
    ensures !Run(s, events).isLoading ==> Run(s, events).runningTimers == {}
    decreases |events|
  {
    if |events| > 0 {
      var s' := if Enabled(s, events[0]) then Next(s, events[0]) else s;
      if Enabled(s, events[0]) {
        NextPreservesWf(s, events[0]);
      }
      RunPreservesWf(s', events[1..]);
    }
  }

  /** Two overlapping summarize requests whose later one succeeds first and whose
      earlier one then fails leave the error flag set next to the later result:
      the error view shows (neither the prompt nor the results do) while the data
      stays loaded, which the compose action still uses. */
  lemma OverlappingFailureKeepsData(s: SummaryState, first: RemoteOutcome, second: RemoteOutcome)
    requires Wf(s) && !Succeeded(first) && Succeeded(second)
    ensures var twice := BeginSummarize(BeginSummarize(s).state).state;
      var late := CompleteSummarize(CompleteSummarize(twice, second).state, first).state;
      && Wf(late)
      && late.hasError && late.data == Some(second.result)
      && late.errorMessage == FailureMessage(first)
      && !ShowResults(late) && !ShowInitialState(late)
  {
  }

  /** The other order: when the later call fails first and the earlier one then
      succeeds, the success neither clears the error flag nor its message, so the
      error view stays up over the fresh data. */
  lemma OverlappingSuccessKeepsError(s: SummaryState, first: RemoteOutcome, second: RemoteOutcome)
    requires Wf(s) && Succeeded(first) && !Succeeded(second)
    ensures var twice := BeginSummarize(BeginSummarize(s).state).state;
      var late := CompleteSummarize(CompleteSummarize(twice, second).state, first).state;
      && Wf(late)
      && late.hasError && late.data == Some(first.result)
      && late.errorMessage == FailureMessage(second)
      && !ShowResults(late) && !ShowInitialState(late)
  {
  }
}
