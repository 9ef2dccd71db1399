/** The form of app/page.tsx as a state machine: the five pieces of React
    state, the transitions the event handlers make, the error message shown
    after a failed request, and the rule for the submit button. */
module HomePage {
  import opened Wrappers
  import opened Strings
  import opened Analysis

  /** A file chosen in the file input: its name and MIME type. */
  datatype PickedFile = PickedFile(name: string, mimeType: string)

  /** `cvFile`, `jobDescription`, `loading`, `response`, `error`. */
  datatype PageState = PageState(
    cvFile: Option<PickedFile>,
    jobDescription: string,
    loading: bool,
    response: Option<AnalysisResponse>,
    error: Option<string>)

  /** The state on first render. */
  const Initial: PageState := PageState(None, "", false, None, None)

  const NotPdfFile: string := "Please upload a PDF file"
  const NoCvFile: string := "Please upload a CV file"
  const NoJobDescription: string := "Please enter a job description"
  const ConnectHint: string := "\n\nPlease ensure your FastAPI backend is running on port 8000."
  const TimeoutHint: string := "\n\nThe analysis is taking longer than expected. Please try again."

  /** `handleFileChange` (lines 28-38), given the first selected file if any. */
  function FileChanged(s: PageState, file: Option<PickedFile>): (r: PageState)
    ensures file.None? ==> r == s
    ensures file.Some? && file.value.mimeType != "application/pdf" ==>
      r == s.(error := Some(NotPdfFile))
    ensures file.Some? && file.value.mimeType == "application/pdf" ==>
      r == s.(cvFile := file, error := None)
    ensures r.jobDescription == s.jobDescription && r.loading == s.loading && r.response == s.response
  {
    match file
    case None => s
    case Some(f) =>
      if f.mimeType != "application/pdf" then s.(error := Some(NotPdfFile))
      else s.(cvFile := Some(f), error := None)
  }

  /** The text area's `onChange` (line 139). */
  function JobDescriptionEdited(s: PageState, text: string): (r: PageState)
    ensures r.jobDescription == text
    ensures r.(jobDescription := s.jobDescription) == s
  {
    s.(jobDescription := text)
  }

  /** Line 154: the submit button is disabled while loading, without a file,
      or with a blank job description. */
  function ButtonDisabled(s: PageState): (disabled: bool)
    ensures disabled <==> s.loading || s.cvFile.None? || AllSpace(s.jobDescription)
  {
    BlankIffAllSpace(s.jobDescription);
    s.loading || s.cvFile.None? || IsBlank(s.jobDescription)
  }

  /** The synchronous part of `handleSubmit`: it stops at a validation error,
      or sends the request from a new state. */
  datatype SubmitStart = Stopped(state: PageState) | Sending(state: PageState)

  /** Lines 43-55: the file check, then the job-description check, then the
      switch to loading with error and previous response cleared. */
  function StartSubmit(s: PageState): (r: SubmitStart)
    ensures s.cvFile.None? ==> r == Stopped(s.(error := Some(NoCvFile)))
    ensures s.cvFile.Some? && IsBlank(s.jobDescription) ==> r == Stopped(s.(error := Some(NoJobDescription)))
    ensures r.Sending? <==> s.cvFile.Some? && !IsBlank(s.jobDescription)
    ensures r.Sending? ==> r.state == s.(loading := true, error := None, response := None)
    ensures r.Stopped? ==> r.state.loading == s.loading && r.state.response == s.response
  {
    if s.cvFile.None? then Stopped(s.(error := Some(NoCvFile)))
    else if IsBlank(s.jobDescription) then Stopped(s.(error := Some(NoJobDescription)))
    else Sending(s.(loading := true, error := None, response := None))
  }

  /** The body `res.json()` read: the value, or the message of the
      `SyntaxError` it rejected with. */
  datatype JsonBody<T> = Json(value: T) | Malformed(message: string)

  /** The `error` and `details` fields of an error body; "" stands for an
      absent or falsy field. */
  datatype ErrorDetails = ErrorDetails(error: string, details: string)

  /** How the request to `/api/analyze` ended. */
  datatype RequestOutcome =
    | Succeeded(body: JsonBody<AnalysisResponse>)
    | Failed(status: nat, errorBody: JsonBody<ErrorDetails>)
    | NetworkError(message: string)

  /** Line 69: `error || details || 'Failed to analyze resume (status)'`. */
  function FailureMessage(status: nat, d: ErrorDetails): (m: string)
    ensures m != ""
    ensures d.error != "" ==> m == d.error
    ensures d.error == "" && d.details != "" ==> m == d.details
    ensures d.error == "" && d.details == "" ==> m == "Failed to analyze resume (" + NatToDecimal(status) + ")"
  {
    if d.error != "" then d.error
    else if d.details != "" then d.details
    else "Failed to analyze resume (" + NatToDecimal(status) + ")"
  }

  /** The message of the error caught at line 75, None when the request
      succeeded. An unreadable error body reads as `{error: 'Unknown error'}`. */
  function CaughtMessage(o: RequestOutcome): (m: Option<string>)
    ensures m.None? <==> o.Succeeded? && o.body.Json?
    ensures o.Failed? && o.errorBody.Json? ==> m == Some(FailureMessage(o.status, o.errorBody.value))
    ensures o.Failed? && o.errorBody.Malformed? ==> m == Some("Unknown error")
    ensures o.NetworkError? ==> m == Some(o.message)
    ensures o.Succeeded? && o.body.Malformed? ==> m == Some(o.body.message)
  {
    match o
    case Succeeded(Json(_)) => None
    case Succeeded(Malformed(message)) => Some(message)
    case Failed(status, Json(d)) => Some(FailureMessage(status, d))
    case Failed(_, Malformed(_)) => Some("Unknown error")
    case NetworkError(message) => Some(message)
  }

  /** The message points at an unreachable backend. */
  predicate ConnectionTrouble(message: string) {
    Contains(message, "Cannot connect to backend") || Contains(message, "ECONNREFUSED")
  }

  /** Lines 79-85: the hint appended to a caught message. A connection hint
      takes precedence over a timeout hint; at most one is appended. */
  function WithHint(message: string): (m: string)
    ensures StartsWith(m, message)
    ensures ConnectionTrouble(message) ==> m == message + ConnectHint
    ensures !ConnectionTrouble(message) && Contains(message, "timeout") ==> m == message + TimeoutHint
    ensures !ConnectionTrouble(message) && !Contains(message, "timeout") ==> m == message
  {
    var m := if ConnectionTrouble(message) then message + ConnectHint
    else if Contains(message, "timeout") then message + TimeoutHint
    else message;
    assert m[..|message|] == message;
    m
  }

  /** Lines 73-92: the state after the request ended. Loading stops
      whatever the outcome; a success stores the response, a failure the
      hinted message. */
  function CompleteSubmit(s: PageState, o: RequestOutcome): (r: PageState)
    ensures !r.loading
    ensures r.cvFile == s.cvFile && r.jobDescription == s.jobDescription
    ensures CaughtMessage(o).None? ==> r.response == Some(o.body.value) && r.error == s.error
    ensures CaughtMessage(o).Some? ==>
      r.response == s.response && r.error == Some(WithHint(CaughtMessage(o).value))
  {
    match CaughtMessage(o)
    case None => s.(response := Some(o.body.value), loading := false)
    case Some(message) => s.(error := Some(WithHint(message)), loading := false)
  }

  /** On first render the button is disabled, and a submit would stop at
      the missing file. */
  lemma InitialStops()
    ensures ButtonDisabled(Initial)
    ensures StartSubmit(Initial) == Stopped(Initial.(error := Some(NoCvFile)))
  {
  }

  /** The button is enabled exactly when a submit would send the request
      and not stop at a validation message. */
  lemma EnabledButtonSends(s: PageState)
    requires !s.loading
    ensures !ButtonDisabled(s) <==> StartSubmit(s).Sending?
  {
  }

  /** While a request is in flight the button stays disabled, so it cannot
      be sent twice. */
  lemma SendingDisablesButton(s: PageState)
    requires s.cvFile.Some? && !AllSpace(s.jobDescription)
    ensures StartSubmit(s).Sending? && ButtonDisabled(StartSubmit(s).state)
  {
    BlankIffAllSpace(s.jobDescription);
  }

  /** A whole round from a valid form: after the request ends, loading is
      off, exactly one of response and error is set, and the inputs are kept. */
  lemma SubmitRound(s: PageState, o: RequestOutcome)
    requires s.cvFile.Some? && !AllSpace(s.jobDescription)
    ensures var r := CompleteSubmit(StartSubmit(s).state, o);
      && !r.loading
      && (r.response.Some? <==> r.error.None?)
      && r.cvFile == s.cvFile && r.jobDescription == s.jobDescription
  {
    BlankIffAllSpace(s.jobDescription);
  }
}
