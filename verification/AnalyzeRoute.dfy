/** The `POST` handler of frontend/app/api/analyze/route.ts: validates the
    multipart form, forwards it to the backend and translates the outcome
    into a JSON reply. The network is an input: `BackendOutcome` says what
    the forwarded request came back with. */
module AnalyzeRoute {
  import opened Wrappers
  import opened Strings

  /** An uploaded file, known by its name. */
  datatype UploadedFile = UploadedFile(name: string)

  /** The `cv_file` and `job_description` fields of the form, each possibly absent. */
  datatype Form = Form(cvFile: Option<UploadedFile>, jobDescription: Option<string>)

  /** A thrown value: an `Error` (its `name`, `message` and `stack`) or
      anything else. */
  datatype Thrown = ErrorValue(name: string, message: string, stack: string) | OtherValue

  /** `request.formData()`: the form, or the value it rejected with. */
  datatype FormRead = FormParsed(form: Form) | FormRejected(thrown: Thrown)

  /** The fields of a JSON error body the route reads, as strings; "" stands
      for an absent or falsy field. */
  datatype ErrorFields = ErrorFields(detail: string, error: string)

  /** `JSON.parse` of a body text: the fields it carries, or the
      `SyntaxError` it throws. */
  datatype JsonParse = Parsed(fields: ErrorFields) | NotJson(syntaxError: Thrown)

  /** The whole JSON parser, as the route uses it. */
  type JsonParser = string -> JsonParse

  /** What the forwarded `fetch` came back with: a response (status, status
      text, body text), or a thrown value (an abort, a refused connection...). */
  datatype BackendOutcome = Responded(status: nat, statusText: string, body: string) | Threw(thrown: Thrown)

  /** The JSON the route answers with: the backend's body passed through, or
      `{error, details?}`. */
  datatype ReplyBody = Relayed(json: string) | ErrorJson(error: string, details: Option<string>)

  datatype ProxyReply = ProxyReply(status: nat, body: ReplyBody)

  const DefaultBackendUrl: string := "http://localhost:8000"
  const MissingFile: string := "CV file is required"
  const MissingJobDescription: string := "Job description is required"
  const NotPdf: string := "Only PDF files are supported"
  /** "Request timeout - the backend took too long to respond". It is
      written as three shorter literals because the verifier reasons about
      long string literals slowly; the value is the same. */
  const TimeoutMessage: string := "Request " + "timeout" + " - the backend took too long to respond"

  /** `process.env.FASTAPI_BACKEND_URL || 'http://localhost:8000'`. */
  function BackendUrl(env: Option<string>): (url: string)
    ensures url != ""
    ensures env.Some? && env.value != "" ==> url == env.value
    ensures !(env.Some? && env.value != "") ==> url == DefaultBackendUrl
  {
    if env.Some? && env.value != "" then env.value else DefaultBackendUrl
  }

  /** Lines 11-31: the first failed check, in the order file, job description,
      `.pdf` suffix; None when the request may be forwarded. */
  function ValidationError(form: Form): (e: Option<string>)
    ensures form.cvFile.None? ==> e == Some(MissingFile)
    ensures form.cvFile.Some? && (form.jobDescription.None? || IsBlank(form.jobDescription.value)) ==>
      e == Some(MissingJobDescription)
    ensures form.cvFile.Some? && form.jobDescription.Some? && !IsBlank(form.jobDescription.value) ==>
      (e == Some(NotPdf) <==> !EndsWith(form.cvFile.value.name, ".pdf"))
    ensures e.None? <==>
      form.cvFile.Some? && form.jobDescription.Some? && !IsBlank(form.jobDescription.value)
      && EndsWith(form.cvFile.value.name, ".pdf")
  {
    if form.cvFile.None? then Some(MissingFile)
    else if form.jobDescription.None? || IsBlank(form.jobDescription.value) then Some(MissingJobDescription)
    else if !EndsWith(form.cvFile.value.name, ".pdf") then Some(NotPdf)
    else None
  }

  /** The outer `catch` (lines 103-111): a 500 with the error's message and
      stack, or a generic message for a thrown non-error. */
  function InternalError(t: Thrown): (r: ProxyReply)
    ensures r.status == 500 && r.body.ErrorJson?
    ensures t.ErrorValue? ==> r.body == ErrorJson(t.message, Some(t.stack))
    ensures t.OtherValue? ==> r.body == ErrorJson("Internal server error", None)
  {
    match t
    case ErrorValue(_, message, stack) => ProxyReply(500, ErrorJson(message, Some(stack)))
    case OtherValue => ProxyReply(500, ErrorJson("Internal server error", None))
  }

  /** The message of a connection failure: it names the backend URL. */
  function ConnectError(url: string): (m: string)
    ensures StartsWith(m, "Cannot connect to backend")
    ensures Contains(m, url)
  {
    var lead, tail := "Cannot connect to backend at ", ". Please ensure the backend is running.";
    var m := lead + url + tail;
    assert m[..|"Cannot connect to backend"|] == "Cannot connect to backend";
    StartsWithContains(url, url);
    ContainsInConcat(lead, url, tail, url);
    m
  }

  /** The inner `catch` (lines 75-101): an abort is a timeout, a failed or
      refused connection is a 503, anything else is rethrown to the outer
      `catch`. */
  function FetchFailure(url: string, t: Thrown): (r: ProxyReply)
    ensures t.ErrorValue? && t.name == "AbortError" ==> r == ProxyReply(504, ErrorJson(TimeoutMessage, None))
    ensures t.ErrorValue? && t.name != "AbortError"
      && (Contains(t.message, "fetch failed") || Contains(t.message, "ECONNREFUSED"))
      ==> r == ProxyReply(503, ErrorJson(ConnectError(url), Some(t.message)))
    ensures r.status == 500 <==>
      t.OtherValue? || (t.name != "AbortError" && !Contains(t.message, "fetch failed") && !Contains(t.message, "ECONNREFUSED"))
    ensures r.status == 500 ==> r == InternalError(t)
  {
    match t
    case OtherValue => InternalError(t)
    case ErrorValue(name, message, _) =>
      if name == "AbortError" then ProxyReply(504, ErrorJson(TimeoutMessage, None))
      else if Contains(message, "fetch failed") || Contains(message, "ECONNREFUSED") then
        ProxyReply(503, ErrorJson(ConnectError(url), Some(message)))
      else InternalError(t)
  }

  /** `response.ok`. */
  predicate IsOk(status: nat) {
    200 <= status <= 299
  }

  /** Lines 58-64: the error body's fields; a body that is not JSON becomes a
      `detail` holding its text, or a status line when it is empty. */
  function BackendErrorFields(status: nat, statusText: string, body: string, parse: JsonParser): (f: ErrorFields)
    ensures parse(body).Parsed? ==> f == parse(body).fields
    ensures parse(body).NotJson? ==> f.error == "" && f.detail != ""
    ensures parse(body).NotJson? && body != "" ==> f.detail == body
    ensures parse(body).NotJson? && body == "" ==>
      f.detail == "Backend error: " + NatToDecimal(status) + " " + statusText
  {
    match parse(body)
    case Parsed(fields) => fields
    case NotJson(_) =>
      ErrorFields(if body != "" then body else "Backend error: " + NatToDecimal(status) + " " + statusText, "")
  }

  /** Line 68: `detail || error || 'Backend error: ' + statusText`. */
  function BackendErrorMessage(f: ErrorFields, statusText: string): (m: string)
    ensures m != ""
    ensures f.detail != "" ==> m == f.detail
    ensures f.detail == "" && f.error != "" ==> m == f.error
    ensures f.detail == "" && f.error == "" ==> m == "Backend error: " + statusText
  {
    if f.detail != "" then f.detail
    else if f.error != "" then f.error
    else "Backend error: " + statusText
  }

  /** Lines 49-101: what the route answers once the request was forwarded. */
  function Forwarded(url: string, outcome: BackendOutcome, parse: JsonParser): (r: ProxyReply)
    ensures outcome.Responded? && IsOk(outcome.status) && parse(outcome.body).Parsed? ==>
      r == ProxyReply(200, Relayed(outcome.body))
    ensures outcome.Responded? && !IsOk(outcome.status) ==>
      r.status == outcome.status && r.body.ErrorJson? && r.body.error != "" && r.body.details.None?
    ensures outcome.Responded? && !IsOk(outcome.status) ==>
      r.body.error == BackendErrorMessage(BackendErrorFields(outcome.status, outcome.statusText, outcome.body, parse), outcome.statusText)
    ensures outcome.Responded? && IsOk(outcome.status) && parse(outcome.body).NotJson? ==>
      r == FetchFailure(url, parse(outcome.body).syntaxError)
    ensures outcome.Threw? ==> r == FetchFailure(url, outcome.thrown)
  {
    match outcome
    case Threw(t) => FetchFailure(url, t)
    case Responded(status, statusText, body) =>
      if !IsOk(status) then
        var fields := BackendErrorFields(status, statusText, body, parse);
        ProxyReply(status, ErrorJson(BackendErrorMessage(fields, statusText), None))
      else
        match parse(body)
        case Parsed(_) => ProxyReply(200, Relayed(body))
        // `response.json()` threw inside the inner `try`
        case NotJson(syntaxError) => FetchFailure(url, syntaxError)
  }

  /** `POST`. */
  function Post(read: FormRead, env: Option<string>, outcome: BackendOutcome, parse: JsonParser): (r: ProxyReply)
    ensures read.FormRejected? ==> r == InternalError(read.thrown)
    ensures read.FormParsed? && ValidationError(read.form).Some? ==>
      r == ProxyReply(400, ErrorJson(ValidationError(read.form).value, None))
    ensures read.FormParsed? && ValidationError(read.form).None? ==>
      r == Forwarded(BackendUrl(env), outcome, parse)
  {
    match read
    case FormRejected(t) => InternalError(t)
    case FormParsed(form) =>
      match ValidationError(form)
      case Some(e) => ProxyReply(400, ErrorJson(e, None))
      case None => Forwarded(BackendUrl(env), outcome, parse)
  }

  /** A refused form never reaches the backend: its reply is the same
      whatever the backend would have done. */
  lemma RejectedFormIgnoresBackend(form: Form, env: Option<string>, o1: BackendOutcome, o2: BackendOutcome, parse: JsonParser)
    requires ValidationError(form).Some?
    ensures Post(FormParsed(form), env, o1, parse) == Post(FormParsed(form), env, o2, parse)
    ensures Post(FormParsed(form), env, o1, parse).status == 400
  {
  }

  /** An abort is reported as a timeout even when its message mentions a
      failed fetch: the abort test comes first. */
  lemma AbortBeatsConnection(url: string, message: string, stack: string)
    ensures FetchFailure(url, ErrorValue("AbortError", message, stack)).status == 504
  {
  }
}
