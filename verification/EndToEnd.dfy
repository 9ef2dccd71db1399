/** How the layers fit together: what the page shows for the replies the
    route produces, and how the page's checks relate to the route's and the
    backend's. */
module EndToEnd {
  import opened Wrappers
  import opened Strings
  import opened AnalyzeRoute
  import opened HomePage
  import AgentOutput
  import AnalyzeEndpoint

  /** How the page reads an error reply of the route: `res.ok` is false and
      the body parses as `{error, details?}`. */
  function PageOutcome(reply: ProxyReply): (o: RequestOutcome)
    requires reply.body.ErrorJson? && !IsOk(reply.status)
    ensures o.Failed? && o.status == reply.status && o.errorBody.Json?
    ensures o.errorBody.value.error == reply.body.error
    ensures reply.body.details.Some? ==> o.errorBody.value.details == reply.body.details.value
    ensures reply.body.details.None? ==> o.errorBody.value.details == ""
  {
    Failed(reply.status, Json(ErrorDetails(reply.body.error, reply.body.details.GetOr(""))))
  }

  /** A refused or failed connection to the backend ends with the route's
      connection message followed by the page's start-the-backend hint. */
  lemma ConnectionFailureShowsHint(s: PageState, url: string, name: string, message: string, stack: string)
    requires s.cvFile.Some? && !AllSpace(s.jobDescription)
    requires name != "AbortError" && (Contains(message, "fetch failed") || Contains(message, "ECONNREFUSED"))
    ensures var reply := FetchFailure(url, ErrorValue(name, message, stack));
      reply.status == 503 &&
      CompleteSubmit(StartSubmit(s).state, PageOutcome(reply)).error == Some(ConnectError(url) + ConnectHint)
  {
    BlankIffAllSpace(s.jobDescription);
    var reply := FetchFailure(url, ErrorValue(name, message, stack));
    var m := ConnectError(url);
    assert reply == ProxyReply(503, ErrorJson(m, Some(message)));
    ConnectErrorIsConnectionTrouble(url);
    assert CaughtMessage(PageOutcome(reply)) == Some(m);
  }

  /** The route's connection message is one the page recognises. */
  lemma ConnectErrorIsConnectionTrouble(url: string)
    ensures ConnectionTrouble(ConnectError(url))
  {
    StartsWithContains(ConnectError(url), "Cannot connect to backend");
  }

  /** A timed-out request ends with the route's timeout message followed by
      the page's try-again hint. */
  lemma TimeoutShowsHint(s: PageState, url: string, message: string, stack: string)
    requires s.cvFile.Some? && !AllSpace(s.jobDescription)
    ensures var reply := FetchFailure(url, ErrorValue("AbortError", message, stack));
      reply.status == 504 &&
      CompleteSubmit(StartSubmit(s).state, PageOutcome(reply)).error == Some(TimeoutMessage + TimeoutHint)
  {
    BlankIffAllSpace(s.jobDescription);
    var reply := FetchFailure(url, ErrorValue("AbortError", message, stack));
    assert reply == ProxyReply(504, ErrorJson(TimeoutMessage, None));
    assert CaughtMessage(PageOutcome(reply)) == Some(TimeoutMessage);
    TimeoutMessageWording();
  }

  /** The route's timeout message names a timeout and no connection trouble. */
  lemma TimeoutMessageWording()
    ensures Contains(TimeoutMessage, "timeout")
    ensures !ConnectionTrouble(TimeoutMessage)
  {
    var a, b := "Request ", "timeout";
    assert TimeoutMessage == a + b + TimeoutTail;
    TimeoutTailHasNoCapitalC();
    TimeoutTailHasNoCapitalE();
    TimeoutWordingPieces(a, b, TimeoutTail);
  }

  /** The part of the timeout message after the word "timeout". */
  const TimeoutTail: string := " - the backend took too long to respond"

  /** The tail lacks 'C' and 'E', the first letters of the two connection
      markers the page looks for. */
  lemma TimeoutTailHasNoCapitalC()
    ensures 'C' !in TimeoutTail
  {
  }

  lemma TimeoutTailHasNoCapitalE()
    ensures 'E' !in TimeoutTail
  {
  }

  /** The same facts for the pieces the message is made of. */
  lemma TimeoutWordingPieces(a: string, b: string, c: string)
    requires b == "timeout"
    requires 'C' !in a && 'C' !in b && 'C' !in c
    requires 'E' !in a && 'E' !in b && 'E' !in c
    ensures Contains(a + b + c, "timeout")
    ensures !ConnectionTrouble(a + b + c)
  {
    StartsWithContains(b, b);
    ContainsInConcat(a, b, c, b);
    assert 'C' !in a + b + c && 'E' !in a + b + c;
    MissingFirstCharNotContained(a + b + c, "Cannot connect to backend");
    MissingFirstCharNotContained(a + b + c, "ECONNREFUSED");
  }

  /** A backend error reaches the page with its status and with the message
      the route chose; the page never falls back to its own status line. */
  lemma BackendErrorReachesPage(s: PageState, url: string, status: nat, statusText: string, body: string, parse: JsonParser)
    requires s.cvFile.Some? && !AllSpace(s.jobDescription) && !IsOk(status)
    ensures var reply := Forwarded(url, Responded(status, statusText, body), parse);
      var message := BackendErrorMessage(BackendErrorFields(status, statusText, body, parse), statusText);
      reply.status == status &&
      CompleteSubmit(StartSubmit(s).state, PageOutcome(reply)).error == Some(WithHint(message))
  {
    BlankIffAllSpace(s.jobDescription);
  }

  /** The route's form built from a state the page sends from. */
  function FormOf(s: PageState): Form
    requires s.cvFile.Some?
  {
    Form(Some(UploadedFile(s.cvFile.value.name)), Some(s.jobDescription))
  }

  /** Whatever the page sends passes the route's presence checks; only the
      route's `.pdf` name check can still refuse it. */
  lemma PageChecksImplyRoutePresence(s: PageState)
    requires s.cvFile.Some? && !AllSpace(s.jobDescription)
    ensures ValidationError(FormOf(s)).None? <==> EndsWith(s.cvFile.value.name, ".pdf")
    ensures ValidationError(FormOf(s)).Some? ==> ValidationError(FormOf(s)).value == NotPdf
  {
    BlankIffAllSpace(s.jobDescription);
  }

  /** The page checks the MIME type and the route the file name, so a PDF
      whose name ends in `.PDF` is accepted by the page and refused by the
      route. */
  lemma UpperCaseSuffixRefusedByRoute(s: PageState, name: string)
    requires !AllSpace(s.jobDescription) && EndsWith(name, ".PDF")
    ensures var t := FileChanged(s, Some(PickedFile(name, "application/pdf")));
      StartSubmit(t).Sending? && ValidationError(FormOf(t)) == Some(NotPdf)
  {
    BlankIffAllSpace(s.jobDescription);
    UpperCaseSuffixIsNotPdf(name);
  }

  /** A name ending in `.PDF` does not end in `.pdf`. */
  lemma UpperCaseSuffixIsNotPdf(name: string)
    requires EndsWith(name, ".PDF")
    ensures !EndsWith(name, ".pdf")
  {
    assert name[|name| - 3] == 'P';
  }

  /** The backend's own suffix check never refuses an upload the route
      forwarded, since both test the same name for `.pdf`. */
  lemma ForwardedUploadPassesBackendSuffixCheck(form: Form, pdf: AnalyzeEndpoint.PdfRead, agent: AnalyzeEndpoint.Agent, eval: AgentOutput.LiteralEval)
    requires ValidationError(form).None?
    ensures AnalyzeEndpoint.AnalyzeCareerFile(form.cvFile.value.name, pdf, form.jobDescription.value, agent, eval)
      != AnalyzeEndpoint.HttpError(400, AnalyzeEndpoint.OnlyPdf)
  {
  }
}
