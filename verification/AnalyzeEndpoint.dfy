/** The two POST handlers of api/index.py, with PDF reading and the agent
    workflow as inputs: `analyze_career_file` (multipart upload) and
    `analyze_career` (JSON body with the resume already as text). */
module AnalyzeEndpoint {
  import opened Strings
  import opened Analysis
  import opened AgentOutput

  /** What PyPDF2 produced: the text of every page in order, or the message
      of the exception it raised. */
  datatype PdfRead = Pages(texts: seq<string>) | PdfFailure(message: string)

  /** What `graph_app.invoke` produced: the final message history, or the
      message of the exception it raised. */
  datatype AgentRun = Finished(messages: seq<Message>) | Raised(message: string)

  /** The workflow, given the job description and the resume text. */
  type Agent = (string, string) -> AgentRun

  /** The reply of a handler: the structured analysis, or an `HTTPException`. */
  datatype Reply = Analysed(body: AnalysisResponse) | HttpError(status: nat, detail: string)

  const OnlyPdf: string := "Only PDF files are supported"
  const NoText: string := "Could not extract text from PDF. The file might be empty or corrupted."
  /** `str(IndexError)` for `result["messages"][-1]` on an empty history. */
  const EmptyHistory: string := "list index out of range"

  /** The page texts, each followed by a newline. */
  function JoinPages(pages: seq<string>): (text: string)
    ensures |text| >= |pages|
    ensures pages == [] <==> text == []
    ensures pages != [] ==> StartsWith(text, pages[0] + "\n") && text[|text| - 1] == '\n'
  {
    if pages == [] then [] else pages[0] + "\n" + JoinPages(pages[1..])
  }

  /** Joining distributes over concatenation: every page appears, in order,
      each followed by its newline. */
  lemma {:induction false} JoinPagesConcat(a: seq<string>, b: seq<string>)
    ensures JoinPages(a + b) == JoinPages(a) + JoinPages(b)
    decreases |a|
  {
    if a == [] {
      assert a + b == b;
    } else {
      assert (a + b)[0] == a[0];
      assert (a + b)[1..] == a[1..] + b;
      JoinPagesConcat(a[1..], b);
    }
  }

  /** The joined text is blank exactly when every page is: the newlines the
      join adds are whitespace. */
  lemma {:induction false} JoinPagesAllSpace(pages: seq<string>)
    ensures AllSpace(JoinPages(pages)) <==> forall i :: 0 <= i < |pages| ==> AllSpace(pages[i])
    decreases |pages|
  {
    if pages != [] {
      var head, rest := pages[0] + "\n", JoinPages(pages[1..]);
      JoinPagesAllSpace(pages[1..]);
      AllSpaceConcat(pages[0], "\n");
      AllSpaceConcat(head, rest);
      assert forall i :: 1 <= i < |pages| ==> pages[i] == pages[1..][i - 1];
      assert forall i :: 0 <= i < |pages| - 1 ==> pages[1..][i] == pages[i + 1];
    }
  }

  /** The outcome of `extract_text_from_pdf`: the resume text, or the detail
      of the 400 it raises. */
  datatype Extraction = Extracted(text: string) | ExtractFailed(detail: string)

  /** `extract_text_from_pdf` (lines 85-100): the stripped concatenation of
      the pages, or a failure carrying the reader's message. */
  function ExtractText(pdf: PdfRead): (r: Extraction)
    ensures pdf.PdfFailure? <==> r.ExtractFailed?
    ensures pdf.PdfFailure? ==> r.detail == "Failed to extract text from PDF: " + pdf.message
    ensures pdf.Pages? ==> IsStripOf(JoinPages(pdf.texts), r.text)
  {
    match pdf
    case Pages(texts) => Extracted(Strip(JoinPages(texts)))
    case PdfFailure(m) => ExtractFailed("Failed to extract text from PDF: " + m)
  }

  /** Lines 137-146 and 148-152: run the workflow and parse its last message;
      an exception becomes a 500 carrying its message. */
  function RunAgent(agent: Agent, jobDescription: string, resume: string, eval: LiteralEval): (r: Reply)
    ensures var run := agent(jobDescription, resume);
      && (run.Raised? ==> r == HttpError(500, run.message))
      && (run == Finished([]) ==> r == HttpError(500, EmptyHistory))
      && (run.Finished? && run.messages != [] ==>
            r == Analysed(ParseResponse(run.messages[|run.messages| - 1].content, run.messages, eval)))
  {
    match agent(jobDescription, resume)
    case Raised(m) => HttpError(500, m)
    case Finished(msgs) =>
      if msgs == [] then HttpError(500, EmptyHistory)
      else Analysed(ParseResponse(msgs[|msgs| - 1].content, msgs, eval))
  }

  /** `analyze_career_file`: the filename check, then text extraction, then
      the empty-text check, and only then the workflow. */
  function AnalyzeCareerFile(filename: string, pdf: PdfRead, jobDescription: string, agent: Agent, eval: LiteralEval): (r: Reply)
    ensures r == HttpError(400, OnlyPdf) <==> !EndsWith(filename, ".pdf")
    ensures EndsWith(filename, ".pdf") && pdf.PdfFailure? ==>
      r == HttpError(400, "Failed to extract text from PDF: " + pdf.message)
    ensures EndsWith(filename, ".pdf") && pdf.Pages? && AllSpace(JoinPages(pdf.texts)) ==> r == HttpError(400, NoText)
    ensures r.Analysed? ==> EndsWith(filename, ".pdf") && pdf.Pages? && !AllSpace(JoinPages(pdf.texts))
    ensures EndsWith(filename, ".pdf") && pdf.Pages? && !AllSpace(JoinPages(pdf.texts)) ==>
      r == RunAgent(agent, jobDescription, Strip(JoinPages(pdf.texts)), eval)
  {
    if !EndsWith(filename, ".pdf") then HttpError(400, OnlyPdf)
    else
      match ExtractText(pdf)
      case ExtractFailed(detail) =>
        assert detail[0] == 'F' && OnlyPdf[0] == 'O';
        HttpError(400, detail)
      case Extracted(text) =>
        BlankIffAllSpace(JoinPages(pdf.texts));
        assert NoText != OnlyPdf;
        if text == [] then HttpError(400, NoText)
        else RunAgent(agent, jobDescription, text, eval)
  }

  /** A request refused by the checks gets the same reply whatever the
      workflow would have done: it is never invoked. */
  lemma RejectedBeforeAgent(filename: string, pdf: PdfRead, jobDescription: string, a1: Agent, a2: Agent, eval: LiteralEval)
    requires !EndsWith(filename, ".pdf") || pdf.PdfFailure? || (pdf.Pages? && AllSpace(JoinPages(pdf.texts)))
    ensures AnalyzeCareerFile(filename, pdf, jobDescription, a1, eval) == AnalyzeCareerFile(filename, pdf, jobDescription, a2, eval)
    ensures AnalyzeCareerFile(filename, pdf, jobDescription, a1, eval).HttpError?
    ensures AnalyzeCareerFile(filename, pdf, jobDescription, a1, eval).status == 400
  {
  }

  /** `analyze_career`: the workflow on a resume given as text. */
  function AnalyzeCareer(resume: string, jobDescription: string, agent: Agent, eval: LiteralEval): (r: Reply)
    ensures r.HttpError? ==> r.status == 500
    ensures r.Analysed? ==> agent(jobDescription, resume).Finished? && agent(jobDescription, resume).messages != []
  {
    RunAgent(agent, jobDescription, resume, eval)
  }
}
