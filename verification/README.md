# Resume analyzer core in Dafny

This project models the decision logic of the resume analyzer. The FastAPI
backend takes a CV (PDF) and a job description and runs an agent workflow.
It then turns the agent's last message and its history into
`{match_score, reason, learning_plan}`. A Next.js route sits in front of it:
it validates the upload, forwards it, and translates failures into JSON
errors. The page holds the form, and a component colours the score and lists
the learning plan.

Every layer is written as pure functions over immutable datatypes:

- `Strings`: whitespace, `strip`/`trim`, `startswith`/`endswith`/`in`, and
  decimal digits, with the properties the other modules rely on.
- `Analysis`: the `{match_score, reason, learning_plan}` record shared by the
  backend and the frontend.
- `AgentOutput`: `parse_response`. The score is the leftmost match of
  `(\d+)%`, computed by a scan and related to a declarative "leftmost match"
  predicate. The reason is the stripped text. The learning plan comes from
  the first tool message whose evaluated list holds a dict with a non-empty
  `link`, both as a recursive definition and as the source's loop with
  `break`. Failing that, it comes from `re.findall` of the
  `* title: https://www.youtube.com/watch?v=...` pattern. That search is
  modelled as the backtracking matcher it is: a greedy `\s*` that gives back
  characters, a lazy title, a greedy link tail, and a scan that resumes after
  each hit.
- `AnalyzeEndpoint`: `analyze_career_file` and `analyze_career`. The checks
  come in order (suffix, extraction, empty text), then the workflow runs.
  The workflow and the PDF reader are inputs.
- `ResponseDisplay`: the three score tiers and their class strings, and the
  rule for each learning-plan row.
- `AnalyzeRoute`: the route's `POST` as a function. Its inputs are the parsed
  form, the environment variable, the outcome of the forwarded request, and
  the JSON parser.
- `HomePage`: the page's state `(cvFile, jobDescription, loading, response,
  error)` and the transitions of its handlers.
- `EndToEnd`: how the layers meet. These lemmas cover:
  - the message and hint the page shows for each kind of route failure;
  - the page's checks compared with the route's checks;
  - the route's suffix check compared with the backend's.

  The page accepts a file by its MIME type, while the route checks the
  file's name, case-sensitively. So a PDF named `CV.PDF` passes the page and
  is refused by the route (`UpperCaseSuffixRefusedByRoute`).

## Model

| member | source | states |
|---|---|---|
| Strings.Strip | api/index.py:44 | the result is the text with a whitespace prefix and a whitespace suffix cut off, and it has no whitespace at either end |
| Strings.StripIdempotent | api/index.py:44 | stripping a stripped reason changes nothing |
| Strings.BlankIffAllSpace | frontend/app/api/analyze/route.ts:18 | `trim() === ''` holds exactly when every character of the text is whitespace |
| Strings.DecimalRoundTrip | frontend/components/response-display.tsx:91 | the decimal numeral written for a number reads back as that number |
| AgentOutput.SearchPercent | api/index.py:40 | from a start position, finds a `(\d+)%` match that no other match starts to the left of, or reports that there is none |
| AgentOutput.MatchScore | api/index.py:40-41 | the score is the decimal value of the digits of the leftmost `(\d+)%` match, and 0 when the text has no match |
| AgentOutput.LeftmostMatchIsMaximalRun | api/index.py:40 | the digits of the reported match are a maximal run: no digit stands just before them |
| AgentOutput.Field | api/index.py:56-58 | `v.get(key, "")`: the dict's value for a present key, and the empty string for an absent one |
| AgentOutput.ToVideo | api/index.py:55-59 | the entry's title, video and thumbnail are the item's `title`, `link` and `thumbnail` fields, each defaulting to empty |
| AgentOutput.LinkedVideos | api/index.py:54-61 | each entry is projected from a dict item whose `link` is non-empty; there are at most as many entries as items; every entry's `video` is non-empty |
| AgentOutput.LinkedVideosKeepsEvery | api/index.py:60 | every dict item with a non-empty `link` gives an entry |
| AgentOutput.LinkedVideosConcat | api/index.py:54-61 | filtering distributes over concatenation, so entries keep the order of the list |
| AgentOutput.ToolVideos | api/index.py:49-61 | a message yields a list of entries exactly when it is a tool message whose content evaluates to a list, and the list is the linked dicts of that value |
| AgentOutput.FirstToolVideos | api/index.py:48-63 | a non-empty result is the entries of some winning message of the history |
| AgentOutput.FirstToolVideosSpec | api/index.py:48-63 | the history yields the entries of the first tool message whose list has a linked dict, and yields nothing exactly when no message has one |
| AgentOutput.CollectToolVideos | api/index.py:47-66 | the loop as written reassigns `videos` at every list-valued tool message and breaks once it is non-empty; it ends with the first winner's entries |
| AgentOutput.FirstWinnerIgnoresLater | api/index.py:62-63 | once a prefix of the history has a winner, appending messages does not change the result |
| AgentOutput.PassedOver | api/index.py:49-66 | a message that is not a tool message, whose content raises `ValueError` or `SyntaxError` when evaluated, whose value is not a list, or whose list has no linked dict leaves the result as the rest of the history decides it |
| AgentOutput.LinkAt | api/index.py:70 | `:\s*(https://www\.youtube\.com/watch\?v=[^\s]+)` at a position: a colon, whitespace, the watch prefix and at least one more non-whitespace character, with the link running up to whitespace or the end |
| AgentOutput.LazyTitle | api/index.py:70 | the lazy title ends at the first position from which the link part matches: no earlier end has a link after it; it never crosses a newline; when it finds nothing, no end before the next newline is followed by a link |
| AgentOutput.TitleFrom | api/index.py:70 | backtracking the greedy `\s*` after the star only produces hits that satisfy every part of the pattern |
| AgentOutput.MatchAt | api/index.py:70 | a hit found at a position starts with a `*` there and satisfies every part of the pattern |
| AgentOutput.FindAll | api/index.py:71 | every hit satisfies the pattern, and hits come in text order without overlapping |
| AgentOutput.HitVideo | api/index.py:72-77 | an entry from a hit has the strip of the title group as its title, exactly the link group as its video, and an empty thumbnail; the link starts with the watch prefix, goes past it and holds no whitespace, and the title fits on one line |
| AgentOutput.HitLinkIsMatched | api/index.py:70 | the link group of any hit is exactly what the link part of the pattern matches at the hit's colon |
| AgentOutput.SpaceRunEndIs | api/index.py:70 | a whitespace run that stops at a non-space character or the end is the one the greedy `\s*` takes |
| AgentOutput.NonSpaceRunEndIs | api/index.py:70 | a non-space run that stops at whitespace or the end is the one the greedy `[^\s]+` takes |
| AgentOutput.TextVideos | api/index.py:68-77 | every fallback entry has an empty thumbnail, a watch link without whitespace, and a stripped one-line title |
| AgentOutput.ParseResponse | api/index.py:37-83 | the score is non-negative and is the value of the leftmost `%` match (0 without one); the reason is the strip of the text; the plan is the first winner's entries, or the text's entries when no tool message wins |
| AgentOutput.LaterMessagesIgnored | api/index.py:48-63 | messages after a winning tool message never change the parsed response |
| AnalyzeEndpoint.JoinPages | api/index.py:92-94 | the joined text is empty exactly when there are no pages; otherwise it starts with the first page and a newline and ends with a newline |
| AnalyzeEndpoint.JoinPagesConcat | api/index.py:92-94 | joining distributes over concatenation of the page lists, so every page appears in order, each followed by a newline |
| AnalyzeEndpoint.JoinPagesAllSpace | api/index.py:92-94 | the joined text is all whitespace exactly when every page is, so the blank-text check of lines 120-121 depends on every page |
| AnalyzeEndpoint.ExtractText | api/index.py:85-100 | a reader failure becomes `Failed to extract text from PDF: ` plus its message; otherwise the text is the strip of the pages joined with newlines |
| AnalyzeEndpoint.RunAgent | api/index.py:137-152 | an exception from the workflow becomes a 500 carrying its message; an empty history is the 500 of an `IndexError`; otherwise the reply parses the last message against the whole history |
| AnalyzeEndpoint.AnalyzeCareerFile | api/index.py:102-152 | the reply is "Only PDF files are supported" exactly when the name does not end in `.pdf`; then a reader failure and a blank text are 400s; an analysis is returned only past all three checks; past them, the reply is the workflow's run on the stripped text of the joined pages |
| AnalyzeEndpoint.RejectedBeforeAgent | api/index.py:114-121 | a request refused by the suffix, extraction or empty-text check gets a 400 that does not depend on the workflow |
| AnalyzeEndpoint.AnalyzeCareer | api/index.py:154-184 | every error reply is a 500, and an analysis comes only from a workflow run with a non-empty history |
| ResponseDisplay.TierOf | frontend/components/response-display.tsx:20-24 | green exactly from 80, yellow exactly from 60 below 80, red exactly below 60 |
| ResponseDisplay.ScoreColor | frontend/components/response-display.tsx:20-24 | the text class is the class of the score's tier |
| ResponseDisplay.ScoreBgColor | frontend/components/response-display.tsx:26-30 | the background class is the class of the score's tier |
| ResponseDisplay.TextClassInjective | frontend/components/response-display.tsx:21-23 | different tiers have different text classes |
| ResponseDisplay.BgClassInjective | frontend/components/response-display.tsx:27-29 | different tiers have different background classes |
| ResponseDisplay.ColoursAgree | frontend/components/response-display.tsx:20-30 | the text colour names a tier exactly when the card background names the same tier |
| ResponseDisplay.TierMonotone | frontend/components/response-display.tsx:20-24 | a higher score never falls into a lower tier |
| ResponseDisplay.RenderRow | frontend/components/response-display.tsx:77-115 | the heading is the title, or the placeholder when the title is empty; the thumbnail is shown exactly when it is non-empty; the link is shown exactly when `video` is non-empty |
| ResponseDisplay.PlaceholderNamesPosition | frontend/components/response-display.tsx:91 | the placeholder is `Video ` followed by digits whose value is the row's position counting from one |
| ResponseDisplay.RenderRows | frontend/components/response-display.tsx:72 | one row per plan item, in order, the i-th rendered from the i-th item at index i |
| ResponseDisplay.LearningPlanRows | frontend/components/response-display.tsx:62 | the plan card is drawn exactly when the list is present and non-empty |
| AnalyzeRoute.BackendUrl | frontend/app/api/analyze/route.ts:3 | a set, non-empty variable is the URL; otherwise `http://localhost:8000`; never empty |
| AnalyzeRoute.ValidationError | frontend/app/api/analyze/route.ts:11-31 | the file check comes first, then the job description (missing or blank), then the `.pdf` suffix; no error exactly when all three pass |
| AnalyzeRoute.InternalError | frontend/app/api/analyze/route.ts:103-111 | a 500 with the error's message and stack, or "Internal server error" for a thrown non-error |
| AnalyzeRoute.FetchFailure | frontend/app/api/analyze/route.ts:75-101 | an abort is a 504 timeout; otherwise a message containing `fetch failed` or `ECONNREFUSED` is a 503 with the message as details; the reply is a 500 exactly in the remaining cases, and then it is the outer handler's reply |
| AnalyzeRoute.BackendErrorFields | frontend/app/api/analyze/route.ts:58-64 | a JSON error body gives its fields; any other body gives a non-empty `detail`, which is the body itself when the body is non-empty and `Backend error: `, the status in decimal, a space and the status text when it is empty |
| AnalyzeRoute.BackendErrorMessage | frontend/app/api/analyze/route.ts:68 | `detail`, else `error`, else `Backend error: ` and the status text; never empty |
| AnalyzeRoute.Forwarded | frontend/app/api/analyze/route.ts:48-102 | an ok JSON body is relayed with 200; an error status is kept, with no details and the message `BackendErrorMessage` chooses from the error body's fields; an ok body that is not JSON and a thrown fetch both go to the inner failure handling |
| AnalyzeRoute.Post | frontend/app/api/analyze/route.ts:5-113 | an unreadable form is a 500; a failed check is a 400 with its message; only a form that passes every check reaches the backend |
| AnalyzeRoute.RejectedFormIgnoresBackend | frontend/app/api/analyze/route.ts:11-31 | a refused form gets a 400 that does not depend on what the backend would do |
| AnalyzeRoute.AbortBeatsConnection | frontend/app/api/analyze/route.ts:79-88 | an abort is a timeout even when its message mentions a failed fetch |
| HomePage.FileChanged | app/page.tsx:28-38 | no file changes nothing; a non-PDF sets "Please upload a PDF file" and keeps the chosen file; a PDF is taken and clears the error |
| HomePage.JobDescriptionEdited | app/page.tsx:139 | only the job description changes |
| HomePage.StartSubmit | app/page.tsx:40-55 | no file stops with "Please upload a CV file", before the blank check; a blank description stops with "Please enter a job description"; a stop does not start loading; sending starts loading and clears the error and the previous response |
| HomePage.FailureMessage | app/page.tsx:69 | `error`, else `details`, else `Failed to analyze resume (status)`; never empty |
| HomePage.CaughtMessage | app/page.tsx:67-79 | there is a message exactly when the request did not succeed with a readable body: a JSON error body gives its failure message, an unreadable error body gives `Unknown error`, a network error and an unreadable success body give their error's message |
| HomePage.WithHint | app/page.tsx:76-85 | the connection hint is appended when the message names a connection failure; otherwise the timeout hint when it mentions a timeout; otherwise nothing; the message is always kept as a prefix |
| HomePage.CompleteSubmit | app/page.tsx:73-92 | loading ends whatever the outcome; a success stores the response; a failure stores the hinted message; the inputs are kept |
| HomePage.ButtonDisabled | app/page.tsx:154 | the button is disabled exactly when loading, when no file is chosen, or when the job description is all whitespace |
| HomePage.InitialStops | app/page.tsx:22-26 | the page starts with a disabled button, and a submit from the start state stops with "Please upload a CV file" |
| HomePage.EnabledButtonSends | app/page.tsx:154 | when not loading, the button is enabled exactly when a submit would send |
| HomePage.SendingDisablesButton | app/page.tsx:53 | while the request is in flight the button is disabled |
| HomePage.SubmitRound | app/page.tsx:53-92 | after a round from a valid form, loading is off and exactly one of response and error is set |
| EndToEnd.PageOutcome | app/page.tsx:67-70 | the page reads a route error reply as a failure with the reply's status and a readable body whose `error` is the reply's error and whose `details` are the reply's details, or empty without them |
| EndToEnd.ConnectionFailureShowsHint | frontend/app/api/analyze/route.ts:88-96 | a refused connection is a 503 and ends on the page as the route's connection message followed by the start-the-backend hint |
| AnalyzeRoute.ConnectError | frontend/app/api/analyze/route.ts:92 | the connection message starts with `Cannot connect to backend` and names the backend URL |
| Strings.NatToDecimal | frontend/components/response-display.tsx:91 | the numeral is non-empty, made of digits, and has no leading zero when it has more than one digit; `DecimalRoundTrip` reads it back as the number |
| EndToEnd.ConnectErrorIsConnectionTrouble | frontend/app/api/analyze/route.ts:92 | the route's connection message is one the page recognises |
| EndToEnd.TimeoutShowsHint | frontend/app/api/analyze/route.ts:79-84 | a timeout is a 504 and ends on the page as the timeout message followed by the try-again hint |
| EndToEnd.TimeoutMessageWording | frontend/app/api/analyze/route.ts:82 | the timeout message contains "timeout" and neither connection marker |
| EndToEnd.BackendErrorReachesPage | frontend/app/api/analyze/route.ts:57-70 | a backend error status reaches the page with the route's chosen message, hinted |
| EndToEnd.PageChecksImplyRoutePresence | app/page.tsx:43-51 | whatever the page sends passes the route's presence checks; only the `.pdf` name check can still refuse it |
| EndToEnd.UpperCaseSuffixRefusedByRoute | frontend/app/api/analyze/route.ts:26-31 | a PDF whose name ends in `.PDF` is sent by the page and refused by the route |
| EndToEnd.UpperCaseSuffixIsNotPdf | frontend/app/api/analyze/route.ts:26 | the suffix test is case-sensitive |
| EndToEnd.ForwardedUploadPassesBackendSuffixCheck | api/index.py:114-115 | a file the route forwards is never refused by the backend's suffix check |

## Left out

- Whitespace is the six ASCII characters space, tab, newline, carriage return, vertical tab and form feed. Digits are ASCII `0`-`9`. Python's `strip` and `\s` also treat `\x1c`-`\x1f` and Unicode spaces as whitespace, JavaScript's `trim` treats Unicode spaces as whitespace, and Python's `\d` matches Unicode digits. None of these extra characters are modelled.
- `ast.literal_eval` and `JSON.parse` are abstract functions passed as parameters. `LiteralEval` returning `None` stands for `ValueError` or `SyntaxError`, the two exceptions `parse_response` catches (api/index.py:64). Other exceptions of `literal_eval` are not modelled. One example is the `TypeError` raised for an unhashable dict key such as `{[1]: 2}`: it escapes `parse_response` and becomes the 500 of api/index.py:150-152. Dict and JSON field values are strings. A non-string value (`None`, a number, a nested object) is not modelled.
- PDF reading (PyPDF2) is an input: the page texts or the exception message. The agent workflow (`graph_app.invoke`) is an input too: the message history or the exception message. The prompt text is not modelled, because it only formats the two inputs.
- The network, `fetch`, `AbortController`, the 300000 ms timer, the FormData and Blob repackaging, `arrayBuffer` and `console` logging are not modelled. The outcome of each request is a datatype instead.
- A `null` JSON error body in the route is not modelled. Reading `.detail` from it throws, which would end in the route's 500.
- Wrong-typed form fields are not modelled. A string sent as `cv_file` is caught by the route's first two checks when it is empty (a 400 at route.ts:11-16) or when the job description is blank (a 400 at route.ts:18-23). A non-empty string with a non-blank job description is a 500, because `cvFile.name` is undefined at route.ts:26.
- A missing filename in the backend is not modelled, and neither is FastAPI's 422 for absent form fields. The filename is always a string.
- AgentOutput.MatchScore: the score is the value of the digit run at any length. Python 3.11 and later (and the 3.7.14, 3.8.14, 3.9.14 and 3.10.7 security releases) make `int()` raise `ValueError` for a string of more than 4300 digits. At api/index.py:41 that call is outside the `try`, so such a response becomes the 500 of api/index.py:150-152. The model does not have this limit.
- Message content is modelled as a string. LangChain also allows a list of content blocks. `re.search` on a list raises `TypeError`, which would be the 500 of api/index.py:150-152.
- The score is an integer. Non-integer JSON numbers in the frontend are not modelled.
- The page's `An error occurred` fallback is not modelled. It applies to thrown non-errors, and every failure in the model carries an `Error` message.
- Inputs disabled while loading are not modelled. `FileChanged` and `JobDescriptionEdited` accept events in any state.
- React markup, JSX layout and styling beyond the two class-returning functions are not modelled. The CORS middleware, the health endpoint and `test-backend-connection.js` are not modelled either.
- AgentOutput.FindAll: states soundness and ordering of the hits, but not that the scan misses no match.
- AnalyzeEndpoint.AnalyzeCareer: its contract names only the status of errors and when an analysis is produced. The full outcome is `RunAgent`'s contract.
