# BookAIReader request orchestration, in Dafny

BookAIReader lets a user upload a PDF and then ask a language model about it: questions
(single-shot or as a chat), a summary, the explanation of a term, a misinformation check
and a sentiment analysis. This project models:

- **The browser client.** Each analysis panel is a small state machine: its inputs, a
  loading flag, an error slot and a result slot. Its submit handler checks the inputs,
  clears the slots and builds an ordered form. The request then ends in an answer or a
  failure. The chat panel keeps an append-only transcript instead of a result slot. The
  uploader reports a stored document to the page. The page holds the session: the
  document id, its name and the selected model.
- **The API server.** It has an in-memory store of document texts that upload fills. Each
  endpoint runs its checks in a fixed order, builds a prompt and turns the model's reply
  into a JSON body or an HTTP error.
- **The prompt builders of the Streamlit application.** These are the same four prompts
  in a different wording.

Modules:

- `Optional`, `Text`, `Requests`: shared pieces. They hold the option type, JavaScript
  `trim` and Python `strip` (with their different white-space sets), Python's `join`, the
  request and outcome of a POST, and the failure message a panel shows.
- `Panels`: one generic panel class. A `Config` gives the endpoint, the fields, the
  required input, the form layout, the result key and the default failure text.
- `QaSection`, `SummarizationSection`, `TermExplanationSection`,
  `MisinformationDetectionSection`, `SentimentAnalysisSection`: each holds one panel's
  `Config`, plus lemmas that pin down its validation order, enablement rule and exact
  request.
- `ChatSection`: the chat class and its transcript invariant. `PdfUploader`: the upload
  class. `App`: the session class and which panels are mounted.
- `Backend`, `BackendPrompts`: the server's store, its endpoints and its prompts.
  `StreamlitPrompts`: the Streamlit prompts.
- `Exchange`: the two sides joined. A form the client lets out is read back field by
  field by the server, which then reaches the model. A refusal is shown verbatim.
- `Scenarios`: the situations of the repository's tests, played through the model.

The network, the model call and the PDF reader are inputs:

- an `Outcome` for a POST;
- an `LlmReply` for the model;
- a `PdfContent` (page texts, or the reader's error) for PyPDF2.

Notes on what the code does:

- The base URL is a constant, `http://localhost:8000` (frontend/src/App.tsx:10). It is
  not configuration.
- The page mounts all five panels and the model selector only while `fileId` is set
  (frontend/src/App.tsx:45, :61). This includes the three panels that do not use the
  document.
- The chat panel is not mounted by the page at all. It is modelled as a component on its
  own, and its `apiBaseUrl` prop is the same constant.
- The chat input is emptied only after a submit that passed the checks
  (frontend/src/components/ChatSection.tsx:66-69). A blank message sets the error and
  leaves the input as it was.
- A missing or empty `detail` falls back to the panel's default text
  (`err.response?.data?.detail || …`).

## Model

| member | source | states |
|---|---|---|
| Text.SkipSpace | frontend/src/components/QaSection.tsx:18 | finds where the leading white space ends: every character skipped is white space and the one reached, if any, is not |
| Text.BackOverSpace | frontend/src/components/QaSection.tsx:18 | finds where the trailing white space starts: every character dropped is white space and what is kept is empty or ends with a non-space |
| Text.Trim | frontend/src/components/QaSection.tsx:18 | `trim()`/`strip()`: never longer than the input, neither end is white space |
| Text.TrimIsInnerSlice | backend/main.py:177 | the trimmed string is the inner slice left once white space is cut from both ends |
| Text.BlankIffAllSpace | frontend/src/components/QaSection.tsx:18 | `!s.trim()` holds exactly when every character is white space (both runtimes) |
| Text.TrimmedIsFixed | frontend/src/components/TermExplanationSection.tsx:34 | a string with no white space at either end trims to itself |
| Text.TrimIdempotent | frontend/src/components/TermExplanationSection.tsx:34-36 | trimming twice is trimming once (either runtime) |
| Text.JsNonBlankIsPyNonBlank | backend/main.py:177-178 | a text the browser finds non-blank, without the characters only Python counts as white space, stays non-blank to `strip()` after the client trims it |
| Text.JoinStartsWithFirst | app.py:53 | `"\n".join(parts)` starts with the first part |
| Text.JoinEndsWithLast | app.py:53 | `"\n".join(parts)` ends with the last part |
| Text.JoinThree | app.py:97 | joining three parts is their concatenation with the separator between them |
| Panels.Initial | frontend/src/components/SummarizationSection.tsx:14-15 | a panel starts with each input at its initial value, which its field admits |
| Panels.EnabledIffValid | frontend/src/components/QaSection.tsx:16-25 | the submit button is enabled iff nothing is in flight and the handler's checks pass, so a validation message only follows a submit the button would not have offered |
| Panels.BuildParams | frontend/src/components/SummarizationSection.tsx:31-37 | the form has at most one entry per `append` of the layout |
| Panels.BuildParamsCons | frontend/src/components/TermExplanationSection.tsx:33-38 | an `append` (or its skipping) comes before the rest of the form |
| Panels.Panel.constructor | frontend/src/components/QaSection.tsx:11-14 | a new panel holds its initial inputs, is idle and shows no error and no result |
| Panels.Panel.Edit | frontend/src/components/QaSection.tsx:60 | an input's `onChange` changes that input only |
| Panels.Panel.Submit | frontend/src/components/QaSection.tsx:16-34 | a failed check sets only the error and sends nothing; otherwise loading starts, error and result clear, and the request is the panel's form |
| Panels.Panel.Resolve | frontend/src/components/QaSection.tsx:36-48 | success fills the result and leaves the error clear; failure fills the error with the detail or the default and leaves the result clear; loading ends; the inputs stay |
| QaSection.Validation | frontend/src/components/QaSection.tsx:18-25 | blank question first ("Please enter a question."), then blank model; the button needs an idle panel, a question and a model (line 66) |
| QaSection.RequestShape | frontend/src/components/QaSection.tsx:31-44 | `/qa/` with exactly file_id, the untrimmed query, model_name; result key `answer`; default "Failed to get answer." |
| SummarizationSection.Validation | frontend/src/components/SummarizationSection.tsx:11-25 | starts at "Medium", the second option, with no keywords; only a blank model is refused; the button needs an idle panel and a model |
| SummarizationSection.LayoutParams | frontend/src/components/SummarizationSection.tsx:31-37 | the append sequence gives file_id, model_name, summary_length and then the trimmed keywords only when not blank |
| SummarizationSection.RequestShape | frontend/src/components/SummarizationSection.tsx:31-47 | `/summarize/` with that form; result key `summary`; default "Failed to generate summary." |
| SummarizationSection.LengthIsOffered | frontend/src/components/SummarizationSection.tsx:59-68 | the length a panel holds is always one of the four options |
| TermExplanationSection.Validation | frontend/src/components/TermExplanationSection.tsx:20-27 | blank term first ("Please enter a term to explain."), then blank model; the context is never required |
| TermExplanationSection.LayoutParams | frontend/src/components/TermExplanationSection.tsx:33-38 | the append sequence gives the trimmed term, the model, then the trimmed context only when not blank |
| TermExplanationSection.RequestShape | frontend/src/components/TermExplanationSection.tsx:33-48 | `/explain_term/` with that form and no file id; result key `explanation`; default "Failed to get explanation." |
| MisinformationDetectionSection.Validation | frontend/src/components/MisinformationDetectionSection.tsx:18-25 | blank text first ("Please enter text to analyze."), then blank model; the button rule of line 68 |
| MisinformationDetectionSection.RequestShape | frontend/src/components/MisinformationDetectionSection.tsx:31-43 | `/detect_misinformation/` with exactly the trimmed text and the model; result key `misinformation_analysis`; its default text |
| SentimentAnalysisSection.Validation | frontend/src/components/SentimentAnalysisSection.tsx:18-25 | blank text first, then blank model; the button rule of line 65 |
| SentimentAnalysisSection.RequestShape | frontend/src/components/SentimentAnalysisSection.tsx:31-43 | `/analyze_sentiment/` with exactly the trimmed text and the model; result key `sentiment_analysis`; its default text |
| ChatSection.RepliesNeverOutnumber | frontend/src/components/ChatSection.tsx:47-62 | a transcript where every reply follows a question never has more replies than questions |
| ChatSection.AnsweredTranscriptAlternates | frontend/src/components/ChatSection.tsx:47-62 | once every question is answered the transcript has 2N messages, user and model alternating |
| ChatSection.AskKeepsOrder | frontend/src/components/ChatSection.tsx:47-48 | appending the user's message keeps every reply after its question |
| ChatSection.ReplyKeepsOrder | frontend/src/components/ChatSection.tsx:61-62 | appending the answer to a pending question keeps every reply after its question |
| ChatSection.Validation | frontend/src/components/ChatSection.tsx:35-42 | blank message first ("Please enter a message."), then blank model; the send button's rule (line 95) |
| ChatSection.RequestShape | frontend/src/components/ChatSection.tsx:50-56 | the chat's request is the question panel's: `/qa/` with file_id, the raw query, model_name |
| ChatSection.Chat.constructor | frontend/src/components/ChatSection.tsx:18-21 | empty query, empty transcript, idle, no error |
| ChatSection.Chat.TypeQuery | frontend/src/components/ChatSection.tsx:89 | the input's `onChange` sets the query only |
| ChatSection.Chat.ChooseSuggestion | frontend/src/components/ChatSection.tsx:23-31 | a suggestion sets the query to exactly its text and changes nothing else |
| ChatSection.Chat.Submit | frontend/src/components/ChatSection.tsx:33-56 | a failed check sets only the error; otherwise exactly one user message with the raw query is appended, earlier messages unchanged, and the `/qa/` request goes out |
| ChatSection.Chat.Resolve | frontend/src/components/ChatSection.tsx:57-69 | success appends exactly one model message; failure appends none and sets the detail or "Failed to get answer."; either way loading ends and the query empties |
| PdfUploader.FirstFile | frontend/src/components/PdfUploader.tsx:15 | the first picked file, or none when the list is missing or empty |
| PdfUploader.Uploader.constructor | frontend/src/components/PdfUploader.tsx:10-12 | nothing selected, so the upload button starts disabled |
| PdfUploader.Uploader.FileChange | frontend/src/components/PdfUploader.tsx:14-17 | the selection is replaced by the first picked file and the error is cleared |
| PdfUploader.Uploader.StartUpload | frontend/src/components/PdfUploader.tsx:19-35 | with no selection only "Please select a PDF file first." is set; otherwise loading starts and the selected file is posted to `/upload_pdf/` |
| PdfUploader.Uploader.FinishUpload | frontend/src/components/PdfUploader.tsx:36-43 | success calls back once with the server's id and name and clears the selection; failure keeps the selection, does not call back and shows the detail or the default; loading ends |
| App.Mounts | frontend/src/App.tsx:45-108 | no panel without a truthy `fileId`; otherwise five, all given the selected model, only the document ones given `fileId` |
| App.DocumentGoesWhereUsed | frontend/src/App.tsx:61-102 | a mounted panel is given the document exactly when its form sends `file_id` |
| App.Session.constructor | frontend/src/App.tsx:13-15 | no document, no name, the default model; the upload hint shows and no panel does |
| App.Session.HandlePdfUploadSuccess | frontend/src/App.tsx:17-20 | sets both `fileId` and the name from its arguments; the model is unchanged; a non-empty id mounts the five panels and the selector |
| App.Session.SelectModel | frontend/src/App.tsx:48-55 | the selected model is always one of the listed options; the document is unchanged |
| App.CompleteUpload | frontend/src/components/PdfUploader.tsx:36 | a successful upload writes the server's id and name into the session; a failed one leaves the session as it was |
| Backend.CatchAllPrefix | backend/main.py:84-86 | every endpoint's catch-all detail starts with "Error during " |
| Backend.PageTextEmptyIff | backend/main.py:52-56 | the stored text is empty exactly when no page has text |
| Backend.PageTextConcat | backend/main.py:52-56 | the pages' texts accumulate in page order |
| Backend.PageTextEndsWithNewline | backend/main.py:55-56 | a non-empty stored text ends with a newline |
| Backend.ExtractText | backend/main.py:52-56 | the page loop yields each non-empty page text followed by a newline, in order |
| Backend.ServeReportsModel | backend/main.py:35-37 | a library failure becomes a 500 whose detail is "LLM API call failed: " and the message; a completion comes back under the endpoint's key; a failure outside the library gets a 500 whose detail is exactly the endpoint's catch-all text ("Error during Q&A processing: " and the like) followed by the message, so it does not start with the helper's prefix |
| Backend.QuestionAnswer | backend/main.py:65-76 | unknown document 404, then empty query 400, then empty model 400, in that order; otherwise the exact prompt |
| Backend.SummarizeText | backend/main.py:131-146 | unknown document 404, then empty model 400; otherwise the summary prompt with the given or default length |
| Backend.SummaryLengthDefault | backend/main.py:135 | leaving the length out means "Comprehensive" |
| Backend.ExplainTermApi | backend/main.py:153-165 | only an empty term is refused (a term of spaces is not), then an empty model; the store is not consulted |
| Backend.DetectMisinfoApi | backend/main.py:172-183 | a text that strips to nothing is 400, then an empty model; the text goes into the prompt unstripped |
| Backend.AnalyzeSentimentApi | backend/main.py:190-201 | the same checks for sentiment |
| Backend.TextEndpointsAgree | backend/main.py:177-180 | the two text endpoints refuse the same inputs with the same status and detail |
| Backend.FailuresExplain | backend/main.py:37 | every error the server sends carries a non-empty detail |
| Backend.DocumentStore.constructor | backend/main.py:23 | the store starts empty |
| Backend.DocumentStore.CreateUploadPdf | backend/main.py:43-63 | missing name 400, then wrong type 400, then unreadable 500, each leaving the store as it was; otherwise the page text is stored under the file name, replacing any earlier entry, and the name is returned as the id |
| BackendPrompts.QaPromptEmbeds | backend/main.py:76 | the document follows the fixed opening and the question precedes "\nAnswer:", both verbatim |
| BackendPrompts.QaPromptDeterminesQuery | backend/main.py:76 | over one document, different questions give different prompts |
| BackendPrompts.KeyInfoFrame | backend/main.py:91-95 | the prompt opens with the document and ends with the length sentence, with the keyword clause just before it when there are keywords |
| BackendPrompts.KeyInfoKeywordsMatterIffTruthy | backend/main.py:93-94 | the keywords change the prompt exactly when they are truthy |
| BackendPrompts.TermContextMattersIffTruthy | backend/main.py:100-105 | the quoted term always leads; the context changes the prompt exactly when it is truthy, otherwise the general clause is used |
| BackendPrompts.MisinformationPromptQuotes | backend/main.py:109-115 | the segment closes the prompt verbatim between double quotes, and distinct segments give distinct prompts |
| BackendPrompts.SentimentPromptQuotes | backend/main.py:119-125 | the same for the sentiment prompt |
| StreamlitPrompts.LengthInstruction | app.py:34-41 | the instruction is always one of the four length sentences |
| StreamlitPrompts.ExtractKeyInfo | app.py:28-53 | the appended parts, joined with newlines, are the summary prompt's parts |
| StreamlitPrompts.OneLengthInstruction | app.py:34-41 | exactly one part is a length sentence: "Short", "Medium" and "Long" get their own, any other value the comprehensive one |
| StreamlitPrompts.KeywordLineIffTruthy | app.py:43-44 | the keyword line is present exactly when `keywords` is truthy, as the third part |
| StreamlitPrompts.KeySentencesBeforeClosing | app.py:46-51 | the key-sentences request is always second to last, just before the closing |
| StreamlitPrompts.ClosingIffComprehensive | app.py:48-51 | the sectioned closing is used exactly for "Comprehensive", so an unknown length gets the comprehensive body with the plain closing |
| StreamlitPrompts.KeyInfoPromptFrame | app.py:32-53 | the joined prompt opens with the document verbatim and ends with the closing |
| StreamlitPrompts.ExplainTerm | app.py:76-97 | the appended parts, joined with nothing between them, are the term prompt's parts |
| StreamlitPrompts.TermPromptContextIffTruthy | app.py:83-86 | the context line is there exactly when `context` is truthy, otherwise "No specific context provided." |
| StreamlitPrompts.MisinformationPromptQuotes | app.py:61-64 | the segment sits verbatim between single quotes at a fixed place, and distinct segments give distinct prompts |
| StreamlitPrompts.SentimentPromptQuotes | app.py:105-112 | the same for the sentiment prompt |
| Exchange.FormValue | backend/main.py:66 | the server reads a field when the form has its key, and then as the last value sent under it |
| Exchange.FormValueAt | backend/main.py:66 | with no key sent twice, every field is read back as sent |
| Exchange.OptionalFieldArrives | frontend/src/components/SummarizationSection.tsx:35-37 | fixed fields arrive as sent, and an optional one arrives trimmed when not blank and is absent otherwise |
| Exchange.SentTruthyIffNotBlank | backend/main.py:93 | the optional value is truthy on the server exactly when its box was not blank |
| Exchange.QaReachesModel | backend/main.py:65-76 | a question the panel lets out, about a stored document, passes every server check and reaches the model with the exact prompt |
| Exchange.ChatReachesModel | frontend/src/components/ChatSection.tsx:50-56 | the same for a chat message |
| Exchange.SummaryReachesModel | backend/main.py:131-146 | a summary request the panel lets out reaches the model with the chosen length, and the keyword clause is there exactly when the box was not blank |
| Exchange.TermFormArrives | frontend/src/components/TermExplanationSection.tsx:33-38 | the server reads the trimmed term, the model and the context only when it was not blank |
| Exchange.TermReachesModel | backend/main.py:153-165 | a term request the panel lets out reaches the model; the context clause is there exactly when the box was not blank |
| Exchange.MisinformationReachesModel | backend/main.py:172-183 | a text the panel lets out, free of Python-only white space, reaches the model |
| Exchange.SentimentReachesModel | backend/main.py:190-201 | the same for sentiment |
| Exchange.WhitespaceGap | backend/main.py:177-178 | a text of U+001C passes the panels' checks but the server refuses it with 400 |
| Exchange.RefusalShownVerbatim | frontend/src/components/QaSection.tsx:44 | whatever the server refuses, the panel shows the server's detail, not its default |
| Scenarios.ChatRoundTrip | frontend/src/components/tests/ChatSection.test.tsx:42-87 | "Hello, model!" posts the three fields to `http://localhost:8000/qa/`; the transcript becomes question then answer; the input empties |
| Scenarios.ChatFailure | frontend/src/components/tests/ChatSection.test.tsx:109-131 | a rejection with detail "Network Error" shows that detail and leaves one unanswered question |
| Scenarios.ChatButtons | frontend/src/components/tests/ChatSection.test.tsx:89-165 | send is disabled without a model and with an empty input, enabled once typed; a suggestion fills the input |
| Scenarios.UploaderStartsDisabled | frontend/src/components/tests/PdfUploader.test.tsx:38-47 | the upload button starts disabled |
| Scenarios.UploadThenAsk | backend/main.py:52-60 | pages "Page one", "", "Page two" are stored as "Page one\nPage two\n"; five panels appear; a question reaches the model with that text |
| Scenarios.PagesWithAGap | backend/main.py:52-56 | a page without text adds nothing: three pages with an empty middle one are stored as the other two, each followed by a newline |
| Scenarios.QaSuccessVector | backend/tests/test_main.py:39-52 | the test's exact prompt and the answer body |
| Scenarios.QaRefusalVectors | backend/tests/test_main.py:54-72 | the test's 404 and 400 with their details |
| Scenarios.QaModelErrorVector | backend/tests/test_main.py:74-88 | a plain exception raised by the mocked helper gives "Error during Q&A processing: …", which does not start with "LLM API call failed: "; a library failure does |

## Left out

- HTTP transport, multipart encoding, CORS and the root endpoint (backend/main.py:13-21, :39-41). A POST is an `Outcome` or an `UploadOutcome` argument, and the headers are not modelled.
- The language-model library and the PDF reader. Their results are the `LlmReply` and `PdfContent` arguments, so a reader error anywhere in the upload's `try` is one `Unreadable` value.
- FastAPI's form parsing. An empty or absent required form field gets FastAPI's own 422 before the endpoint runs, so the endpoints' empty-string checks are modelled as written but are reached only if that parsing lets the empty value through. A `detail` that is not a string (FastAPI's 422 list) is not modelled.
- The catch-all `except Exception` branches of the endpoints are reached only through `LlmReply.Crashed`. With the real helper, which wraps every library failure, nothing in the endpoints raises anything else. That is why backend/tests/test_main.py:74-88 expects "LLM API call failed", while its plain-exception mock gets the catch-all detail (`Scenarios.QaModelErrorVector`).
- React scheduling, rendering, unmounting and JSX. The "Error: " prefix in front of an error, the loading button labels, Markdown rendering and the suggestion note are not modelled.
- Message ids from `Date.now()`. They are clock values and are left out of `ChatSection.Message`.
- The Streamlit `main()` and `call_llm` in app.py. The app.py builders are modelled up to the text they hand to the model, and their Python default arguments are not modelled.
- Strings are sequences of Unicode code points. JavaScript's UTF-16 code units and PyPDF2's encodings are not modelled.
- Panels.Panel.Submit: requires an idle panel (`!isLoading`), because every control is disabled while loading. It therefore says nothing about a second submit during a request.
- ChatSection.Chat.Submit: requires an idle chat, for the same reason.
- PdfUploader.Uploader.StartUpload: requires an idle uploader, because the button and the picker are disabled while uploading.
- Exchange.MisinformationReachesModel: requires a text without the characters only Python counts as white space (U+001C..U+001F, U+0085). `Exchange.WhitespaceGap` shows that the claim fails without this requirement.
- Exchange.SentimentReachesModel: the same requirement, for the same reason.
