/** The API server: an in-memory store of document texts keyed by file name, the upload
    endpoint that fills it, and the analysis endpoints. Each endpoint runs its checks in a
    fixed order and either rejects the request with a status and a detail or asks the
    language model with a prompt; the model's reply, or its failure, is an input. */
module Backend {
  import opened Optional
  import opened Text
  import opened BackendPrompts

  /** A JSON object of string fields, or an HTTP error with its `detail`. */
  datatype Response = Ok(body: seq<(string, string)>) | Err(status: int, detail: string)

  /** What the language-model helper does: return the completion text; or fail inside the
      model library, which the helper turns into a 500 naming the failure; or raise some
      other exception itself, which only a replaced helper does and which the endpoint's own
      catch-all turns into a 500. */
  datatype LlmReply = Completion(content: string) | Raised(message: string) | Crashed(message: string)

  /** An endpoint after its checks: a rejection, or the model call it makes and the key its
      answer is returned under. */
  datatype Step = Reject(status: int, detail: string) | Ask(prompt: string, model: string, key: string)

  /** The uploaded part: its file name and content type, either of which may be missing. */
  datatype Upload = Upload(filename: Option<string>, contentType: Option<string>)

  /** The PDF reader's view of the uploaded bytes: the text of each page, or the error it
      raised. */
  datatype PdfContent = Pages(pages: seq<string>) | Unreadable(message: string)

  const NoFileName: string := "No file name provided."
  const InvalidFileType: string := "Invalid file type. Only PDFs are accepted."
  const ProcessFailedPrefix: string := "Failed to process PDF: "
  const ProcessedOk: string := "PDF processed successfully."
  const PdfNotFound: string := "PDF not found. Please upload it first."
  const QueryEmpty: string := "Query cannot be empty."
  const ModelEmpty: string := "Model name cannot be empty."
  const TermEmpty: string := "Term cannot be empty."
  const SegmentEmpty: string := "Text segment cannot be empty."
  const LlmFailedPrefix: string := "LLM API call failed: "
  const DefaultSummaryLength: string := "Comprehensive"

  /** The detail prefix of each endpoint's catch-all, told apart by the key the endpoint
      answers under. */
  function CatchAllPrefix(key: string): (p: string)
    ensures "Error during " <= p
  {
    if key == "answer" then "Error during Q&A processing: "
    else if key == "summary" then "Error during summarization: "
    else if key == "explanation" then "Error during term explanation: "
    else if key == "misinformation_analysis" then "Error during misinformation detection: "
    else "Error during sentiment analysis: "
  }

  /** The stored text of a document: each page with text, followed by a newline; pages
      without text contribute nothing. */
  function PageText(pages: seq<string>): string {
    if pages == [] then ""
    else
      var last := pages[|pages| - 1];
      PageText(pages[..|pages| - 1]) + (if last == "" then "" else last + "\n")
  }

  /** The text is empty exactly when no page has any. */
  lemma {:induction false} PageTextEmptyIff(pages: seq<string>)
    ensures PageText(pages) == "" <==> forall i :: 0 <= i < |pages| ==> pages[i] == ""
  {
    if pages != [] {
      var init := pages[..|pages| - 1];
      PageTextEmptyIff(init);
      assert forall i :: 0 <= i < |init| ==> init[i] == pages[i];
    }
  }

  /** Reading two runs of pages one after the other gives their texts one after the
      other. */
  lemma {:induction false} PageTextConcat(a: seq<string>, b: seq<string>)
    ensures PageText(a + b) == PageText(a) + PageText(b)
  {
    if b == [] {
      assert a + b == a;
    } else {
      var init := b[..|b| - 1];
      PageTextConcat(a, init);
      assert (a + b)[..|a + b| - 1] == a + init;
      assert (a + b)[|a + b| - 1] == b[|b| - 1];
    }
  }

  /** A text with content ends with a newline. */
  lemma {:induction false} PageTextEndsWithNewline(pages: seq<string>)
    ensures PageText(pages) != "" ==> PageText(pages)[|PageText(pages)| - 1] == '\n'
  {
    if pages != [] && pages[|pages| - 1] == "" {
      PageTextEndsWithNewline(pages[..|pages| - 1]);
    }
  }

  /** The page loop of the upload handler. */
  method ExtractText(pages: seq<string>) returns (text: string)
    ensures text == PageText(pages)
  {
    text := "";
    var i := 0;
    while i < |pages|
      invariant 0 <= i <= |pages|
      invariant text == PageText(pages[..i])
    {
      var pageText := pages[i];
      assert pages[..i + 1][..i] == pages[..i];
      if pageText != "" {
        text := text + pageText + "\n";
      }
      i := i + 1;
    }
    assert pages[..|pages|] == pages;
  }

  /** The server's answer to a step: a rejection as it is; otherwise the model's completion
      under the step's key, or a 500 naming the model failure, or the endpoint's catch-all
      500. */
  function Serve(step: Step, reply: LlmReply): Response {
    match step
    case Reject(status, detail) => Err(status, detail)
    case Ask(_, _, key) =>
      match reply
      case Completion(content) => Ok([(key, content)])
      case Raised(message) => Err(500, LlmFailedPrefix + message)
      case Crashed(message) => Err(500, CatchAllPrefix(key) + message)
  }

  /** A failing model call reaches the client as a 500 whose detail names the failure and
      carries the raised message: the helper's own prefix for a library failure, the
      endpoint's catch-all prefix for anything else; a completion reaches it under the
      step's key. */
  lemma ServeReportsModel(step: Step, reply: LlmReply)
    requires step.Ask?
    ensures reply.Raised? ==>
      var r := Serve(step, reply);
      && r.Err? && r.status == 500
      && LlmFailedPrefix <= r.detail
      && r.detail[|LlmFailedPrefix|..] == reply.message
    ensures reply.Completion? ==> Serve(step, reply) == Ok([(step.key, reply.content)])
    ensures reply.Crashed? ==>
      var r := Serve(step, reply);
      && r.Err? && r.status == 500
      && r.detail == CatchAllPrefix(step.key) + reply.message
      && !(LlmFailedPrefix <= r.detail)
      && r.detail[|r.detail| - |reply.message|..] == reply.message
  {
    if reply.Crashed? {
      var r := Serve(step, reply);
      assert r.detail[0] == "Error during "[0] == 'E';
      assert LlmFailedPrefix[0] == 'L';
    }
  }

  /** `/qa/`: an unknown document is refused first, then an empty question, then an empty
      model name; otherwise the model is asked about the stored text. */
  function QuestionAnswer(pdfTexts: map<string, string>, fileId: string, query: string, modelName: string): (s: Step)
    ensures s.Reject? ==> s.detail != ""
    ensures fileId !in pdfTexts ==> s == Reject(404, PdfNotFound)
    ensures fileId in pdfTexts && query == "" ==> s == Reject(400, QueryEmpty)
    ensures fileId in pdfTexts && query != "" && modelName == "" ==> s == Reject(400, ModelEmpty)
    ensures s.Ask? <==> fileId in pdfTexts && query != "" && modelName != ""
    ensures s.Ask? ==> s == Ask(QaPrompt(pdfTexts[fileId], query), modelName, "answer")
  {
    if fileId !in pdfTexts then Reject(404, PdfNotFound)
    else if query == "" then Reject(400, QueryEmpty)
    else if modelName == "" then Reject(400, ModelEmpty)
    else Ask(QaPrompt(pdfTexts[fileId], query), modelName, "answer")
  }

  /** `/summarize/`: an unknown document is refused first, then an empty model name; the
      length defaults to "Comprehensive" when the form omits it. */
  function SummarizeText(pdfTexts: map<string, string>, fileId: string, modelName: string,
                         summaryLength: Option<string>, keywords: Option<string>): (s: Step)
    ensures s.Reject? ==> s.detail != ""
    ensures fileId !in pdfTexts ==> s == Reject(404, PdfNotFound)
    ensures fileId in pdfTexts && modelName == "" ==> s == Reject(400, ModelEmpty)
    ensures s.Ask? <==> fileId in pdfTexts && modelName != ""
    ensures s.Ask? ==>
      var len := if summaryLength.Some? then summaryLength.value else DefaultSummaryLength;
      s == Ask(KeyInfoPrompt(pdfTexts[fileId], len, keywords), modelName, "summary")
  {
    if fileId !in pdfTexts then Reject(404, PdfNotFound)
    else if modelName == "" then Reject(400, ModelEmpty)
    else
      var len := if summaryLength.Some? then summaryLength.value else DefaultSummaryLength;
      Ask(KeyInfoPrompt(pdfTexts[fileId], len, keywords), modelName, "summary")
  }

  /** Leaving the length out of the form is the same as asking for a comprehensive
      summary. */
  lemma SummaryLengthDefault(pdfTexts: map<string, string>, fileId: string, modelName: string, keywords: Option<string>)
    ensures SummarizeText(pdfTexts, fileId, modelName, None, keywords)
         == SummarizeText(pdfTexts, fileId, modelName, Some("Comprehensive"), keywords)
  {
  }

  /** `/explain_term/`: only an empty term is refused (a term of spaces is not), then an
      empty model name; the document store is not consulted. */
  function ExplainTermApi(term: string, modelName: string, context: Option<string>): (s: Step)
    ensures s.Reject? ==> s.detail != ""
    ensures term == "" ==> s == Reject(400, TermEmpty)
    ensures term != "" && modelName == "" ==> s == Reject(400, ModelEmpty)
    ensures s.Ask? <==> term != "" && modelName != ""
    ensures s.Ask? ==> s == Ask(TermPrompt(term, context), modelName, "explanation")
  {
    if term == "" then Reject(400, TermEmpty)
    else if modelName == "" then Reject(400, ModelEmpty)
    else Ask(TermPrompt(term, context), modelName, "explanation")
  }

  /** `/detect_misinformation/`: a segment that strips to nothing is refused, then an empty
      model name; the segment goes into the prompt unstripped. */
  function DetectMisinfoApi(textSegment: string, modelName: string): (s: Step)
    ensures s.Reject? ==> s.detail != ""
    ensures IsBlank(Python, textSegment) ==> s == Reject(400, SegmentEmpty)
    ensures !IsBlank(Python, textSegment) && modelName == "" ==> s == Reject(400, ModelEmpty)
    ensures s.Ask? <==> !IsBlank(Python, textSegment) && modelName != ""
    ensures s.Ask? ==> s == Ask(MisinformationPrompt(textSegment), modelName, "misinformation_analysis")
  {
    if IsBlank(Python, textSegment) then Reject(400, SegmentEmpty)
    else if modelName == "" then Reject(400, ModelEmpty)
    else Ask(MisinformationPrompt(textSegment), modelName, "misinformation_analysis")
  }

  /** `/analyze_sentiment/`: the same checks as misinformation detection. */
  function AnalyzeSentimentApi(textSegment: string, modelName: string): (s: Step)
    ensures s.Reject? ==> s.detail != ""
    ensures IsBlank(Python, textSegment) ==> s == Reject(400, SegmentEmpty)
    ensures !IsBlank(Python, textSegment) && modelName == "" ==> s == Reject(400, ModelEmpty)
    ensures s.Ask? <==> !IsBlank(Python, textSegment) && modelName != ""
    ensures s.Ask? ==> s == Ask(SentimentPrompt(textSegment), modelName, "sentiment_analysis")
  {
    if IsBlank(Python, textSegment) then Reject(400, SegmentEmpty)
    else if modelName == "" then Reject(400, ModelEmpty)
    else Ask(SentimentPrompt(textSegment), modelName, "sentiment_analysis")
  }

  /** The two text endpoints differ only in their prompt and their key. */
  lemma TextEndpointsAgree(textSegment: string, modelName: string)
    ensures DetectMisinfoApi(textSegment, modelName).Reject? <==> AnalyzeSentimentApi(textSegment, modelName).Reject?
    ensures DetectMisinfoApi(textSegment, modelName).Reject? ==>
      DetectMisinfoApi(textSegment, modelName) == AnalyzeSentimentApi(textSegment, modelName)
  {
  }

  /** A refusal that explains itself reaches the client explained: every error the server
      sends then has a non-empty detail, which the client shows in place of its default. */
  lemma FailuresExplain(step: Step, reply: LlmReply)
    requires step.Reject? ==> step.detail != ""
    ensures Serve(step, reply).Err? ==> Serve(step, reply).detail != ""
  {
  }

  /** The process-wide `pdf_texts` dictionary and the upload endpoint that writes it. */
  class DocumentStore {
    var pdfTexts: map<string, string>

    constructor ()
      ensures pdfTexts == map[]
    {
      pdfTexts := map[];
    }

    /** `/upload_pdf/`: a missing or empty file name is refused first, then any content type
        other than `application/pdf`, then a document the reader cannot parse. Otherwise the
        text of its pages is stored under the file name, replacing any earlier upload of
        that name, and the name comes back as the id. A refusal leaves the store as it
        was. */
    method CreateUploadPdf(upload: Upload, content: PdfContent) returns (r: Response)
      modifies this
      ensures !Truthy(upload.filename) ==> r == Err(400, NoFileName) && pdfTexts == old(pdfTexts)
      ensures Truthy(upload.filename) && upload.contentType != Some("application/pdf") ==>
        r == Err(400, InvalidFileType) && pdfTexts == old(pdfTexts)
      ensures Truthy(upload.filename) && upload.contentType == Some("application/pdf") && content.Unreadable? ==>
        r == Err(500, ProcessFailedPrefix + content.message) && pdfTexts == old(pdfTexts)
      ensures Truthy(upload.filename) && upload.contentType == Some("application/pdf") && content.Pages? ==>
        var name := upload.filename.value;
        && pdfTexts == old(pdfTexts)[name := PageText(content.pages)]
        && r == Ok([("file_id", name), ("filename", name), ("detail", ProcessedOk)])
    {
      if !Truthy(upload.filename) {
        return Err(400, NoFileName);
      }
      if upload.contentType != Some("application/pdf") {
        return Err(400, InvalidFileType);
      }
      match content {
        case Unreadable(message) =>
          r := Err(500, ProcessFailedPrefix + message);
        case Pages(pages) =>
          var text := ExtractText(pages);
          var fileId := upload.filename.value;
          pdfTexts := pdfTexts[fileId := text];
          r := Ok([("file_id", fileId), ("filename", upload.filename.value), ("detail", ProcessedOk)]);
      }
    }
  }
}
