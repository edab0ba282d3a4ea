/** The situations the repository's own tests describe, played through the model with their
    concrete values. */
module Scenarios {
  import opened Optional
  import opened Text
  import opened Requests
  import opened Panels
  import opened Backend
  import opened BackendPrompts
  import ChatSection
  import PdfUploader
  import App

  /** The chat's happy path: typing a message and sending it posts the three form fields to
      `/qa/`; the mocked answer joins the transcript after the question and the input is
      emptied. */
  method ChatRoundTrip() returns (req: Option<Request>, transcript: seq<ChatSection.Message>, query: string)
    ensures req == Some(Request("http://localhost:8000/qa/",
      [("file_id", "test-file-id-123"), ("query", "Hello, model!"), ("model_name", "gemini/gemini-pro")]))
    ensures transcript == [
      ChatSection.Message("Hello, model!", ChatSection.User),
      ChatSection.Message("This is a mocked model response.", ChatSection.Model)]
    ensures query == ""
  {
    var chat := new ChatSection.Chat();
    chat.TypeQuery("Hello, model!");
    NotBlank("Hello, model!");
    NotBlank("gemini/gemini-pro");
    ChatSection.Validation("Hello, model!", "gemini/gemini-pro", false);
    ChatSection.RequestShape("Hello, model!", "test-file-id-123", "gemini/gemini-pro");
    req := chat.Submit("test-file-id-123", "gemini/gemini-pro");
    assert ApiBaseUrl + "/qa/" == "http://localhost:8000/qa/";
    chat.Resolve(Answered("This is a mocked model response."));
    transcript := chat.messages;
    query := chat.query;
  }

  /** A rejected request shows the server's detail; the question stays in the transcript
      without a reply. */
  method ChatFailure() returns (error: Option<string>, transcript: seq<ChatSection.Message>)
    ensures error == Some("Network Error")
    ensures transcript == [ChatSection.Message("Test query for error", ChatSection.User)]
  {
    var chat := new ChatSection.Chat();
    chat.TypeQuery("Test query for error");
    NotBlank("Test query for error");
    NotBlank("gemini/gemini-pro");
    ChatSection.Validation("Test query for error", "gemini/gemini-pro", false);
    var req := chat.Submit("test-file-id-123", "gemini/gemini-pro");
    chat.Resolve(Failed(Some("Network Error")));
    error := chat.error;
    transcript := chat.messages;
  }

  /** The send button: disabled without a model name, disabled with an empty input, enabled
      once something is typed; a suggestion fills the input with its text. */
  method ChatButtons() returns (noModel: bool, noQuery: bool, typed: bool, suggested: string)
    ensures !noModel && !noQuery && typed
    ensures suggested == "Summarize the key points of this document."
  {
    var chat := new ChatSection.Chat();
    ChatSection.Validation("", "", false);
    ChatSection.Validation("", "gemini/gemini-pro", false);
    noModel := chat.CanSend("");
    noQuery := chat.CanSend("gemini/gemini-pro");
    chat.TypeQuery("Test");
    NotBlank("Test");
    NotBlank("gemini/gemini-pro");
    ChatSection.Validation("Test", "gemini/gemini-pro", false);
    typed := chat.CanSend("gemini/gemini-pro");
    chat.ChooseSuggestion(0);
    suggested := chat.query;
  }

  /** The uploader starts with its button disabled. */
  method UploaderStartsDisabled() returns (enabled: bool)
    ensures !enabled
  {
    var uploader := new PdfUploader.Uploader();
    enabled := uploader.CanUpload();
  }

  /** A whole session: a PDF of three pages, the middle one without text, is picked,
      posted and stored; the session records it, all five panels appear, and a question
      about it reaches the model with the stored text in the prompt. */
  method UploadThenAsk() returns (stored: string, panels: nat, step: Step)
    ensures stored == "Page one\nPage two\n"
    ensures panels == 5
    ensures step == Ask(QaPrompt("Page one\nPage two\n", "What is this?"), App.DefaultModel, "answer")
  {
    var pdf := PdfUploader.File("book.pdf", "application/pdf");
    var uploader := new PdfUploader.Uploader();
    var session := new App.Session();
    var store := new DocumentStore();
    uploader.FileChange(Some([pdf]));
    var req := uploader.StartUpload();
    assert req == Some(PdfUploader.UploadRequest(ApiBaseUrl + "/upload_pdf/", pdf));
    var pages := ["Page one", "", "Page two"];
    PagesWithAGap();
    var r := store.CreateUploadPdf(Backend.Upload(Some(pdf.name), Some(pdf.mimeType)), Pages(pages));
    assert r.Ok?;
    App.CompleteUpload(uploader, session, PdfUploader.Uploaded("book.pdf", "book.pdf"));
    stored := store.pdfTexts["book.pdf"];
    panels := |session.Panels()|;
    step := QuestionAnswer(store.pdfTexts, session.fileId.value, "What is this?", session.selectedModel);
  }

  /** The stored text of three pages, the middle one without text: the two others, each
      ended by a newline. */
  lemma PagesWithAGap()
    ensures PageText(["Page one", "", "Page two"]) == "Page one\nPage two\n"
  {
    var pages := ["Page one", "", "Page two"];
    assert pages[..2] == ["Page one", ""] && pages[..2][..1] == ["Page one"];
    assert ["Page one"][..0] == [];
    assert PageText(["Page one"]) == "Page one\n";
    assert PageText(pages[..2]) == "Page one\n";
  }

  /** A value whose first and last characters are not whitespace is not blank. */
  lemma NotBlank(s: string)
    requires s != [] && !IsSpace(JavaScript, s[0]) && !IsSpace(JavaScript, s[|s| - 1])
    ensures !IsBlank(JavaScript, s)
  {
    assert SkipSpace(JavaScript, s, 0) == 0;
  }

  /** The question-answering test against a stored text: the model is asked with the exact
      prompt and its completion comes back under `answer`. */
  lemma QaSuccessVector()
    ensures var step := QuestionAnswer(map["test.pdf" := "This is a test PDF content."],
                                       "test.pdf", "What is this?", "test-model");
      && step == Ask("Here is the entire document content:\n\n" + "This is a test PDF content."
                     + "\n\nQuestion: " + "What is this?" + "\nAnswer:", "test-model", "answer")
      && Serve(step, Completion("This is a mock LLM answer."))
           == Ok([("answer", "This is a mock LLM answer.")])
  {
  }

  /** An unknown document is a 404 and an empty question a 400, with the tests' details. */
  lemma QaRefusalVectors()
    ensures QuestionAnswer(map["test.pdf" := "This is a test PDF content."],
                           "nonexistent.pdf", "What is this?", "test-model")
         == Reject(404, "PDF not found. Please upload it first.")
    ensures QuestionAnswer(map["test.pdf" := "This is a test PDF content."],
                           "test.pdf", "", "test-model")
         == Reject(400, "Query cannot be empty.")
  {
  }

  /** When the model helper itself raises a plain exception, the question-answering
      endpoint's catch-all answers, so the detail starts with "Error during Q&A processing: "
      and not with "LLM API call failed: "; only a failure inside the model library, which
      the real helper wraps, gives the latter. */
  lemma QaModelErrorVector()
    ensures var step := QuestionAnswer(map["test.pdf" := "This is a test PDF content."],
                                       "test.pdf", "A question", "test-model");
      && Serve(step, Crashed("LLM simulated error"))
           == Err(500, "Error during Q&A processing: " + "LLM simulated error")
      && !(LlmFailedPrefix <= Serve(step, Crashed("LLM simulated error")).detail)
      && LlmFailedPrefix <= Serve(step, Raised("LLM simulated error")).detail
  {
    var step := QuestionAnswer(map["test.pdf" := "This is a test PDF content."],
                               "test.pdf", "A question", "test-model");
    ServeReportsModel(step, Crashed("LLM simulated error"));
    ServeReportsModel(step, Raised("LLM simulated error"));
  }
}
