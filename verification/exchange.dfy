/** The two sides put together: what the server does with the form each panel sends once its
    own checks have passed, and what the panel shows when the server refuses. */
module Exchange {
  import opened Optional
  import opened Text
  import opened Requests
  import opened Panels
  import opened Backend
  import opened BackendPrompts
  import QaSection
  import ChatSection
  import SummarizationSection
  import TermExplanationSection
  import MisinformationDetectionSection
  import SentimentAnalysisSection

  /** How the server reads a single-valued form field: the last value sent under the key,
      or nothing when the key is absent. */
  function FormValue(form: seq<(string, string)>, key: string): (v: Option<string>)
    ensures v.Some? <==> exists i :: 0 <= i < |form| && form[i].0 == key
    ensures v.Some? ==>
      exists i :: 0 <= i < |form| && form[i] == (key, v.value)
        && forall j :: i < j < |form| ==> form[j].0 != key
  {
    if form == [] then None
    else if form[|form| - 1].0 == key then Some(form[|form| - 1].1)
    else
      var init := form[..|form| - 1];
      var v := FormValue(init, key);
      assert forall i :: 0 <= i < |init| ==> init[i] == form[i];
      v
  }

  predicate DistinctKeys(form: seq<(string, string)>) {
    forall i, j :: 0 <= i < j < |form| ==> form[i].0 != form[j].0
  }

  /** With no key sent twice, each field is read back as sent. */
  lemma FormValueAt(form: seq<(string, string)>, i: nat)
    requires DistinctKeys(form) && i < |form|
    ensures FormValue(form, form[i].0) == Some(form[i].1)
  {
    var v := FormValue(form, form[i].0);
    var j :| 0 <= j < |form| && form[j] == (form[i].0, v.value)
      && forall k :: j < k < |form| ==> form[k].0 != form[i].0;
    if i < j {
      assert form[i].0 != form[j].0;
    }
  }

  /** An optional input as the server receives it: absent when blank, trimmed otherwise. */
  function Sent(v: string): Option<string> {
    if IsBlank(JavaScript, v) then None else Some(Trim(JavaScript, v))
  }

  /** Fields always sent, then one sent only when not blank: each arrives as sent, and the
      optional one arrives exactly as `Sent` says. */
  lemma OptionalFieldArrives(fixed: seq<(string, string)>, key: string, v: string)
    requires DistinctKeys(fixed)
    requires forall i :: 0 <= i < |fixed| ==> fixed[i].0 != key
    ensures forall i :: 0 <= i < |fixed| ==>
      FormValue(fixed + OptionalParam(key, v), fixed[i].0) == Some(fixed[i].1)
    ensures FormValue(fixed + OptionalParam(key, v), key) == Sent(v)
  {
    if IsBlank(JavaScript, v) {
      assert fixed + OptionalParam(key, v) == fixed;
      forall i | 0 <= i < |fixed|
        ensures FormValue(fixed, fixed[i].0) == Some(fixed[i].1)
      {
        FormValueAt(fixed, i);
      }
    } else {
      var form := fixed + [(key, Trim(JavaScript, v))];
      assert fixed + OptionalParam(key, v) == form;
      assert DistinctKeys(form) by {
        forall i, j | 0 <= i < j < |form|
          ensures form[i].0 != form[j].0
        {
          if j < |fixed| {
            assert form[i] == fixed[i] && form[j] == fixed[j];
          } else {
            assert form[i] == fixed[i];
          }
        }
      }
      forall i | 0 <= i < |fixed|
        ensures FormValue(form, fixed[i].0) == Some(fixed[i].1)
      {
        FormValueAt(form, i);
        assert form[i] == fixed[i];
      }
      FormValueAt(form, |fixed|);
    }
  }

  /** The optional value arrives truthy exactly when its box was not blank. */
  lemma SentTruthyIffNotBlank(v: string)
    ensures Truthy(Sent(v)) <==> !IsBlank(JavaScript, v)
  {
    if !IsBlank(JavaScript, v) {
      assert Trim(JavaScript, v) != [];
    }
  }

  /** A value that is not blank is not empty either. */
  lemma NotBlankNotEmpty(rt: Runtime, s: string)
    requires !IsBlank(rt, s)
    ensures s != ""
  {
  }

  /** A question the panel lets out, about a stored document, reaches the model: every field
      arrives as sent and none of the server's 400s can fire. */
  lemma QaReachesModel(pdfTexts: map<string, string>, query: string, fileId: string, modelName: string)
    requires Validate(QaSection.QaPanel, [query], modelName) == None
    requires fileId in pdfTexts
    ensures var form := BuildRequest(QaSection.QaPanel, [query], fileId, modelName).params;
      && FormValue(form, "file_id") == Some(fileId)
      && FormValue(form, "query") == Some(query)
      && FormValue(form, "model_name") == Some(modelName)
    ensures QuestionAnswer(pdfTexts, fileId, query, modelName)
         == Ask(QaPrompt(pdfTexts[fileId], query), modelName, "answer")
  {
    QaSection.Validation(query, modelName, false);
    QaSection.RequestShape(query, fileId, modelName);
    var form := [("file_id", fileId), ("query", query), ("model_name", modelName)];
    FormValueAt(form, 0);
    FormValueAt(form, 1);
    FormValueAt(form, 2);
    NotBlankNotEmpty(JavaScript, query);
    NotBlankNotEmpty(JavaScript, modelName);
  }

  /** The chat's messages reach the model the same way. */
  lemma ChatReachesModel(pdfTexts: map<string, string>, query: string, fileId: string, modelName: string)
    requires Validate(ChatSection.ChatPanel, [query], modelName) == None
    requires fileId in pdfTexts
    ensures BuildRequest(ChatSection.ChatPanel, [query], fileId, modelName)
         == BuildRequest(QaSection.QaPanel, [query], fileId, modelName)
    ensures QuestionAnswer(pdfTexts, fileId, query, modelName)
         == Ask(QaPrompt(pdfTexts[fileId], query), modelName, "answer")
  {
    ChatSection.Validation(query, modelName, false);
    ChatSection.RequestShape(query, fileId, modelName);
    QaSection.Validation(query, modelName, false);
    QaReachesModel(pdfTexts, query, fileId, modelName);
  }

  /** A summary request the panel lets out reaches the model with the chosen length, and the
      keyword clause is in the prompt exactly when the keyword box was not blank. */
  lemma SummaryReachesModel(pdfTexts: map<string, string>, summaryLength: string, keywords: string,
                            fileId: string, modelName: string)
    requires Validate(SummarizationSection.SummarizationPanel, [summaryLength, keywords], modelName) == None
    requires fileId in pdfTexts
    ensures var form := BuildRequest(SummarizationSection.SummarizationPanel, [summaryLength, keywords], fileId, modelName).params;
      && FormValue(form, "file_id") == Some(fileId)
      && FormValue(form, "model_name") == Some(modelName)
      && FormValue(form, "summary_length") == Some(summaryLength)
      && FormValue(form, "keywords") == Sent(keywords)
    ensures SummarizeText(pdfTexts, fileId, modelName, Some(summaryLength), Sent(keywords))
         == Ask(KeyInfoPrompt(pdfTexts[fileId], summaryLength, Sent(keywords)), modelName, "summary")
    ensures KeyInfoPrompt(pdfTexts[fileId], summaryLength, Sent(keywords))
            != KeyInfoPrompt(pdfTexts[fileId], summaryLength, None)
        <==> !IsBlank(JavaScript, keywords)
  {
    SummarizationSection.Validation(summaryLength, keywords, modelName, false);
    SummarizationSection.RequestShape(summaryLength, keywords, fileId, modelName);
    var fixed := [("file_id", fileId), ("model_name", modelName), ("summary_length", summaryLength)];
    OptionalFieldArrives(fixed, "keywords", keywords);
    assert fixed[0].0 == "file_id" && fixed[1].0 == "model_name" && fixed[2].0 == "summary_length";
    NotBlankNotEmpty(JavaScript, modelName);
    KeyInfoKeywordsMatterIffTruthy(pdfTexts[fileId], summaryLength, Sent(keywords));
  }

  /** The term form arrives as sent: the trimmed term, the model, and the trimmed context
      only when the context box was not blank. */
  lemma TermFormArrives(term: string, context: string, modelName: string, fileId: string)
    ensures var form := BuildRequest(TermExplanationSection.TermPanel, [term, context], fileId, modelName).params;
      && FormValue(form, "term") == Some(Trim(JavaScript, term))
      && FormValue(form, "model_name") == Some(modelName)
      && FormValue(form, "context") == Sent(context)
  {
    TermExplanationSection.RequestShape(term, context, fileId, modelName);
    var fixed := [("term", Trim(JavaScript, term)), ("model_name", modelName)];
    OptionalFieldArrives(fixed, "context", context);
    assert fixed[0].0 == "term" && fixed[1].0 == "model_name";
  }

  /** A term request the panel lets out reaches the model with the trimmed term, and the
      context clause is in the prompt exactly when the context box was not blank. */
  lemma TermReachesModel(term: string, context: string, modelName: string)
    requires Validate(TermExplanationSection.TermPanel, [term, context], modelName) == None
    ensures ExplainTermApi(Trim(JavaScript, term), modelName, Sent(context))
         == Ask(TermPrompt(Trim(JavaScript, term), Sent(context)), modelName, "explanation")
    ensures TermPrompt(Trim(JavaScript, term), Sent(context)) != TermPrompt(Trim(JavaScript, term), None)
        <==> !IsBlank(JavaScript, context)
  {
    TermExplanationSection.Validation(term, context, modelName, false);
    NotBlankNotEmpty(JavaScript, modelName);
    TermContextMattersIffTruthy(Trim(JavaScript, term), Sent(context));
  }

  /** A misinformation request the panel lets out reaches the model, provided the text holds
      none of the characters only the server counts as whitespace. */
  lemma MisinformationReachesModel(text: string, modelName: string, fileId: string)
    requires Validate(MisinformationDetectionSection.MisinformationPanel, [text], modelName) == None
    requires forall i :: 0 <= i < |text| ==> !PythonOnlySpace(text[i])
    ensures var form := BuildRequest(MisinformationDetectionSection.MisinformationPanel, [text], fileId, modelName).params;
      && FormValue(form, "text_segment") == Some(Trim(JavaScript, text))
      && FormValue(form, "model_name") == Some(modelName)
    ensures DetectMisinfoApi(Trim(JavaScript, text), modelName)
         == Ask(MisinformationPrompt(Trim(JavaScript, text)), modelName, "misinformation_analysis")
  {
    MisinformationDetectionSection.Validation(text, modelName, false);
    MisinformationDetectionSection.RequestShape(text, fileId, modelName);
    var form := [("text_segment", Trim(JavaScript, text)), ("model_name", modelName)];
    FormValueAt(form, 0);
    FormValueAt(form, 1);
    NotBlankNotEmpty(JavaScript, modelName);
    JsNonBlankIsPyNonBlank(text);
  }

  /** The same for sentiment analysis. */
  lemma SentimentReachesModel(text: string, modelName: string, fileId: string)
    requires Validate(SentimentAnalysisSection.SentimentPanel, [text], modelName) == None
    requires forall i :: 0 <= i < |text| ==> !PythonOnlySpace(text[i])
    ensures var form := BuildRequest(SentimentAnalysisSection.SentimentPanel, [text], fileId, modelName).params;
      && FormValue(form, "text_segment") == Some(Trim(JavaScript, text))
      && FormValue(form, "model_name") == Some(modelName)
    ensures AnalyzeSentimentApi(Trim(JavaScript, text), modelName)
         == Ask(SentimentPrompt(Trim(JavaScript, text)), modelName, "sentiment_analysis")
  {
    SentimentAnalysisSection.Validation(text, modelName, false);
    SentimentAnalysisSection.RequestShape(text, fileId, modelName);
    var form := [("text_segment", Trim(JavaScript, text)), ("model_name", modelName)];
    FormValueAt(form, 0);
    FormValueAt(form, 1);
    NotBlankNotEmpty(JavaScript, modelName);
    JsNonBlankIsPyNonBlank(text);
  }

  /** Without that proviso the two sides disagree: a text made of U+001C passes the panel's
      check, which trims with the browser's whitespace, but the server strips it with its
      own and refuses the request. */
  lemma WhitespaceGap()
    ensures var text := "\U{1C}";
      && Validate(MisinformationDetectionSection.MisinformationPanel, [text], "test-model") == None
      && DetectMisinfoApi(Trim(JavaScript, text), "test-model") == Reject(400, SegmentEmpty)
      && Validate(SentimentAnalysisSection.SentimentPanel, [text], "test-model") == None
      && AnalyzeSentimentApi(Trim(JavaScript, text), "test-model") == Reject(400, SegmentEmpty)
  {
    var text := "\U{1C}";
    assert !IsSpace(JavaScript, text[0]);
    assert SkipSpace(JavaScript, text, 0) == 0;
    assert Trim(JavaScript, text) == text;
    assert IsSpace(Python, text[0]);
    assert SkipSpace(Python, text, 0) == 1;
    MisinformationDetectionSection.Validation(text, "test-model", false);
    SentimentAnalysisSection.Validation(text, "test-model", false);
  }

  /** Whatever the server refuses, the panel shows the server's own detail rather than its
      default text. */
  lemma RefusalShownVerbatim(step: Step, reply: LlmReply, default: string)
    requires step.Reject? ==> step.detail != ""
    ensures var r := Serve(step, reply);
      r.Err? ==> FailureText(Some(r.detail), default) == r.detail
  {
    FailuresExplain(step, reply);
  }
}
