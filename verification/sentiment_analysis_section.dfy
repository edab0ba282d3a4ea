/** The sentiment component: a text area, the sentiment slot. */
module SentimentAnalysisSection {
  import opened Optional
  import opened Text
  import opened Requests
  import opened Panels

  const BlankText: string := "Please enter text to analyze."

  const SentimentPanel: Config := Config(
    "/analyze_sentiment/",
    [Field(FreeText, "")],
    Some(Required(0, BlankText)),
    [Param("text_segment", Input(0, Trimmed)), Param("model_name", ModelProp)],
    "sentiment_analysis",
    "Failed to analyze sentiment.")

  /** The text starts empty; it is checked before the model; the button needs an idle
      panel, a text and a model. */
  lemma Validation(text: string, modelName: string, isLoading: bool)
    ensures WellFormed(SentimentPanel) && Initial(SentimentPanel) == [""]
    ensures Validate(SentimentPanel, [text], modelName) ==
      if IsBlank(JavaScript, text) then Some(BlankText)
      else if IsBlank(JavaScript, modelName) then Some(ModelMissing)
      else None
    ensures SubmitEnabled(SentimentPanel, [text], isLoading, modelName) <==>
      !isLoading && !IsBlank(JavaScript, text) && !IsBlank(JavaScript, modelName)
  {
  }

  /** The request carries exactly the trimmed text and the model, in that order; no file id
      is sent; the result is read from `sentiment_analysis`. */
  lemma RequestShape(text: string, fileId: string, modelName: string)
    ensures WellFormed(SentimentPanel)
    ensures BuildRequest(SentimentPanel, [text], fileId, modelName) ==
      Request(ApiBaseUrl + "/analyze_sentiment/",
        [("text_segment", Trim(JavaScript, text)), ("model_name", modelName)])
    ensures SentimentPanel.resultKey == "sentiment_analysis"
    ensures SentimentPanel.failureDefault == "Failed to analyze sentiment."
  {
    var ps, inputs := SentimentPanel.params, [text];
    assert BuildParams(ps[2..], inputs, fileId, modelName) == [];
    assert BuildParams(ps[1..], inputs, fileId, modelName) == [("model_name", modelName)];
  }
}
