/** The summarization component: a length select, an optional keywords box, the summary slot. */
module SummarizationSection {
  import opened Optional
  import opened Text
  import opened Requests
  import opened Panels

  const SummaryLengthOptions: seq<string> := ["Short", "Medium", "Long", "Comprehensive"]

  /** file_id, model_name, summary_length, then keywords only when not blank. */
  const SummarizationLayout: seq<Param> := [
    Param("file_id", FileIdProp), Param("model_name", ModelProp),
    Param("summary_length", Input(0, AsTyped)), Param("keywords", Input(1, TrimmedIfPresent))]

  const SummarizationPanel: Config := Config(
    "/summarize/",
    [Field(OneOf(SummaryLengthOptions), SummaryLengthOptions[1]), Field(FreeText, "")],
    None,
    SummarizationLayout,
    "summary",
    "Failed to generate summary.")

  /** The length starts at "Medium", the second option, with no keywords; a blank model is
      the only thing refused; the button needs only an idle panel and a model. */
  lemma Validation(summaryLength: string, keywords: string, modelName: string, isLoading: bool)
    ensures WellFormed(SummarizationPanel) && Initial(SummarizationPanel) == ["Medium", ""]
    ensures Validate(SummarizationPanel, [summaryLength, keywords], modelName) ==
      if IsBlank(JavaScript, modelName) then Some(ModelMissing) else None
    ensures SubmitEnabled(SummarizationPanel, [summaryLength, keywords], isLoading, modelName) <==>
      !isLoading && !IsBlank(JavaScript, modelName)
  {
  }

  lemma LayoutParams(summaryLength: string, keywords: string, fileId: string, modelName: string)
    ensures BuildParams([Param("file_id", FileIdProp), Param("model_name", ModelProp),
      Param("summary_length", Input(0, AsTyped)), Param("keywords", Input(1, TrimmedIfPresent))], [summaryLength, keywords], fileId, modelName) ==
      [("file_id", fileId), ("model_name", modelName), ("summary_length", summaryLength)]
      + OptionalParam("keywords", keywords)
  {
    var inputs := [summaryLength, keywords];
    var p0, p1 := Param("file_id", FileIdProp), Param("model_name", ModelProp);
    var tail := [Param("summary_length", Input(0, AsTyped)), Param("keywords", Input(1, TrimmedIfPresent))];
    LengthThenKeywords(summaryLength, keywords, fileId, modelName);
    BuildParamsCons(p1, tail, inputs, fileId, modelName);
    BuildParamsCons(p0, [p1] + tail, inputs, fileId, modelName);
    assert [p0] + ([p1] + tail) == [p0, p1] + tail;
  }

  /** The last two entries of the layout: the length as chosen, then the optional keywords. */
  lemma LengthThenKeywords(summaryLength: string, keywords: string, fileId: string, modelName: string)
    ensures BuildParams([Param("summary_length", Input(0, AsTyped)), Param("keywords", Input(1, TrimmedIfPresent))],
      [summaryLength, keywords], fileId, modelName) ==
      [("summary_length", summaryLength)] + OptionalParam("keywords", keywords)
  {
    var inputs := [summaryLength, keywords];
    var p2, p3 := Param("summary_length", Input(0, AsTyped)), Param("keywords", Input(1, TrimmedIfPresent));
    BuildParamsCons(p3, [], inputs, fileId, modelName);
    assert [p3] + [] == [p3];
    BuildParamsCons(p2, [p3], inputs, fileId, modelName);
    assert [p2] + [p3] == [p2, p3];
  }

  /** The request always carries file id, model and length, in that order, and then the
      trimmed keywords only when they are not blank; the summary is read from `summary`. */
  lemma RequestShape(summaryLength: string, keywords: string, fileId: string, modelName: string)
    ensures WellFormed(SummarizationPanel)
    ensures BuildRequest(SummarizationPanel, [summaryLength, keywords], fileId, modelName) ==
      Request(ApiBaseUrl + "/summarize/",
        [("file_id", fileId), ("model_name", modelName), ("summary_length", summaryLength)]
        + OptionalParam("keywords", keywords))
    ensures SummarizationPanel.resultKey == "summary"
    ensures SummarizationPanel.failureDefault == "Failed to generate summary."
  {
    LayoutParams(summaryLength, keywords, fileId, modelName);
  }

  /** The select offers only the four lengths, so the length a fitting panel holds is one of them. */
  lemma LengthIsOffered(inputs: seq<string>)
    requires Fits(SummarizationPanel, inputs)
    ensures inputs[0] in ["Short", "Medium", "Long", "Comprehensive"]
  {
  }
}
