/** The misinformation component: a text area, the analysis slot. */
module MisinformationDetectionSection {
  import opened Optional
  import opened Text
  import opened Requests
  import opened Panels

  const BlankText: string := "Please enter text to analyze."

  const MisinformationPanel: Config := Config(
    "/detect_misinformation/",
    [Field(FreeText, "")],
    Some(Required(0, BlankText)),
    [Param("text_segment", Input(0, Trimmed)), Param("model_name", ModelProp)],
    "misinformation_analysis",
    "Failed to analyze for misinformation.")

  /** The text starts empty; it is checked before the model; the button needs an idle
      panel, a text and a model. */
  lemma Validation(text: string, modelName: string, isLoading: bool)
    ensures WellFormed(MisinformationPanel) && Initial(MisinformationPanel) == [""]
    ensures Validate(MisinformationPanel, [text], modelName) ==
      if IsBlank(JavaScript, text) then Some(BlankText)
      else if IsBlank(JavaScript, modelName) then Some(ModelMissing)
      else None
    ensures SubmitEnabled(MisinformationPanel, [text], isLoading, modelName) <==>
      !isLoading && !IsBlank(JavaScript, text) && !IsBlank(JavaScript, modelName)
  {
  }

  /** The request carries exactly the trimmed text and the model, in that order; no file id
      is sent; the result is read from `misinformation_analysis`. */
  lemma RequestShape(text: string, fileId: string, modelName: string)
    ensures WellFormed(MisinformationPanel)
    ensures BuildRequest(MisinformationPanel, [text], fileId, modelName) ==
      Request(ApiBaseUrl + "/detect_misinformation/",
        [("text_segment", Trim(JavaScript, text)), ("model_name", modelName)])
    ensures MisinformationPanel.resultKey == "misinformation_analysis"
    ensures MisinformationPanel.failureDefault == "Failed to analyze for misinformation."
  {
    var ps, inputs := MisinformationPanel.params, [text];
    assert BuildParams(ps[2..], inputs, fileId, modelName) == [];
    assert BuildParams(ps[1..], inputs, fileId, modelName) == [("model_name", modelName)];
  }
}
