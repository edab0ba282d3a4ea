/** The question-answering component: one question box, the answer slot. */
module QaSection {
  import opened Optional
  import opened Text
  import opened Requests
  import opened Panels

  const BlankQuestion: string := "Please enter a question."

  /** file_id, the question as typed, model_name. */
  const QaLayout: seq<Param> :=
    [Param("file_id", FileIdProp), Param("query", Input(0, AsTyped)), Param("model_name", ModelProp)]

  const QaPanel: Config := Config(
    "/qa/",
    [Field(FreeText, "")],
    Some(Required(0, BlankQuestion)),
    QaLayout,
    "answer",
    "Failed to get answer.")

  /** The question starts empty; it is checked before the model; the button is enabled iff
      nothing is in flight and neither question nor model is blank. */
  lemma Validation(query: string, modelName: string, isLoading: bool)
    ensures WellFormed(QaPanel) && Initial(QaPanel) == [""]
    ensures Validate(QaPanel, [query], modelName) ==
      if IsBlank(JavaScript, query) then Some(BlankQuestion)
      else if IsBlank(JavaScript, modelName) then Some(ModelMissing)
      else None
    ensures SubmitEnabled(QaPanel, [query], isLoading, modelName) <==>
      !isLoading && !IsBlank(JavaScript, query) && !IsBlank(JavaScript, modelName)
  {
  }

  /** The request goes to `/qa/` with the file id, the question exactly as typed (not trimmed)
      and the model, in that order; the answer is read from `answer`, and a failure without
      a detail reads "Failed to get answer.". */
  lemma RequestShape(query: string, fileId: string, modelName: string)
    ensures WellFormed(QaPanel)
    ensures BuildRequest(QaPanel, [query], fileId, modelName) ==
      Request(ApiBaseUrl + "/qa/", [("file_id", fileId), ("query", query), ("model_name", modelName)])
    ensures QaPanel.resultKey == "answer" && QaPanel.failureDefault == "Failed to get answer."
  {
    var ps, inputs := QaPanel.params, [query];
    assert BuildParams(ps[3..], inputs, fileId, modelName) == [];
    assert BuildParams(ps[2..], inputs, fileId, modelName) == [("model_name", modelName)];
    assert BuildParams(ps[1..], inputs, fileId, modelName) == [("query", query), ("model_name", modelName)];
  }
}
