/** The term-explanation component: a term box, an optional context box, the explanation slot. */
module TermExplanationSection {
  import opened Optional
  import opened Text
  import opened Requests
  import opened Panels

  const BlankTerm: string := "Please enter a term to explain."

  /** term (trimmed), model_name, then context only when not blank. */
  const TermLayout: seq<Param> := [
    Param("term", Input(0, Trimmed)), Param("model_name", ModelProp),
    Param("context", Input(1, TrimmedIfPresent))]

  const TermPanel: Config := Config(
    "/explain_term/",
    [Field(FreeText, ""), Field(FreeText, "")],
    Some(Required(0, BlankTerm)),
    TermLayout,
    "explanation",
    "Failed to get explanation.")

  /** Term and context start empty; the term is checked before the model; the button needs
      an idle panel, a term and a model, and never looks at the context. */
  lemma Validation(term: string, context: string, modelName: string, isLoading: bool)
    ensures WellFormed(TermPanel) && Initial(TermPanel) == ["", ""]
    ensures Validate(TermPanel, [term, context], modelName) ==
      if IsBlank(JavaScript, term) then Some(BlankTerm)
      else if IsBlank(JavaScript, modelName) then Some(ModelMissing)
      else None
    ensures SubmitEnabled(TermPanel, [term, context], isLoading, modelName) <==>
      !isLoading && !IsBlank(JavaScript, term) && !IsBlank(JavaScript, modelName)
  {
  }

  lemma LayoutParams(term: string, context: string, fileId: string, modelName: string)
    ensures BuildParams([Param("term", Input(0, Trimmed)), Param("model_name", ModelProp),
      Param("context", Input(1, TrimmedIfPresent))], [term, context], fileId, modelName) ==
      [("term", Trim(JavaScript, term)), ("model_name", modelName)] + OptionalParam("context", context)
  {
    var inputs := [term, context];
    var p0, p1, p2 := Param("term", Input(0, Trimmed)), Param("model_name", ModelProp),
      Param("context", Input(1, TrimmedIfPresent));
    BuildParamsCons(p2, [], inputs, fileId, modelName);
    assert BuildParams([p2], inputs, fileId, modelName) == OptionalParam("context", context);
    BuildParamsCons(p1, [p2], inputs, fileId, modelName);
    BuildParamsCons(p0, [p1] + [p2], inputs, fileId, modelName);
    assert [p0, p1, p2] == [p0] + ([p1] + [p2]);
  }

  /** The term goes out trimmed, then the model, then the trimmed context only when it is not
      blank (otherwise no `context` key at all); no file id is sent. */
  lemma RequestShape(term: string, context: string, fileId: string, modelName: string)
    ensures WellFormed(TermPanel)
    ensures BuildRequest(TermPanel, [term, context], fileId, modelName) ==
      Request(ApiBaseUrl + "/explain_term/",
        [("term", Trim(JavaScript, term)), ("model_name", modelName)] + OptionalParam("context", context))
    ensures TermPanel.resultKey == "explanation"
    ensures TermPanel.failureDefault == "Failed to get explanation."
  {
    LayoutParams(term, context, fileId, modelName);
  }
}
