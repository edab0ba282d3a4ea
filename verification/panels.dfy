/** The analysis panel shared by the question-answering, summarization, term-explanation,
    misinformation and sentiment components: input fields, a loading flag, an error slot and
    a result slot, driven by a submit handler and by the resolution of its one request. */
module Panels {
  import opened Optional
  import opened Text
  import opened Requests

  /** A text box, or a select that only offers the listed options. */
  datatype FieldKind = FreeText | OneOf(options: seq<string>)

  datatype Field = Field(kind: FieldKind, initial: string)

  /** How an input is put into the form: as typed, trimmed, or trimmed and left out
      altogether when it is blank. */
  datatype Encoding = AsTyped | Trimmed | TrimmedIfPresent

  /** Where a form value comes from: the `fileId` prop, the `modelName` prop, or an input. */
  datatype Source = FileIdProp | ModelProp | Input(index: nat, encoding: Encoding)

  datatype Param = Param(key: string, source: Source)

  /** The input that must not be blank, and the message shown when it is. */
  datatype Required = Required(index: nat, blankMessage: string)

  /** What tells one panel from another. */
  datatype Config = Config(
    endpoint: string,
    fields: seq<Field>,
    required: Option<Required>,
    params: seq<Param>,
    resultKey: string,
    failureDefault: string)

  const ModelMissing: string := "Please ensure a model is selected or entered."

  predicate Admits(f: Field, v: string) {
    f.kind.OneOf? ==> v in f.kind.options
  }

  predicate ParamsFit(params: seq<Param>, width: nat) {
    forall i :: 0 <= i < |params| && params[i].source.Input? ==> params[i].source.index < width
  }

  predicate WellFormed(cfg: Config) {
    && (forall i :: 0 <= i < |cfg.fields| ==> Admits(cfg.fields[i], cfg.fields[i].initial))
    && (cfg.required.Some? ==> cfg.required.value.index < |cfg.fields|)
    && ParamsFit(cfg.params, |cfg.fields|)
  }

  /** Input values that fit the panel's fields, each select holding one of its options. */
  predicate Fits(cfg: Config, inputs: seq<string>) {
    && |inputs| == |cfg.fields|
    && forall i :: 0 <= i < |inputs| ==> Admits(cfg.fields[i], inputs[i])
  }

  function Initial(cfg: Config): (inputs: seq<string>)
    requires WellFormed(cfg)
    ensures Fits(cfg, inputs)
    ensures forall i :: 0 <= i < |inputs| ==> inputs[i] == cfg.fields[i].initial
  {
    seq(|cfg.fields|, i requires 0 <= i < |cfg.fields| => cfg.fields[i].initial)
  }

  /** The synchronous checks of the submit handler, in their order: the required input
      first, then the model. `None` means the request goes out. */
  function Validate(cfg: Config, inputs: seq<string>, modelName: string): Option<string>
    requires WellFormed(cfg) && |inputs| == |cfg.fields|
  {
    if cfg.required.Some? && IsBlank(JavaScript, inputs[cfg.required.value.index]) then
      Some(cfg.required.value.blankMessage)
    else if IsBlank(JavaScript, modelName) then
      Some(ModelMissing)
    else
      None
  }

  /** The `disabled` expression of the submit button, negated. */
  predicate SubmitEnabled(cfg: Config, inputs: seq<string>, isLoading: bool, modelName: string)
    requires WellFormed(cfg) && |inputs| == |cfg.fields|
  {
    && !isLoading
    && (cfg.required.Some? ==> !IsBlank(JavaScript, inputs[cfg.required.value.index]))
    && !IsBlank(JavaScript, modelName)
  }

  /** The button is enabled exactly when nothing is in flight and the handler's checks
      would let the request out: a validation message is only reachable by a submit the
      button itself would not have offered. */
  lemma EnabledIffValid(cfg: Config, inputs: seq<string>, isLoading: bool, modelName: string)
    requires WellFormed(cfg) && |inputs| == |cfg.fields|
    ensures SubmitEnabled(cfg, inputs, isLoading, modelName)
        <==> !isLoading && Validate(cfg, inputs, modelName) == None
    ensures Validate(cfg, inputs, modelName).Some? ==> !SubmitEnabled(cfg, inputs, isLoading, modelName)
  {
  }

  /** The value one `params.append` adds, or `None` where the handler skips the append. */
  function ParamValue(src: Source, inputs: seq<string>, fileId: string, modelName: string): Option<string>
    requires src.Input? ==> src.index < |inputs|
  {
    match src
    case FileIdProp => Some(fileId)
    case ModelProp => Some(modelName)
    case Input(i, AsTyped) => Some(inputs[i])
    case Input(i, Trimmed) => Some(Trim(JavaScript, inputs[i]))
    case Input(i, TrimmedIfPresent) =>
      if IsBlank(JavaScript, inputs[i]) then None else Some(Trim(JavaScript, inputs[i]))
  }

  /** What an optional input adds to the form: nothing when blank, else its trimmed value. */
  function OptionalParam(key: string, v: string): seq<(string, string)> {
    if IsBlank(JavaScript, v) then [] else [(key, Trim(JavaScript, v))]
  }

  /** The `URLSearchParams` the handler builds, in append order. */
  function BuildParams(params: seq<Param>, inputs: seq<string>, fileId: string, modelName: string): (r: seq<(string, string)>)
    requires ParamsFit(params, |inputs|)
    ensures |r| <= |params|
  {
    if params == [] then []
    else
      var rest := BuildParams(params[1..], inputs, fileId, modelName);
      match ParamValue(params[0].source, inputs, fileId, modelName)
      case None => rest
      case Some(v) => [(params[0].key, v)] + rest
  }

  /** One `append` (or its skipping) followed by the rest of the layout. */
  lemma BuildParamsCons(p: Param, rest: seq<Param>, inputs: seq<string>, fileId: string, modelName: string)
    requires p.source.Input? ==> p.source.index < |inputs|
    requires ParamsFit(rest, |inputs|)
    ensures ParamsFit([p] + rest, |inputs|)
    ensures BuildParams([p] + rest, inputs, fileId, modelName) ==
      (match ParamValue(p.source, inputs, fileId, modelName)
       case None => []
       case Some(v) => [(p.key, v)]) + BuildParams(rest, inputs, fileId, modelName)
  {
    assert forall i :: 0 <= i < |rest| ==> rest[i] == ([p] + rest)[i + 1];
    assert ([p] + rest)[1..] == rest;
  }

  function BuildRequest(cfg: Config, inputs: seq<string>, fileId: string, modelName: string): Request
    requires WellFormed(cfg) && |inputs| == |cfg.fields|
  {
    Request(ApiBaseUrl + cfg.endpoint, BuildParams(cfg.params, inputs, fileId, modelName))
  }

  /** One mounted panel. `fileId` and `modelName` are props, passed to each handler call. */
  class Panel {
    const config: Config
    var inputs: seq<string>
    var isLoading: bool
    var error: Option<string>
    var result: Option<string>

    /** While a request is in flight the previous error and result are already cleared. */
    ghost predicate Valid()
      reads this
    {
      && WellFormed(config)
      && Fits(config, inputs)
      && (isLoading ==> error == None && result == None)
    }

    predicate CanSubmit(modelName: string)
      reads this
      requires Valid()
    {
      SubmitEnabled(config, inputs, isLoading, modelName)
    }

    constructor (cfg: Config)
      requires WellFormed(cfg)
      ensures Valid() && config == cfg
      ensures inputs == Initial(cfg) && !isLoading && error == None && result == None
    {
      config := cfg;
      inputs := Initial(cfg);
      isLoading := false;
      error := None;
      result := None;
    }

    /** An `onChange` handler: one input takes the value the user entered or selected. */
    method Edit(i: nat, v: string)
      requires Valid() && i < |inputs| && Admits(config.fields[i], v)
      modifies this
      ensures Valid() && inputs == old(inputs)[i := v]
      ensures isLoading == old(isLoading) && error == old(error) && result == old(result)
    {
      inputs := inputs[i := v];
    }

    /** The submit handler up to its `await`. A failed check only sets the error; otherwise
        loading starts, error and result are cleared, and the request is returned. Controls
        are disabled while loading, so no submit happens then. */
    method Submit(fileId: string, modelName: string) returns (req: Option<Request>)
      requires Valid() && !isLoading
      modifies this
      ensures Valid() && inputs == old(inputs)
      ensures Validate(config, inputs, modelName).Some? ==>
        && req == None
        && error == Validate(config, inputs, modelName)
        && !isLoading && result == old(result)
      ensures Validate(config, inputs, modelName) == None ==>
        && req == Some(BuildRequest(config, inputs, fileId, modelName))
        && isLoading && error == None && result == None
    {
      var invalid := Validate(config, inputs, modelName);
      if invalid.Some? {
        error := invalid;
        return None;
      }
      isLoading := true;
      error := None;
      result := None;
      req := Some(BuildRequest(config, inputs, fileId, modelName));
    }

    /** The rest of the handler: the result or the error slot takes the outcome, and
        `finally` ends loading. */
    method Resolve(outcome: Outcome)
      requires Valid() && isLoading
      modifies this
      ensures Valid() && inputs == old(inputs) && !isLoading
      ensures outcome.Answered? ==> result == Some(outcome.payload) && error == None
      ensures outcome.Failed? ==>
        error == Some(FailureText(outcome.detail, config.failureDefault)) && result == None
    {
      match outcome {
        case Answered(payload) =>
          result := Some(payload);
        case Failed(detail) =>
          error := Some(FailureText(detail, config.failureDefault));
      }
      isLoading := false;
    }
  }
}
