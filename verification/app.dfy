/** The page: the uploader, the session state it feeds, the model selector, and the five
    analysis panels, which are mounted only once a document has been uploaded. */
module App {
  import opened Optional
  import opened Panels
  import QaSection
  import SummarizationSection
  import TermExplanationSection
  import MisinformationDetectionSection
  import SentimentAnalysisSection
  import PdfUploader

  const DefaultModel: string := "gemini/gemini-2.0-flash"

  /** The options of the model selector. */
  const AvailableModels: seq<string> := [DefaultModel, "gemini/gemini-2.0-flash-thinking-exp-01-21"]

  /** A mounted panel: its behaviour and the props it is given. */
  datatype Mount = Mount(config: Config, fileId: Option<string>, modelName: string)

  /** Whether a panel's form carries the `fileId` prop. */
  predicate UsesFileId(cfg: Config) {
    exists i :: 0 <= i < |cfg.params| && cfg.params[i].source == FileIdProp
  }

  /** The panels rendered for a session, in page order: none without a document; otherwise
      all five, each given the selected model and only the first two given the document. */
  function Mounts(fileId: Option<string>, selectedModel: string): (r: seq<Mount>)
    ensures Truthy(fileId) <==> r != []
    ensures r != [] ==> |r| == 5
    ensures forall i :: 0 <= i < |r| ==> r[i].modelName == selectedModel
    ensures forall i :: 0 <= i < |r| ==> r[i].fileId.Some? ==> r[i].fileId == fileId
  {
    if !Truthy(fileId) then []
    else [
      Mount(QaSection.QaPanel, fileId, selectedModel),
      Mount(SummarizationSection.SummarizationPanel, fileId, selectedModel),
      Mount(TermExplanationSection.TermPanel, None, selectedModel),
      Mount(MisinformationDetectionSection.MisinformationPanel, None, selectedModel),
      Mount(SentimentAnalysisSection.SentimentPanel, None, selectedModel)]
  }

  /** A panel is handed the document exactly when its form sends it: no panel builds a
      request around a `file_id` it was not given, and none is given one it ignores. */
  lemma DocumentGoesWhereUsed(fileId: Option<string>, selectedModel: string)
    ensures var r := Mounts(fileId, selectedModel);
      forall i :: 0 <= i < |r| ==> (r[i].fileId.Some? <==> UsesFileId(r[i].config))
  {
    var r := Mounts(fileId, selectedModel);
    if r != [] {
      assert QaSection.QaPanel.params[0].source == FileIdProp;
      assert SummarizationSection.SummarizationPanel.params[0].source == FileIdProp;
      assert r[0].fileId.Some? && UsesFileId(r[0].config);
      assert r[1].fileId.Some? && UsesFileId(r[1].config);
    }
  }

  class Session {
    var fileId: Option<string>
    var uploadedFileName: Option<string>
    var selectedModel: string

    /** The selector only ever holds one of its options. */
    ghost predicate Valid()
      reads this
    {
      selectedModel in AvailableModels
    }

    /** The model selector is rendered with the panels, behind the same guard. */
    predicate ModelSelectorShown()
      reads this
    {
      Truthy(fileId)
    }

    /** The hint asking for an upload. */
    predicate UploadHintShown()
      reads this
    {
      !Truthy(fileId)
    }

    function Panels(): seq<Mount>
      reads this
    {
      Mounts(fileId, selectedModel)
    }

    /** No document, no name, the default model: nothing but the uploader and the hint. */
    constructor ()
      ensures Valid()
      ensures fileId == None && uploadedFileName == None && selectedModel == DefaultModel
      ensures Panels() == [] && !ModelSelectorShown() && UploadHintShown()
    {
      fileId := None;
      uploadedFileName := None;
      selectedModel := DefaultModel;
    }

    /** The uploader's success callback, the only writer of the document id and name. */
    method HandlePdfUploadSuccess(newFileId: string, fileName: string)
      requires Valid()
      modifies this
      ensures Valid() && selectedModel == old(selectedModel)
      ensures fileId == Some(newFileId) && uploadedFileName == Some(fileName)
      ensures newFileId != "" ==> |Panels()| == 5 && ModelSelectorShown() && !UploadHintShown()
    {
      fileId := Some(newFileId);
      uploadedFileName := Some(fileName);
    }

    /** The selector's `onChange`, which can only report one of the listed options. */
    method SelectModel(m: string)
      requires Valid() && m in AvailableModels
      modifies this
      ensures Valid() && selectedModel == m
      ensures fileId == old(fileId) && uploadedFileName == old(uploadedFileName)
    {
      selectedModel := m;
    }
  }

  /** The uploader finishing with the session's callback wired in: a successful upload
      records the server's id and name in the session; a failed one leaves the session as
      it was. */
  method CompleteUpload(uploader: PdfUploader.Uploader, session: Session, outcome: PdfUploader.UploadOutcome)
    requires uploader.Valid() && uploader.isLoading && session.Valid()
    modifies uploader, session
    ensures uploader.Valid() && !uploader.isLoading && session.Valid()
    ensures session.selectedModel == old(session.selectedModel)
    ensures outcome.Uploaded? ==>
      session.fileId == Some(outcome.fileId) && session.uploadedFileName == Some(outcome.filename)
    ensures outcome.Rejected? ==>
      session.fileId == old(session.fileId) && session.uploadedFileName == old(session.uploadedFileName)
  {
    var notify := uploader.FinishUpload(outcome);
    if notify.Some? {
      session.HandlePdfUploadSuccess(notify.value.0, notify.value.1);
    }
  }
}
