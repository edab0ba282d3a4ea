/** The upload component: a file picker restricted to PDFs, an upload button, a loading flag
    and an error slot. A successful upload is reported to its owner through a callback. */
module PdfUploader {
  import opened Optional
  import opened Requests

  const NoFileSelected: string := "Please select a PDF file first."
  const UploadFailedDefault: string :=
    "Failed to upload PDF. Ensure the backend is running and CORS is configured."

  /** A picked file: its name and its MIME type, as the browser reports them. */
  datatype File = File(name: string, mimeType: string)

  /** The multipart POST: the target and the single `file` part. */
  datatype UploadRequest = UploadRequest(url: string, file: File)

  /** What the server answered: the stored id and the name, or an error with its detail. */
  datatype UploadOutcome = Uploaded(fileId: string, filename: string) | Rejected(detail: Option<string>)

  /** The picker's file list, or its absence; an empty list yields no file. */
  function FirstFile(files: Option<seq<File>>): (f: Option<File>)
    ensures f.Some? <==> files.Some? && files.value != []
    ensures f.Some? ==> f.value == files.value[0]
  {
    if files.Some? && files.value != [] then Some(files.value[0]) else None
  }

  /** The button's `disabled` expression, negated. */
  predicate UploadEnabled(isLoading: bool, selectedFile: Option<File>) {
    !isLoading && selectedFile.Some?
  }

  class Uploader {
    var selectedFile: Option<File>
    var isLoading: bool
    var error: Option<string>

    /** While uploading there is a selection and no error. */
    ghost predicate Valid()
      reads this
    {
      isLoading ==> selectedFile.Some? && error == None
    }

    predicate CanUpload()
      reads this
    {
      UploadEnabled(isLoading, selectedFile)
    }

    /** Nothing is selected at first, so the button starts disabled. */
    constructor ()
      ensures Valid() && !CanUpload()
      ensures selectedFile == None && !isLoading && error == None
    {
      selectedFile := None;
      isLoading := false;
      error := None;
    }

    /** The picker's `onChange`: the first picked file replaces the selection (none when the
        list is missing or empty) and any earlier error is cleared. The picker is disabled
        while uploading. */
    method FileChange(files: Option<seq<File>>)
      requires Valid() && !isLoading
      modifies this
      ensures Valid() && !isLoading
      ensures selectedFile == FirstFile(files) && error == None
      ensures CanUpload() <==> files.Some? && files.value != []
    {
      selectedFile := FirstFile(files);
      error := None;
    }

    /** The click handler up to its `await`: with no selection only the error is set;
        otherwise loading starts, the error clears, and the selected file is posted to
        `/upload_pdf/`. The button is disabled while uploading. */
    method StartUpload() returns (req: Option<UploadRequest>)
      requires Valid() && !isLoading
      modifies this
      ensures Valid() && selectedFile == old(selectedFile)
      ensures old(selectedFile) == None ==>
        req == None && error == Some(NoFileSelected) && !isLoading
      ensures old(selectedFile).Some? ==>
        && req == Some(UploadRequest(ApiBaseUrl + "/upload_pdf/", old(selectedFile).value))
        && isLoading && error == None
    {
      if selectedFile == None {
        error := Some(NoFileSelected);
        return None;
      }
      isLoading := true;
      error := None;
      req := Some(UploadRequest(ApiBaseUrl + "/upload_pdf/", selectedFile.value));
    }

    /** The rest of the handler. On success the callback receives the server's id and name,
        once, and the selection is cleared; on failure the error takes the detail or the
        default, the callback is not called and the selection stays. Loading ends either
        way. */
    method FinishUpload(outcome: UploadOutcome) returns (notify: Option<(string, string)>)
      requires Valid() && isLoading
      modifies this
      ensures Valid() && !isLoading
      ensures outcome.Uploaded? ==>
        && notify == Some((outcome.fileId, outcome.filename))
        && selectedFile == None && error == None
      ensures outcome.Rejected? ==>
        && notify == None
        && selectedFile == old(selectedFile)
        && error == Some(FailureText(outcome.detail, UploadFailedDefault))
    {
      match outcome {
        case Uploaded(fileId, filename) =>
          notify := Some((fileId, filename));
          selectedFile := None;
        case Rejected(detail) =>
          notify := None;
          error := Some(FailureText(detail, UploadFailedDefault));
      }
      isLoading := false;
    }
  }
}
