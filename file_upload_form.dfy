/**
 * components/upload/FileUploadForm.tsx: the stand-alone upload form. A file
 * is picked or dropped, a name and a type are entered, and a submit uploads
 * the three fields and then navigates to the result page or alerts.
 */
module FileUploadForm {
  import opened Types
  import Api

  const UploadAlert: string := "Upload failed"

  /** What the form does to its surroundings once an upload settles. */
  datatype Effect = Navigate(path: string) | Alert(text: string)

  /** The request a submit sends, if the guard lets it through. */
  function SubmitRequest(file: Option<FileInfo>, docName: string, docType: string): (r: Option<Api.UploadForm>)
    ensures r.Some? <==> file.Some? && docName != ""
    ensures r.Some? ==> r.value.file == file.value && r.value.docName == docName && r.value.docType == docType
  {
    if file.None? || docName == "" then None else Some(Api.UploadForm(file.value, docName, docType))
  }

  /** Where the settled upload leads: the result page of the returned uid,
      or an alert whatever the error was. */
  function SettledEffect(outcome: Outcome<string>): (e: Effect)
    ensures e.Navigate? <==> outcome.Success?
    ensures outcome.Success? ==> e.path == "/result/" + outcome.payload
    ensures outcome.Failure? ==> e.text == UploadAlert
  {
    match outcome
    case Success(uid) => Navigate("/result/" + uid)
    case Failure(_) => Alert(UploadAlert)
  }

  /** The submit button is disabled while loading or while the guard of
      `handleSubmit` would stop it. */
  function SubmitDisabled(loading: bool, file: Option<FileInfo>, docName: string): (d: bool)
    ensures !d ==> SubmitRequest(file, docName, "pdf").Some?
    ensures d <==> loading || SubmitRequest(file, docName, "pdf").None?
  {
    loading || file.None? || docName == ""
  }

  /** The picked file of the input: the first of its files, if any. */
  function FirstFile(files: seq<FileInfo>): (r: Option<FileInfo>)
    ensures r.Some? <==> |files| > 0
    ensures r.Some? ==> r.value == files[0]
  {
    if |files| > 0 then Some(files[0]) else None
  }

  class Form {
    var file: Option<FileInfo>
    var docName: string
    var docType: string
    var loading: bool
    var dragOver: bool

    constructor ()
      ensures file == None && docName == "" && docType == "pdf" && !loading && !dragOver
    {
      file := None;
      docName := "";
      docType := "pdf";
      loading := false;
      dragOver := false;
    }

    /** `handleSubmit` up to its `await`: a submit without a file or a name
        does nothing at all; otherwise loading starts and the form's three
        fields are sent. */
    method BeginSubmit() returns (request: Option<Api.UploadForm>)
      modifies this
      ensures request == SubmitRequest(old(file), old(docName), old(docType))
      ensures request.None? ==> unchanged(this)
      ensures request.Some? ==> loading
      ensures file == old(file) && docName == old(docName) && docType == old(docType) && dragOver == old(dragOver)
    {
      if file.None? || docName == "" {
        return None;
      }
      loading := true;
      request := Some(Api.UploadForm(file.value, docName, docType));
    }

    /** The continuation of `handleSubmit`: navigate or alert, and in either
        case loading ends. */
    method CompleteSubmit(outcome: Outcome<string>) returns (effect: Effect)
      modifies this
      ensures effect == SettledEffect(outcome)
      ensures !loading
      ensures file == old(file) && docName == old(docName) && docType == old(docType) && dragOver == old(dragOver)
    {
      effect := SettledEffect(outcome);
      loading := false;
    }

    /** `handleDrop`: the drag highlight always ends; the first dropped file,
        if there is one, replaces the selection. */
    method Drop(files: seq<FileInfo>)
      modifies this
      ensures !dragOver
      ensures file == (if |files| > 0 then Some(files[0]) else old(file))
      ensures docName == old(docName) && docType == old(docType) && loading == old(loading)
    {
      dragOver := false;
      if |files| > 0 {
        file := Some(files[0]);
      }
    }

    method DragOver()
      modifies this
      ensures dragOver
      ensures file == old(file) && docName == old(docName) && docType == old(docType) && loading == old(loading)
    {
      dragOver := true;
    }

    method DragLeave()
      modifies this
      ensures !dragOver
      ensures file == old(file) && docName == old(docName) && docType == old(docType) && loading == old(loading)
    {
      dragOver := false;
    }

    /** The file input's change: its first file, or none when it has none. */
    method PickFile(files: seq<FileInfo>)
      modifies this
      ensures file == FirstFile(files)
      ensures docName == old(docName) && docType == old(docType) && loading == old(loading) && dragOver == old(dragOver)
    {
      file := FirstFile(files);
    }

    /** "Choose different file". */
    method ClearFile()
      modifies this
      ensures file == None
      ensures docName == old(docName) && docType == old(docType) && loading == old(loading) && dragOver == old(dragOver)
    {
      file := None;
    }

    method SetDocName(value: string)
      modifies this
      ensures docName == value
      ensures file == old(file) && docType == old(docType) && loading == old(loading) && dragOver == old(dragOver)
    {
      docName := value;
    }

    method SetDocType(value: string)
      modifies this
      ensures docType == value
      ensures file == old(file) && docName == old(docName) && loading == old(loading) && dragOver == old(dragOver)
    {
      docType := value;
    }
  }

  /** A complete submit from an enabled button: loading is on while the
      upload is in flight and off once it has settled. */
  method SubmitOnce(form: Form, outcome: Outcome<string>) returns (request: Option<Api.UploadForm>, effect: Effect)
    requires !form.loading && form.file.Some? && form.docName != ""
    modifies form
    ensures request.Some? && request.value.file == old(form.file).value && request.value.docName == old(form.docName)
    ensures effect == SettledEffect(outcome)
    ensures !form.loading
  {
    request := form.BeginSubmit();
    assert form.loading;
    effect := form.CompleteSubmit(outcome);
  }
}
