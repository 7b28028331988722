/**
 * app/upload/page.tsx: the upload page's form. A dropped file moves the form
 * from idle to configuring with a name pre-filled from the file name; a
 * submit is validated on the client (size, then type) and then uploaded,
 * after which the form reports success or an error.
 */
module UploadPage {
  import opened Types
  import opened Strings
  import Api

  /* ---------- Name pre-fill: `name.replace(/\.[^/.]+$/, "")` ---------- */

  /** A character the class `[^/.]` matches. */
  predicate ExtensionChar(c: char) {
    c != '/' && c != '.'
  }

  /** The regular expression matches at `i`: a '.', then one or more
      characters other than '/' and '.', up to the end of the name. */
  predicate ExtensionAt(s: string, i: nat) {
    i + 1 < |s| && s[i] == '.' && forall k :: i < k < |s| ==> ExtensionChar(s[k])
  }

  /** The number of trailing characters of `s` that `[^/.]` matches. */
  function TrailingRun(s: string): (n: nat)
    ensures n <= |s|
    ensures forall k :: |s| - n <= k < |s| ==> ExtensionChar(s[k])
    ensures n < |s| ==> !ExtensionChar(s[|s| - n - 1])
  {
    if s == [] || !ExtensionChar(s[|s| - 1]) then 0
    else
      var n := TrailingRun(s[..|s| - 1]);
      assert forall k :: |s| - 1 - n <= k < |s| - 1 ==> s[k] == s[..|s| - 1][k];
      n + 1
  }

  /** The regular expression matches in at most one place. */
  lemma ExtensionUnique(s: string, i: nat, j: nat)
    requires ExtensionAt(s, i) && ExtensionAt(s, j)
    ensures i == j
  {
  }

  /** The pre-filled document name: the file name with its extension cut. */
  function StripExtension(name: string): (r: string)
    ensures IsPrefix(r, name)
    ensures r == name ==> forall i: nat :: !ExtensionAt(name, i)
    ensures r != name ==> ExtensionAt(name, |r|)
  {
    var n := TrailingRun(name);
    if 0 < n < |name| && name[|name| - n - 1] == '.' then
      name[..|name| - n - 1]
    else
      assert forall i: nat :: !ExtensionAt(name, i);
      name
  }

  /** The regular expression matched exactly when the name was cut, and it
      was cut at the match. */
  lemma StripCutsAtMatch(name: string, i: nat)
    requires ExtensionAt(name, i)
    ensures StripExtension(name) == name[..i]
  {
    var r := StripExtension(name);
    ExtensionUnique(name, i, |r|);
  }

  lemma StripExamples()
    ensures StripExtension("a.b.pdf") == "a.b"
    ensures StripExtension("noext") == "noext"
    ensures StripExtension(".env") == ""
    ensures StripExtension("file.") == "file."
    ensures StripExtension("v1.2/notes") == "v1.2/notes"
  {
    StripCutsAtMatch("a.b.pdf", 3);
    StripCutsAtMatch(".env", 0);
    var s := "v1.2/notes";
    forall i: nat ensures !ExtensionAt(s, i) {
      if i == 2 {
        assert !ExtensionChar(s[4]);
      }
    }
  }

  /* ---------- Client-side validation ---------- */

  const MaxUploadBytes: nat := 10 * 1024 * 1024
  const TooLarge: string := "File is too large. Max 10MB allowed."
  const Unsupported: string := "Unsupported file type. Only PDF, JPG, and PNG are allowed."
  const UploadFailed: string := "Upload failed. Please try again."
  const AllowedTypes: seq<string> := ["application/pdf", "image/jpeg", "image/png", "image/jpg"]

  /** What `handleAnalysis` decides before its first `await`. */
  datatype Validation = Skip | Reject(message: string) | Accept(form: Api.UploadForm)

  function Validate(file: Option<FileInfo>, docName: string, docType: string): (v: Validation)
    ensures v.Skip? <==> file.None? || docName == ""
    ensures v.Accept? <==> file.Some? && docName != "" && file.value.size <= MaxUploadBytes && file.value.mimeType in AllowedTypes
    ensures v.Accept? ==> v.form == Api.UploadForm(file.value, docName, docType)
    ensures v.Reject? ==> v.message in {TooLarge, Unsupported}
  {
    if file.None? || docName == "" then Skip
    else if file.value.size > MaxUploadBytes then Reject(TooLarge)
    else if file.value.mimeType !in AllowedTypes then Reject(Unsupported)
    else Accept(Api.UploadForm(file.value, docName, docType))
  }

  /** The size is checked before the type: an oversized file is reported as
      too large whatever its type. */
  lemma SizeCheckedFirst(f: FileInfo, docName: string, docType: string)
    requires docName != "" && f.size > MaxUploadBytes
    ensures Validate(Some(f), docName, docType) == Reject(TooLarge)
  {
  }

  lemma TypeRejected(f: FileInfo, docName: string, docType: string)
    requires docName != "" && f.size <= MaxUploadBytes && f.mimeType !in AllowedTypes
    ensures Validate(Some(f), docName, docType) == Reject(Unsupported)
  {
  }

  /** The limit is inclusive: exactly 10 MiB is accepted, one byte more is not. */
  lemma LimitInclusive(name: string, mimeType: string, docName: string)
    requires docName != "" && mimeType in AllowedTypes
    ensures Validate(Some(FileInfo(name, MaxUploadBytes, mimeType)), docName, "pdf").Accept?
    ensures Validate(Some(FileInfo(name, MaxUploadBytes + 1, mimeType)), docName, "pdf") == Reject(TooLarge)
  {
  }

  /* ---------- The form's state ---------- */

  datatype Status = Idle | Configuring | Uploading | Succeeded | Errored

  class UploadFlow {
    var file: Option<FileInfo>
    var docName: string
    var docType: string
    var status: Status
    var progress: nat
    var error: Option<string>
    /** The counter `prog` of every progress interval still set, oldest
        first. Each submit sets one; it is cleared only by its own tenth
        tick, never when the upload settles. */
    var intervals: seq<nat>

    /** A file is selected exactly when the form is past idle, and the type
        select of this page never changes from "pdf". A live interval's
        counter is a multiple of 10 below 100, so every interval stops
        after at most ten ticks and the bar never passes 100. */
    predicate Valid()
      reads this
    {
      && (file.None? <==> status == Idle)
      && docType == "pdf"
      && (status == Idle ==> docName == "")
      && progress <= 100
      && (forall i :: 0 <= i < |intervals| ==> intervals[i] < 100 && intervals[i] % 10 == 0)
    }

    constructor ()
      ensures Valid()
      ensures file == None && docName == "" && docType == "pdf"
      ensures status == Idle && progress == 0 && error == None && intervals == []
    {
      file := None;
      docName := "";
      docType := "pdf";
      status := Idle;
      progress := 0;
      error := None;
      intervals := [];
    }

    /** The dropzone does not react while the form is past idle. */
    predicate DropzoneDisabled()
      reads this
    {
      status != Idle
    }

    predicate NameInputDisabled()
      reads this
    {
      status == Uploading || status == Succeeded
    }

    /** The progress bar renders only while uploading or after success. */
    predicate BarShown()
      reads this
    {
      status == Uploading || status == Succeeded
    }

    predicate RemoveDisabled()
      reads this
    {
      status == Uploading
    }

    /** The analyse button is rendered only before an upload starts or after
        one failed, and is disabled while the name is empty. */
    predicate SubmitShown()
      reads this
    {
      status != Uploading && status != Succeeded
    }

    predicate SubmitDisabled()
      reads this
    {
      docName == ""
    }

    /** `onDrop`: the first accepted file is selected and names the document. */
    method OnDrop(accepted: seq<FileInfo>)
      modifies this
      ensures |accepted| == 0 ==> unchanged(this)
      ensures |accepted| > 0 ==>
        && file == Some(accepted[0])
        && docName == StripExtension(accepted[0].name)
        && status == Configuring
        && docType == old(docType) && progress == old(progress) && error == old(error)
        && intervals == old(intervals)
    {
      if |accepted| > 0 {
        var current := accepted[0];
        file := Some(current);
        docName := StripExtension(current.name);
        status := Configuring;
      }
    }

    /** A drop on the dropzone, which calls `onDrop` only while idle. */
    method DropOnZone(accepted: seq<FileInfo>)
      requires Valid()
      modifies this
      ensures Valid()
      ensures old(DropzoneDisabled()) || |accepted| == 0 ==> unchanged(this)
      ensures !old(DropzoneDisabled()) && |accepted| > 0 ==>
        && file == Some(accepted[0])
        && docName == StripExtension(accepted[0].name)
        && status == Configuring
        && progress == old(progress) && error == old(error) && intervals == old(intervals)
    {
      if !DropzoneDisabled() {
        OnDrop(accepted);
      }
    }

    /** Typing in the name input, which is disabled during and after upload. */
    method EditDocName(value: string)
      requires Valid() && file.Some?
      modifies this
      ensures Valid()
      ensures docName == (if old(NameInputDisabled()) then old(docName) else value)
      ensures file == old(file) && status == old(status) && progress == old(progress) && error == old(error)
      ensures intervals == old(intervals)
    {
      if !NameInputDisabled() {
        docName := value;
      }
    }

    /** `removeFile`: back to the initial selection; an error shown stays,
        and so do the intervals still set. */
    method RemoveFile()
      requires Valid()
      modifies this
      ensures Valid()
      ensures file == None && docName == "" && status == Idle && progress == 0
      ensures error == old(error) && docType == old(docType) && intervals == old(intervals)
    {
      file := None;
      docName := "";
      status := Idle;
      progress := 0;
    }

    /** The remove button, which is disabled while uploading. */
    method ClickRemove()
      requires Valid()
      modifies this
      ensures Valid()
      ensures old(RemoveDisabled()) ==> unchanged(this)
      ensures !old(RemoveDisabled()) ==>
        file == None && docName == "" && status == Idle && progress == 0 && error == old(error) && intervals == old(intervals)
    {
      if !RemoveDisabled() {
        RemoveFile();
      }
    }

    /** `handleAnalysis` up to its `await`: the error is cleared, the form is
        validated, and a valid submit sets a new progress interval and
        starts the upload, whose request is returned. */
    method BeginAnalysis() returns (request: Option<Api.UploadForm>)
      requires Valid()
      modifies this
      ensures Valid()
      ensures var v := Validate(old(file), old(docName), old(docType));
        && (v.Accept? <==> request.Some?)
        && (v.Accept? ==> request.value == v.form && status == Uploading && progress == 0 && error == None)
        && (v.Accept? ==> intervals == old(intervals) + [0])
        && (v.Accept? ==> RemoveDisabled() && NameInputDisabled() && !SubmitShown())
        && (v.Skip? ==> status == old(status) && progress == old(progress) && error == None)
        && (v.Reject? ==> status == old(status) && progress == old(progress) && error == Some(v.message))
        && (!v.Accept? ==> intervals == old(intervals))
      ensures file == old(file) && docName == old(docName) && docType == old(docType)
    {
      error := None;
      var v := Validate(file, docName, docType);
      match v
      case Skip =>
        request := None;
      case Reject(message) =>
        error := Some(message);
        request := None;
      case Accept(form) =>
        status := Uploading;
        progress := 0;
        intervals := intervals + [0];
        request := Some(form);
    }

    /** The continuation of `handleAnalysis`, given how `uploadDocument`
        settled (the payload is the `uid` of the response). It returns the
        path the page then navigates to. */
    method CompleteAnalysis(outcome: Outcome<string>) returns (navigateTo: Option<string>)
      requires Valid() && status == Uploading
      modifies this
      ensures Valid()
      ensures outcome.Success? ==>
        status == Succeeded && progress == 100 && navigateTo == Some("/result/" + outcome.payload) && error == old(error)
      ensures outcome.Failure? ==>
        && status == Errored && progress == old(progress) && navigateTo == None
        && error == Some(if outcome.msg != "" then outcome.msg else UploadFailed)
      ensures outcome.Success? ==> !SubmitShown() && NameInputDisabled()
      ensures outcome.Failure? ==> SubmitShown() && !NameInputDisabled()
      ensures !RemoveDisabled()
      ensures file == old(file) && docName == old(docName) && docType == old(docType)
      ensures intervals == old(intervals)
    {
      match outcome
      case Success(uid) =>
        progress := 100;
        status := Succeeded;
        navigateTo := Some("/result/" + uid);
      case Failure(msg) =>
        status := Errored;
        error := Some(if msg != "" then msg else UploadFailed);
        navigateTo := None;
    }

    /** One firing of the `k`-th interval still set, in whatever state the
        page is: its counter grows by 10 and becomes the progress, and the
        tick that reaches 100 clears the interval. Nothing else changes. */
    method Tick(k: nat)
      requires Valid() && k < |intervals|
      modifies this
      ensures Valid()
      ensures progress == old(intervals[k]) + 10
      ensures progress >= 100 ==> intervals == old(intervals)[..k] + old(intervals)[k + 1..]
      ensures progress < 100 ==> intervals == old(intervals)[k := progress]
      ensures file == old(file) && docName == old(docName) && docType == old(docType)
      ensures status == old(status) && error == old(error)
    {
      var prog := intervals[k] + 10;
      progress := prog;
      if prog >= 100 {
        intervals := intervals[..k] + intervals[k + 1..];
      } else {
        intervals := intervals[k := prog];
      }
    }
  }

  /** An analyse button that is rendered and enabled never submits into the
      silent `!file || !docName` return: it always validates. */
  lemma EnabledSubmitValidates(page: UploadFlow)
    requires page.Valid() && page.SubmitShown() && !page.SubmitDisabled()
    ensures !Validate(page.file, page.docName, page.docType).Skip?
    ensures page.file.Some? && page.status in {Configuring, Errored}
  {
  }

  /** The interval is not cleared when the upload fails: it goes on
      writing the progress value of the errored page, which renders no bar. */
  method FailureKeepsTicking(page: UploadFlow, msg: string)
    requires page.Valid() && page.intervals == []
    requires Validate(page.file, page.docName, page.docType).Accept?
    modifies page
    ensures page.status == Errored && page.progress == 10 && page.intervals == [10]
    ensures !page.BarShown()
  {
    var request := page.BeginAnalysis();
    var navigateTo := page.CompleteAnalysis(Failure(msg));
    page.Tick(0);
  }

  /** The stale interval shows on a retry: the retry resets the bar to 0
      and sets a second interval, and the first one's next tick puts the
      visible bar at 20. */
  method RetryShowsStaleTick(page: UploadFlow, msg: string)
    requires page.Valid() && page.intervals == []
    requires Validate(page.file, page.docName, page.docType).Accept?
    modifies page
    ensures page.status == Uploading && page.BarShown()
    ensures page.progress == 20 && page.intervals == [20, 0]
  {
    var request := page.BeginAnalysis();
    var navigateTo := page.CompleteAnalysis(Failure(msg));
    page.Tick(0);
    var retry := page.BeginAnalysis();
    assert page.progress == 0 && page.intervals == [10, 0];
    page.Tick(0);
  }

  /** Nor when it succeeds: after a fast upload the rendered bar drops from
      100 back to the interval's count. */
  method SuccessFallsBack(page: UploadFlow, uid: string)
    requires page.Valid() && page.intervals == []
    requires Validate(page.file, page.docName, page.docType).Accept?
    modifies page
    ensures page.status == Succeeded && page.progress == 10 && page.intervals == [10]
    ensures page.BarShown()
  {
    var request := page.BeginAnalysis();
    var navigateTo := page.CompleteAnalysis(Success(uid));
    page.Tick(0);
  }

  /** A submit that passes validation leaves the form uploading and, once
      the upload settles, either succeeded with the result path or errored
      with a message; in both cases the selection is kept. */
  method SubmitAndSettle(page: UploadFlow, outcome: Outcome<string>) returns (navigateTo: Option<string>)
    requires page.Valid()
    requires Validate(page.file, page.docName, page.docType).Accept?
    modifies page
    ensures page.Valid()
    ensures page.file == old(page.file) && page.docName == old(page.docName)
    ensures outcome.Success? ==> page.status == Succeeded && navigateTo == Some("/result/" + outcome.payload)
    ensures outcome.Failure? ==> page.status == Errored && navigateTo == None && page.error.Some? && page.error.value != ""
  {
    var request := page.BeginAnalysis();
    navigateTo := page.CompleteAnalysis(outcome);
  }
}
