/** The evidence form: the rule that accepts or rejects a chosen file, the title filled in from
    the file name, and the checks made before the form's data is handed to its `onSubmit`
    callback. The component's state is a class whose fields the handlers update. */
module EvidenceForm {
  import opened Wrappers
  import opened Text

  /** What the browser reports about a chosen file. */
  datatype FileInfo = FileInfo(name: string, mimeType: string, size: nat)

  datatype EvidenceKind = Policy | Procedure | RecordKind | Template | Other

  datatype SourceType = Upload | Link | Generated

  /** The largest accepted file: 10 MiB. */
  const MaxSize: nat := 10 * 1024 * 1024

  const AllowedTypes: seq<string> := [
    "application/pdf",
    "application/msword",
    "application/vnd.openxmlformats-officedocument.wordprocessingml.document",
    "text/plain"
  ]

  const AllowedExtensions: seq<string> := [".pdf", ".doc", ".docx", ".txt"]

  const TypeError := "Please upload a PDF, Word document, or text file"
  const SizeError := "File size must be less than 10MB"
  const MissingFileError := "Please select a file to upload"
  const MissingUrlError := "Please provide an external URL"
  const SubmitFailedError := "Failed to upload evidence. Please try again."

  /** `name.match(/\.(pdf|doc|docx|txt)$/i)`: the name ends in one of the extensions, in any
      mix of upper and lower case. */
  predicate HasAllowedExtension(name: string)
  {
    exists ext :: ext in AllowedExtensions && EndsWith(Lower(name), ext)
  }

  /** The type test: a listed MIME type, or else a listed extension. */
  predicate TypeAllowed(f: FileInfo)
  {
    f.mimeType in AllowedTypes || HasAllowedExtension(f.name)
  }

  /** The file the handlers keep. */
  predicate Acceptable(f: FileInfo)
  {
    TypeAllowed(f) && f.size <= MaxSize
  }

  /** The error `handleFileChange` reports for a chosen file, if any: the type is checked before
      the size. */
  function CheckFile(f: FileInfo): (r: Option<string>)
    ensures r.None? <==> Acceptable(f)
    ensures r == Some(TypeError) <==> !TypeAllowed(f)
    ensures r == Some(SizeError) <==> TypeAllowed(f) && f.size > MaxSize
  {
    if !TypeAllowed(f) then Some(TypeError)
    else if f.size > MaxSize then Some(SizeError)
    else None
  }

  /** A file of a listed type is accepted up to and including 10 485 760 bytes, and refused
      from one byte more. */
  lemma SizeBoundary(f: FileInfo)
    requires TypeAllowed(f)
    ensures CheckFile(f).None? <==> f.size <= 10485760
  {
  }

  /** A listed extension is enough whatever the reported MIME type, in upper case too. */
  lemma UpperCaseExtensionAccepted(base: string, mimeType: string, size: nat)
    requires size <= MaxSize
    ensures CheckFile(FileInfo(base + ".PDF", mimeType, size)).None?
  {
    var name := base + ".PDF";
    var low := Lower(name);
    assert low[|low| - 4..] == ".pdf";
    assert ".pdf" in AllowedExtensions;
    assert EndsWith(low, ".pdf");
  }

  // ---------------------------------------------------------------------------------------
  // The title filled in from the file name
  // ---------------------------------------------------------------------------------------

  /** The index of the last `.` of `s`, or -1 when there is none. */
  function LastDot(s: string): (r: int)
    ensures -1 <= r < |s|
    ensures r >= 0 ==> s[r] == '.' && '.' !in s[r + 1..]
    ensures r < 0 ==> '.' !in s
  {
    if s == [] then -1
    else if s[|s| - 1] == '.' then |s| - 1
    else
      var r := LastDot(s[..|s| - 1]);
      assert r >= 0 ==> s[r + 1..] == s[..|s| - 1][r + 1..] + [s[|s| - 1]];
      assert s == s[..|s| - 1] + [s[|s| - 1]];
      r
  }

  /** An extension as `/\.[^/.]+$/` matches it: a dot followed by at least one character and
      no further dot or slash up to the end. */
  predicate ExtensionAt(name: string, i: int)
  {
    0 <= i < |name| - 1 && name[i] == '.' && '.' !in name[i + 1..] && '/' !in name[i + 1..]
  }

  /** `name.replace(/\.[^/.]+$/, '')`: drops the final extension when there is one. */
  function StripExtension(name: string): (r: string)
    ensures r <= name
    ensures |r| < |name| ==> ExtensionAt(name, |r|)
    ensures r == name ==> forall i :: !ExtensionAt(name, i)
  {
    var d := LastDot(name);
    if 0 <= d < |name| - 1 && '/' !in name[d + 1..] then
      name[..d]
    else
      name
  }

  /** Stripping undoes appending an extension. */
  lemma StripAppendedExtension(base: string, ext: string)
    requires ext != "" && '.' !in ext && '/' !in ext
    ensures StripExtension(base + "." + ext) == base
  {
    var name := base + "." + ext;
    assert name[|base|] == '.';
    assert name[|base| + 1..] == ext;
    assert ExtensionAt(name, |base|);
    assert name[..|base|] == base;
  }

  /** The title a newly chosen file gives the form: the current title when there is one, and
      otherwise the file name without its extension. */
  function AutoTitle(current: string, fileName: string): (r: string)
    ensures current != "" ==> r == current
    ensures current == "" ==> r <= fileName
  {
    if current == "" then StripExtension(fileName) else current
  }

  // ---------------------------------------------------------------------------------------
  // Submission
  // ---------------------------------------------------------------------------------------

  /** The checks `handleSubmit` makes before calling `onSubmit`. */
  function Validate(sourceType: SourceType, file: Option<FileInfo>, externalUrl: string, editing: bool)
    : (r: Option<string>)
    ensures r.Some? ==> r.value == MissingFileError || r.value == MissingUrlError
  {
    if sourceType == Upload && file.None? && !editing then Some(MissingFileError)
    else if sourceType == Link && externalUrl == "" then Some(MissingUrlError)
    else None
  }

  /** A form passes exactly when an upload has a file (or edits existing evidence) and a link
      has a URL; a generated source always passes. */
  lemma ValidateMeaning(sourceType: SourceType, file: Option<FileInfo>, externalUrl: string, editing: bool)
    ensures Validate(sourceType, file, externalUrl, editing).None? <==>
      (sourceType == Upload ==> file.Some? || editing) && (sourceType == Link ==> externalUrl != "")
    ensures sourceType == Generated ==> Validate(sourceType, file, externalUrl, editing).None?
  {
  }

  /** The data handed to `onSubmit`. */
  datatype Submission = Submission(
    title: string,
    kind: EvidenceKind,
    sourceType: SourceType,
    file: Option<FileInfo>,
    externalUrl: Option<string>,
    ownerId: Option<string>)

  /** `initialData`, each field optional. */
  datatype InitialData = InitialData(
    title: Option<string>,
    kind: Option<EvidenceKind>,
    sourceType: Option<SourceType>,
    externalUrl: Option<string>,
    ownerId: Option<string>)

  function TextField(initial: Option<InitialData>, pick: InitialData -> Option<string>): string
  {
    if initial.Some? then OrElse(pick(initial.value), "") else ""
  }

  /** The form's state. */
  class EvidenceFormState {
    var title: string
    var kind: EvidenceKind
    var sourceType: SourceType
    var file: Option<FileInfo>
    var externalUrl: string
    var ownerId: string
    var loading: bool
    var fileError: string
    /** Whether `initialData` was given, that is, whether existing evidence is edited. */
    const editing: bool

    /** The stored file, when there is one, passed the file rule. */
    predicate Valid()
      reads this
    {
      file.Some? ==> Acceptable(file.value)
    }

    constructor(initial: Option<InitialData>)
      ensures Valid()
      ensures editing == initial.Some?
      ensures title == TextField(initial, (d: InitialData) => d.title)
      ensures kind == (if initial.Some? && initial.value.kind.Some? then initial.value.kind.value else Policy)
      ensures sourceType ==
        (if initial.Some? && initial.value.sourceType.Some? then initial.value.sourceType.value else Upload)
      ensures file == None
      ensures externalUrl == TextField(initial, (d: InitialData) => d.externalUrl)
      ensures ownerId == TextField(initial, (d: InitialData) => d.ownerId)
      ensures !loading && fileError == ""
    {
      editing := initial.Some?;
      title := TextField(initial, (d: InitialData) => d.title);
      kind := if initial.Some? && initial.value.kind.Some? then initial.value.kind.value else Policy;
      sourceType :=
        if initial.Some? && initial.value.sourceType.Some? then initial.value.sourceType.value else Upload;
      file := None;
      externalUrl := TextField(initial, (d: InitialData) => d.externalUrl);
      ownerId := TextField(initial, (d: InitialData) => d.ownerId);
      loading := false;
      fileError := "";
    }

    /** `handleFileChange`: nothing happens when no file was chosen; a refused file sets the
        error and leaves the stored file and the title alone; an accepted file is stored, the
        error is cleared and an empty title is filled from the file name. */
    method HandleFileChange(selected: Option<FileInfo>)
      requires Valid()
      modifies this
      ensures Valid()
      ensures selected.None? ==> unchanged(this)
      ensures selected.Some? && !Acceptable(selected.value) ==>
        && fileError == CheckFile(selected.value).value
        && file == old(file) && title == old(title)
      ensures selected.Some? && Acceptable(selected.value) ==>
        && file == selected && fileError == ""
        && title == AutoTitle(old(title), selected.value.name)
      ensures kind == old(kind) && sourceType == old(sourceType) && externalUrl == old(externalUrl)
      ensures ownerId == old(ownerId) && loading == old(loading)
    {
      if selected.Some? {
        var f := selected.value;
        var error := CheckFile(f);
        if error.Some? {
          fileError := error.value;
          return;
        }
        file := selected;
        fileError := "";
        if title == "" {
          title := StripExtension(f.name);
        }
      }
    }

    /** `handleSubmit`, with the outcome of the `onSubmit` callback as `submitFails`: a form
        that fails the checks reports why and sends nothing; otherwise the data is sent with
        empty optional fields left out, and a failing callback sets the generic error. Loading
        is off at the end in every case. */
    method HandleSubmit(submitFails: bool) returns (sent: Option<Submission>)
      requires Valid()
      modifies this
      ensures Valid()
      ensures sent.None? <==> Validate(sourceType, file, externalUrl, editing).Some?
      ensures sent.None? ==> fileError == Validate(sourceType, file, externalUrl, editing).value
      ensures sent.Some? ==>
        && sent.value == Submission(title, kind, sourceType, file, OrUndefined(externalUrl), OrUndefined(ownerId))
        && fileError == (if submitFails then SubmitFailedError else "")
      ensures !loading
      ensures title == old(title) && kind == old(kind) && sourceType == old(sourceType)
      ensures file == old(file) && externalUrl == old(externalUrl) && ownerId == old(ownerId)
    {
      loading := true;
      fileError := "";
      var error := Validate(sourceType, file, externalUrl, editing);
      if error.Some? {
        fileError := error.value;
        loading := false;
        return None;
      }
      sent := Some(Submission(title, kind, sourceType, file, OrUndefined(externalUrl), OrUndefined(ownerId)));
      if submitFails {
        fileError := SubmitFailedError;
      }
      loading := false;
    }
  }
}
