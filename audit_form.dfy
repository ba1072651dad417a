/** The internal-audit form: it accepts or rejects a chosen report file by the evidence form's
    rule, and hands its fields to the `onSubmit` callback without checks of its own. */
module AuditForm {
  import opened Wrappers
  import opened Text
  import opened EvidenceForm

  const SaveFailedError := "Failed to save audit. Please try again."

  /** The data handed to `onSubmit`. */
  datatype AuditSubmission = AuditSubmission(
    auditDate: string,
    scope: string,
    findingsSummary: string,
    file: Option<FileInfo>)

  /** `initialData`, each field optional. */
  datatype AuditInitialData = AuditInitialData(
    auditDate: Option<string>,
    scope: Option<string>,
    findingsSummary: Option<string>)

  /** `iso.split('T')[0]`: the calendar-date part of an ISO 8601 timestamp. */
  function DatePart(iso: string): (r: string)
    ensures 'T' !in r
    ensures r <= iso
  {
    var parts := Split(iso, 'T');
    JoinSplit(iso, 'T');
    assert iso == Join(parts, "T");
    JoinStartsWithFirst(parts, "T");
    parts[0]
  }

  /** A join begins with its first part. */
  lemma JoinStartsWithFirst(parts: seq<string>, sep: string)
    requires parts != []
    ensures parts[0] <= Join(parts, sep)
  {
  }

  /** The date part of a timestamp `date + "T" + time`, with `date` free of `T`, is `date`. */
  lemma DatePartOfTimestamp(date: string, time: string)
    requires 'T' !in date
    ensures DatePart(date + "T" + time) == date
  {
    SplitCons(date, time, 'T');
    assert date + "T" + time == date + ['T'] + time;
  }

  /** The form's state. */
  class AuditFormState {
    var auditDate: string
    var scope: string
    var findingsSummary: string
    var file: Option<FileInfo>
    var loading: bool
    var fileError: string

    /** The stored file, when there is one, passed the file rule. */
    predicate Valid()
      reads this
    {
      file.Some? ==> Acceptable(file.value)
    }

    /** The initial state. The audit date is the date part of the given date when there is
        one, and of `nowIso`, the current instant in ISO form, otherwise; the given date is
        taken to be in ISO form already. */
    constructor(initial: Option<AuditInitialData>, nowIso: string)
      ensures Valid()
      ensures auditDate ==
        DatePart(if initial.Some? then OrElse(initial.value.auditDate, nowIso) else nowIso)
      ensures scope == (if initial.Some? then OrElse(initial.value.scope, "") else "")
      ensures findingsSummary == (if initial.Some? then OrElse(initial.value.findingsSummary, "") else "")
      ensures file == None && !loading && fileError == ""
    {
      auditDate := DatePart(if initial.Some? then OrElse(initial.value.auditDate, nowIso) else nowIso);
      scope := if initial.Some? then OrElse(initial.value.scope, "") else "";
      findingsSummary := if initial.Some? then OrElse(initial.value.findingsSummary, "") else "";
      file := None;
      loading := false;
      fileError := "";
    }

    /** `handleFileChange`: the evidence form's rule, without the title. A refused file sets the
        error and keeps the stored file; an accepted one is stored and clears the error. */
    method HandleFileChange(selected: Option<FileInfo>)
      requires Valid()
      modifies this
      ensures Valid()
      ensures selected.None? ==> unchanged(this)
      ensures selected.Some? && !Acceptable(selected.value) ==>
        fileError == CheckFile(selected.value).value && file == old(file)
      ensures selected.Some? && Acceptable(selected.value) ==> file == selected && fileError == ""
      ensures auditDate == old(auditDate) && scope == old(scope)
      ensures findingsSummary == old(findingsSummary) && loading == old(loading)
    {
      if selected.Some? {
        var error := CheckFile(selected.value);
        if error.Some? {
          fileError := error.value;
          return;
        }
        file := selected;
        fileError := "";
      }
    }

    /** `handleSubmit`, with the outcome of the `onSubmit` callback as `submitFails`: the
        fields are always sent as they stand; a failing callback sets the fixed error, a
        succeeding one leaves the error cleared, and loading is off at the end. */
    method HandleSubmit(submitFails: bool) returns (sent: AuditSubmission)
      requires Valid()
      modifies this
      ensures Valid()
      ensures sent == AuditSubmission(auditDate, scope, findingsSummary, file)
      ensures fileError == (if submitFails then SaveFailedError else "")
      ensures !loading
      ensures auditDate == old(auditDate) && scope == old(scope)
      ensures findingsSummary == old(findingsSummary) && file == old(file)
    {
      loading := true;
      fileError := "";
      sent := AuditSubmission(auditDate, scope, findingsSummary, file);
      if submitFails {
        fileError := SaveFailedError;
      }
      loading := false;
    }
  }
}
