/** The process form: a list of inputs or outputs is edited as text with one item per line,
    and turned back into a list, without the empty lines, when the form is submitted. */
module ProcessForm {
  import opened Wrappers
  import opened Seqs
  import opened Text

  /** What `initialData.inputs` may hold: an array of strings, or something that is not an
      array at all. */
  datatype ListValue = ArrayOf(items: seq<string>) | NotArray

  /** The text shown for an initial list: an array joined by newlines, anything else as the
      empty string. */
  function ShowList(v: Option<ListValue>): (r: string)
    ensures v.None? || v == Some(NotArray) ==> r == ""
  {
    if v.Some? && v.value.ArrayOf? then Join(v.value.items, "\n") else ""
  }

  predicate IsNonEmpty(s: string)
  {
    s != ""
  }

  /** `text ? text.split('\n').filter(Boolean) : undefined`. */
  function ParseList(text: string): (r: Option<seq<string>>)
    ensures r.None? <==> text == ""
    ensures r.Some? ==> forall i :: 0 <= i < |r.value| ==> r.value[i] != "" && '\n' !in r.value[i]
  {
    if text == "" then None else Some(Filter(Split(text, '\n'), IsNonEmpty))
  }

  /** Items that are non-empty and free of newlines come back as they were shown, and an empty
      list comes back as absent. */
  lemma RoundTrip(items: seq<string>)
    requires forall i :: 0 <= i < |items| ==> items[i] != "" && '\n' !in items[i]
    ensures ParseList(ShowList(Some(ArrayOf(items)))) == if items == [] then None else Some(items)
  {
    if items != [] {
      SplitJoin(items, '\n');
      AllKept(items, IsNonEmpty);
    }
  }

  /** Text made only of newlines is not empty, so it gives an empty list rather than absent. */
  lemma BlankLinesGiveEmptyList(n: nat)
    requires n > 0
    ensures ParseList(seq(n, _ => '\n')) == Some([])
  {
    var text := seq(n, _ => '\n');
    var parts := Split(text, '\n');
    forall i | 0 <= i < |parts| ensures !IsNonEmpty(parts[i]) {
      EveryPartEmpty(text, i);
    }
    NoneKept(parts, IsNonEmpty);
  }

  /** Splitting a string of separators gives only empty parts. */
  lemma {:induction false} EveryPartEmpty(text: string, i: nat)
    requires forall k :: 0 <= k < |text| ==> text[k] == '\n'
    requires i < |Split(text, '\n')|
    ensures Split(text, '\n')[i] == ""
  {
    if text != [] {
      var rest := Split(text[1..], '\n');
      assert Split(text, '\n') == [""] + rest;
      if i > 0 {
        EveryPartEmpty(text[1..], i - 1);
      }
    }
  }

  /** Parsing what a parse produced, shown again, changes nothing: showing and parsing reach a
      fixed point after one round. */
  lemma ParseShowParse(text: string)
    requires ParseList(text).Some? && ParseList(text).value != []
    ensures ParseList(ShowList(Some(ArrayOf(ParseList(text).value)))) == ParseList(text)
  {
    RoundTrip(ParseList(text).value);
  }

  /** The data handed to `onSubmit`. */
  datatype ProcessSubmission = ProcessSubmission(
    name: string,
    description: Option<string>,
    inputs: Option<seq<string>>,
    outputs: Option<seq<string>>)

  /** `initialData`, each field optional. */
  datatype ProcessInitialData = ProcessInitialData(
    name: Option<string>,
    description: Option<string>,
    inputs: Option<ListValue>,
    outputs: Option<ListValue>)

  /** The form's state. */
  class ProcessFormState {
    var name: string
    var description: string
    var inputs: string
    var outputs: string
    var loading: bool

    constructor(initial: Option<ProcessInitialData>)
      ensures name == (if initial.Some? then OrElse(initial.value.name, "") else "")
      ensures description == (if initial.Some? then OrElse(initial.value.description, "") else "")
      ensures inputs == ShowList(if initial.Some? then initial.value.inputs else None)
      ensures outputs == ShowList(if initial.Some? then initial.value.outputs else None)
      ensures !loading
    {
      name := if initial.Some? then OrElse(initial.value.name, "") else "";
      description := if initial.Some? then OrElse(initial.value.description, "") else "";
      inputs := ShowList(if initial.Some? then initial.value.inputs else None);
      outputs := ShowList(if initial.Some? then initial.value.outputs else None);
      loading := false;
    }

    /** `handleSubmit`: the name as it stands, an empty description as absent, and both lists
        parsed; loading is off at the end whether or not `onSubmit` fails. */
    method HandleSubmit() returns (sent: ProcessSubmission)
      modifies this
      ensures sent == ProcessSubmission(name, OrUndefined(description), ParseList(inputs), ParseList(outputs))
      ensures !loading
      ensures name == old(name) && description == old(description)
      ensures inputs == old(inputs) && outputs == old(outputs)
    {
      loading := true;
      sent := ProcessSubmission(name, OrUndefined(description), ParseList(inputs), ParseList(outputs));
      loading := false;
    }
  }
}
