/** Failure-compatible wrappers shared by every module of the model. */
module Wrappers {

  datatype Option<+T> = None | Some(value: T)

  /** The outcome of an operation that the source either completes or aborts with a thrown error. */
  datatype Result<+T, +E> = Success(value: T) | Failure(error: E)

  /** `s || undefined` for a string: the empty string becomes absent. */
  function OrUndefined(s: string): (r: Option<string>)
    ensures r.None? <==> s == ""
    ensures r.Some? ==> r.value == s
  {
    if s == "" then None else Some(s)
  }

  /** `x || fallback` for an optional string: absent or empty gives the fallback. */
  function OrElse(o: Option<string>, fallback: string): (r: string)
    ensures r == fallback || (o.Some? && r == o.value && r != "")
  {
    if o.Some? && o.value != "" then o.value else fallback
  }
}
