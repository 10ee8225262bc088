/** Failure-carrying results and fail-fast validation by an ordered list of guards. */
module Validation {

  datatype Option<T> = None | Some(value: T)

  /** The value a Python function returns, or the exception it raises. */
  datatype Result<T, E> = Ok(value: T) | Err(error: E)

  /** One guard of a fail-fast validator: whether it holds, and what is raised when it does not. */
  datatype Check<E> = Check(holds: bool, error: E)

  /** The error of the first guard that does not hold, if any. */
  function FirstViolation<E>(checks: seq<Check<E>>): (r: Option<E>)
    ensures r.None? <==> forall i :: 0 <= i < |checks| ==> checks[i].holds
    ensures r.Some? ==>
      exists i :: 0 <= i < |checks| && !checks[i].holds && r.value == checks[i].error &&
        forall j :: 0 <= j < i ==> checks[j].holds
  {
    if checks == [] then None
    else if !checks[0].holds then Some(checks[0].error)
    else
      var r := FirstViolation(checks[1..]);
      assert forall i :: 1 <= i < |checks| ==> checks[i] == checks[1..][i - 1];
      r
  }
}
