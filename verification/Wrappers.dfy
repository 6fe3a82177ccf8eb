/** Option and Result, used throughout for nullable columns and raised errors, and
    statements that may raise. */
module Wrappers {

  datatype Option<+T> = None | Some(value: T)

  datatype Result<+R, +E> = Ok(value: R) | Err(error: E)

  /** A statement raises, having taken effect or not. */
  datatype Fault = Fault(text: string, landed: bool)

  predicate Takes(f: Option<Fault>) {
    f.Some? ==> f.value.landed
  }

  /** The state after a statement that may raise. */
  function Attempt<T>(f: Option<Fault>, before: T, after: T): T {
    if Takes(f) then after else before
  }
}
