/** Option and Result, standing for Python's `None` and for raised exceptions. */
module Wrappers {

  /** A value that may be Python's `None`. */
  datatype Option<+T> = None | Some(value: T)

  /** The outcome of a call that either returns a value or raises. */
  datatype Result<+R, +E> = Success(value: R) | Failure(error: E)

  /** Python truthiness of an optional string: `None` and `""` are falsy. */
  predicate Truthy(o: Option<string>)
  {
    o.Some? && o.value != ""
  }

  /** `'{}'.format(o)` for an optional string: `None` renders as "None". */
  function PyStr(o: Option<string>): string
  {
    match o
    case None => "None"
    case Some(s) => s
  }
}
