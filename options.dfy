/** Failure-carrying wrappers shared by every module of the model. */
module Options {

  /** A value that may be absent: Python's `None` versus a value. */
  datatype Option<+T> = None | Some(value: T)

  /** The outcome of a computation that may raise: `Err` carries the exception's kind. */
  datatype Result<+T> = Ok(value: T) | Err(error: string)

  /** `x or default` for a Python value whose falsy form is `None` or the empty string. */
  function OrElse(x: Option<string>, default: string): (r: string)
    ensures x.Some? && x.value != "" ==> r == x.value
    ensures (x.None? || x.value == "") ==> r == default
  {
    match x
    case Some(v) => if v != "" then v else default
    case None => default
  }
}
