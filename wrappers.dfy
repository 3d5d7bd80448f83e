/** Option and Result: the model's replacement for Go's nil pointers and (value, error) pairs. */
module Wrappers {

  /** `None` stands for a nil pointer or an absent value. */
  datatype Option<+T> = None | Some(value: T) {
    function GetOr(default: T): (r: T)
      ensures Some? ==> r == value
      ensures None? ==> r == default
    {
      match this
      case Some(v) => v
      case None => default
    }
  }

  /** A Go `(value, error)` result where exactly one side is meaningful. */
  datatype Result<+R, +E> = Ok(value: R) | Err(error: E)
}
