/** Option and Result, the two failure-carrying datatypes the rest of the model uses
    for JavaScript's `undefined`/falsy values and for thrown errors. */
module Wrappers {

  datatype Option<+T> = None | Some(value: T) {
    function GetOr(default: T): T {
      match this
      case Some(v) => v
      case None => default
    }
  }

  datatype Result<+R, +E> = Ok(value: R) | Err(error: E)
}
