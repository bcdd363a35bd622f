/** Option, Result and Outcome: the model's stand-ins for JavaScript's `undefined`/`null`,
    for promises that resolve or reject, and for thrown errors. */
module Wrappers {

  datatype Option<+T> = None | Some(value: T) {
    function GetOr(default: T): T {
      match this
      case Some(v) => v
      case None => default
    }
  }

  datatype Result<+T, +E> = Success(value: T) | Failure(error: E)

  /** A promise of `void`: it either resolves or rejects with an error. */
  datatype Outcome<+E> = Pass | Fail(error: E)
}
