/** Helper datatypes shared by the other modules. */
module Wrappers {

  /** A value that may be absent: JavaScript's `undefined` on the model's side. */
  datatype Option<+T> = None | Some(value: T) {
    function GetOr(default: T): T {
      match this
      case Some(v) => v
      case None => default
    }
  }

  /** The result of an operation that either completes or raises an error. */
  datatype Outcome = Pass | Fail(message: string)
}
