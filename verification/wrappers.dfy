/** Failure-carrying datatypes shared by every module of the model.
    A JavaScript `undefined`/`null` becomes `None`; a thrown `Error`
    becomes `Err` carrying the error's `message`. */
module Wrappers {

  datatype Option<+T> = None | Some(value: T) {

    /** The value, or `default` when absent. */
    function GetOr(default: T): T {
      match this
      case Some(v) => v
      case None => default
    }
  }

  datatype Result<+R> = Ok(value: R) | Err(error: string)

  /** `e || fallback` on an error message: the empty string is falsy. */
  function MessageOr(e: string, fallback: string): string {
    if e == "" then fallback else e
  }
}
