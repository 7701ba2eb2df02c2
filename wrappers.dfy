/** The optional value used for JavaScript's `undefined` / `null` results
    and for the outcome of library calls that can fail (JSON.parse, new URL),
    and the outcome of a JavaScript computation that may throw. */
module Wrappers {

  datatype Option<+T> = None | Some(value: T) {

    /** The value, or `default` when there is none. */
    function GetOr(default: T): T {
      match this
      case Some(v) => v
      case None => default
    }
  }

  /** What a JavaScript computation gives: the value it returns, or the
      text `${e}` of the error it throws. */
  datatype Attempt<+T> = Returned(value: T) | Threw(error: string)
}
