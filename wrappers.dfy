/** Option and Result values used where the TypeScript code returns `null`/`undefined`
    or throws an `Error` whose message the caller turns into a response. */
module Wrappers {

  /** `None` stands for both `null` and `undefined`. */
  datatype Option<+T> = None | Some(value: T) {
    function GetOr(default: T): T {
      match this
      case Some(v) => v
      case None => default
    }
  }

  /** `Failure(message)` is a thrown `Error` carrying `message`. */
  datatype Result<+T> = Success(value: T) | Failure(error: string)
}
