/** Option type for values the source represents with `null`, `undefined` or an optional field. */
module Wrappers {

  datatype Option<+T> = None | Some(value: T) {

    /** Returns the value in Some, or `default` when None. */
    function GetOr(default: T): T {
      match this
      case Some(v) => v
      case None => default
    }
  }
}

/** What the pages report to the user: toast notifications. */
module Feedback {

  datatype Notice = Success(message: string) | Error(message: string) | Info(message: string)
}
