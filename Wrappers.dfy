/** Failure-compatible helper datatypes shared by every module of the model. */
module Wrappers {

  /** An optional value: stands for JavaScript's `null`/`undefined` and Java's `null`. */
  datatype Option<+T> = None | Some(value: T) {

    /** The value, or `default` when there is none (JavaScript's `x ?? default`). */
    function GetOr(default: T): T {
      match this
      case Some(v) => v
      case None => default
    }
  }

  /** The outcome of a step that may end with a thrown error carrying a message. */
  datatype Outcome = Done | Thrown(message: string)
}
