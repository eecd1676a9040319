/** Value wrappers shared by the models: a nullable value and the result of a
    remote call that either resolves with data or is rejected. */
module Outcomes {

  /** A value that may be absent (`null` / `undefined` in the source). */
  datatype Option<+T> = None | Some(value: T) {
    /** The value, or `default` when absent (the `(old = []) => ...` idiom). */
    function GetOr(default: T): T {
      match this
      case Some(v) => v
      case None => default
    }
  }

  /** How an awaited promise settles: resolved with data, or rejected. */
  datatype Outcome<+T> = Resolved(data: T) | Rejected
}
