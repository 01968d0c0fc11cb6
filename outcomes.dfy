/**
 * Failure-carrying values used throughout the model: an absent-or-present
 * value (a JavaScript `undefined` or a Rust `Option`), a value-or-error
 * (a thrown error or a Rust `Result`), and a pass-or-fail check (a
 * validator that returns nothing or throws).
 */
module Outcomes {

  datatype Option<+T> = None | Some(value: T) {
    /** The value, or `default` when absent (JavaScript `??`, Rust `unwrap_or`). */
    function GetOr(default: T): T {
      match this
      case Some(v) => v
      case None => default
    }
  }

  datatype Result<+T, +E> = Success(value: T) | Failure(error: E)

  datatype Outcome<+E> = Pass | Fail(error: E)

  /** JavaScript truthiness of an optional string: present and not empty. */
  predicate Truthy(s: Option<string>) {
    s.Some? && s.value != ""
  }
}
