/** Optional values and pass/fail outcomes, used in place of Java's null and exceptions. */
module Wrappers {

  /** A value that may be absent (a Java reference that may be null). */
  datatype Option<+T> = None | Some(value: T)

  /** The outcome of a step that either completes or throws an error `E`. */
  datatype Outcome<+E> = Pass | Fail(error: E)
}
