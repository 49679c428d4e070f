/** Failure-carrying values used in place of Go's (value, error) pairs and nil pointers. */
module Wrappers {

  /** A value that may be absent: Go's nil pointer or a missing map entry. */
  datatype Option<+T> = None | Some(value: T)

  /** A value or an error message: Go's (T, error) return pair. */
  datatype Result<+T> = Ok(value: T) | Err(error: string)

  /** Only an error or nothing: Go's lone error return (nil is Pass). */
  datatype Outcome = Pass | Fail(error: string)

  /**
   * Regrouping a concatenation. Loops that extend a log or a result stated as
   * `old + done` call this rather than leave the regrouping to the solver.
   */
  lemma ConcatAssoc<T>(a: seq<T>, b: seq<T>, c: seq<T>)
    ensures a + (b + c) == a + b + c
  {
  }
}
