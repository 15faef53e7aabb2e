/** Failure-carrying values: Java's `null` and thrown exceptions are modelled by these. */
module Wrappers {

  /** A value that may be absent (a Java reference that may be `null`). */
  datatype Option<+T> = None | Some(value: T)

  /** A computation that yields a value or fails with an error. */
  datatype Result<+T, +E> = Success(value: T) | Failure(error: E)

  /** A computation that yields nothing, or fails with an error (a `void` method that may throw). */
  datatype Outcome<+E> = Pass | Fail(error: E)

  /** The elements of an optional value, as a sequence of length at most one. */
  function OptionToSeq<T>(o: Option<T>): (s: seq<T>)
    ensures |s| <= 1
  {
    match o
    case None => []
    case Some(v) => [v]
  }
}
