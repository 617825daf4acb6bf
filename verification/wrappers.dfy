/** Option and Result, the failure-compatible wrappers the rest of the model returns. */
module Wrappers {

  /** A value that may be missing: `None` stands for a C# `null`. */
  datatype Option<+T> = None | Some(value: T) {

    /** The value, or `default` when it is missing (C#'s `??`). */
    function GetOr(default: T): T
    {
      match this
      case Some(v) => v
      case None => default
    }
  }

  /** The outcome of an operation whose guards may throw: `Failure` carries the exception kind. */
  datatype Result<+T, +E> = Success(value: T) | Failure(error: E) {

    predicate IsFailure()
    {
      Failure?
    }

    function PropagateFailure<U>(): Result<U, E>
      requires Failure?
    {
      Failure(error)
    }

    function Extract(): T
      requires Success?
    {
      value
    }
  }
}
