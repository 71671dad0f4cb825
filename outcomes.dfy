/** Optional values, success-or-failure results and the exceptions the
    pipeline engine can raise. */
module Outcomes {

  /** A value that may be absent; `None` stands for a C# `null`. */
  datatype Option<+T> = None | Some(value: T)

  /** The exceptions that surface from the engine. */
  datatype Error =
    /** `Enumerable.First` found no element satisfying its predicate. */
    | InvalidOperation
    /** A provider or executer met a parameter variant it does not implement. */
    | NotImplemented
    /** Any other exception, raised by an executer or by a collaborator,
        identified by an opaque code so that "the same exception" can be said. */
    | Raised(code: nat)

  /** The outcome of an operation that either returns a value or throws. */
  datatype Result<+T> = Success(value: T) | Failure(error: Error)
}
