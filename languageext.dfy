/** The parts of the LanguageExt library that the extensions consume, given
    their plain datatype meaning: an optional value, the result of running a
    fallible computation, and the suspended computation itself. */
module LanguageExt {
  import opened DotNet

  /** An optional value: `Some(value)` when present, `None` when absent. */
  datatype Option<T> = None | Some(value: T) {

    /** Case analysis: applies `some` to the value when present and calls
        `none` when absent. */
    function MatchUnsafe<R>(some: T -> R, none: () -> R): (r: R)
    {
      match this
      case Some(v) => some(v)
      case None => none()
    }
  }

  /** The result of running a `Try`: a value, or the exception it failed with. */
  datatype TryResult<T> = Success(value: T) | Failure(exception: Exn) {

    predicate IsFaulted() {
      Failure?
    }
  }

  /** A suspended fallible computation. Invoking it (`run()`) yields a
      `TryResult`; anything the computation throws is already captured there
      as a `Failure`, so running never throws outward. */
  datatype Try<T> = Try(run: () -> TryResult<T>)
}
