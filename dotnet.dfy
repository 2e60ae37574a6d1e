/** The few .NET runtime notions the extension methods rely on: exceptions,
    delegate references that may be null, and the outcome of calling code
    that may throw. Exceptions are plain values here. */
module DotNet {

  /** A .NET exception. The only one the extensions raise themselves is the
      argument-null exception of `Then`; every other exception is an opaque
      value identified by its type name and message. */
  datatype Exn =
    | ArgumentNullException(paramName: string)
    | Thrown(typeName: string, message: string)

  /** A reference to a delegate, which the caller may pass as null. */
  datatype Nullable<F> = Null | NonNull(target: F)

  /** What a call into .NET code comes to: it returned a value, or it threw. */
  datatype Result<T, E> = Returns(value: T) | Throws(error: E)

  /** The outcome of a call that may throw any exception. */
  type Outcome<T> = Result<T, Exn>
}
