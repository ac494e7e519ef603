/** Failure-carrying datatypes and the exceptions the core can raise. */
module Wrappers {

  /** The .NET exceptions that the context-propagation code raises or lets through. */
  datatype Error =
    | ArgumentNull            // ArgumentNullException from a decorator's constructor
    | ArgumentInvalid         // ArgumentException from `new Guid(bytes)` when the array is not 16 bytes long
    | NullReference           // NullReferenceException from dereferencing a null reference
    | NotImplemented          // NotImplementedException
    | SerializationFailed     // an exception from the binary deserializer on a corrupted payload

  datatype Option<+T> = None | Some(value: T)

  /** A value, or the exception that was raised instead. */
  datatype Result<+T> = Success(value: T) | Failure(error: Error)

  /** Completion of an operation that returns nothing (`void` or a plain `Task`). */
  datatype Outcome = Pass | Fail(error: Error)
}
