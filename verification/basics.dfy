/** Failure-carrying shapes shared by the whole model.
    A C# reference that may be null becomes an Option; an operation that may
    throw becomes a Result whose Failure carries the exception's message. */
module Basics {

  datatype Option<+T> = None | Some(value: T) {

    /** The value, or `default` when absent: C#'s `x ?? default`. */
    function GetOr(default: T): T {
      match this
      case Some(v) => v
      case None => default
    }
  }

  datatype Result<+T, +E> = Success(value: T) | Failure(error: E)

  /** The message of the `NullReferenceException` thrown by dereferencing
      a null reference. */
  const NullReference := "Object reference not set to an instance of an object."

  /** The message of the `ArgumentNullException` a framework method throws
      for its null parameter `name`. */
  function ArgumentNull(name: string): string {
    "Value cannot be null. (Parameter '" + name + "')"
  }
}
