/** Option and Result values shared by every module of the model. */
module Wrappers {

  /** A nullable value: `None` stands for Java's `null`. */
  datatype Option<+T> = None | Some(value: T) {
    /** The value, or `default` when it is absent. */
    function GetOr(default: T): T {
      match this
      case Some(v) => v
      case None => default
    }
  }

  /** Why a service call failed (the services throw a RuntimeException in each case). */
  datatype Error =
    | NotFound(entity: string)       // "... not found with ID: ..."
    | NullValue(field: string)       // a NullPointerException on a missing value

  /** The outcome of a service call that can fail. */
  datatype Result<+T> = Success(value: T) | Failure(error: Error)

  /** The outcome of a service call that returns nothing (a `void` method that may throw). */
  datatype Outcome = Done | Failed(error: Error)
}
