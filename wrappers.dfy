/** Option, Result and Outcome: the model's stand-ins for Java's null,
    for a value-or-exception, and for a check that either passes or throws. */
module Wrappers {

  datatype Option<+T> = None | Some(value: T)

  datatype Result<+R, +E> = Success(value: R) | Failure(error: E)

  datatype Outcome<+E> = Pass | Fail(error: E)
}
