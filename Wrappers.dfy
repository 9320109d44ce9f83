/** Java's nullable values and thrown exceptions, as values. */
module Wrappers {

  /** A nullable Java reference to an immutable value: None stands for null. */
  datatype Option<+T> = None | Some(value: T)

  /** The unchecked exceptions the modelled code can raise. */
  datatype Exception =
    | NullPointerException
    | IndexOutOfBoundsException
    | ArrayIndexOutOfBoundsException

  /** The outcome of a call that either returns a value or throws. */
  datatype Result<+T> = Success(value: T) | Failure(error: Exception)
}
