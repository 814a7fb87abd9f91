/** The outcome of a validating constructor: either the constructed value or
    the reason it was refused. */
module Wrappers {

  datatype Result<+T, +E> = Success(value: T) | Failure(error: E)
}
