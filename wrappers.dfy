/** Failure-carrying results: an operation either succeeds with a value or
    fails with an error, standing in for the exceptions the agent raises. */
module Wrappers {

  datatype Result<+T, +E> = Success(value: T) | Failure(error: E)
}
