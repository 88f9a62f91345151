/** Option and Result, the failure-carrying datatypes the rest of the model uses
    for the source's exceptions and assertion failures. */
module Wrappers {

  datatype Option<+T> = None | Some(value: T)

  datatype Result<+R, +E> = Success(value: R) | Failure(error: E)
}
