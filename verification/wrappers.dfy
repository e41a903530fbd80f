/** Small failure-carrying datatypes used across the storefront model. */
module Wrappers {

  /** A value that may be missing: an unparseable form field, an unselected
      product, a key absent from storage. */
  datatype Option<+T> = None | Some(value: T)

  /** The outcome of a handler that either produces a new value or stops with
      a warning shown to the operator. */
  datatype Result<+R, +E> = Success(value: R) | Failure(error: E)
}
