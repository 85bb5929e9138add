/** Error kinds and result wrappers shared by the containers.

    The C++ source signals failure by throwing: `std::out_of_range` for a
    bad index or an empty container, `std::runtime_error` for a cursor that
    is not bound to any vector. Here a failing call returns the kind of the
    exception instead; the message text is not modelled. */
module Errors {

  /** The exceptions the core can throw, by kind. */
  datatype Error =
    | OutOfRange  // std::out_of_range
    | Unbound     // std::runtime_error("unbound StrBlobPtr")

  /** The outcome of an operation that yields a value or throws. */
  datatype Result<+T> = Ok(value: T) | Err(error: Error)

  /** The outcome of an operation that yields nothing or throws. */
  datatype Outcome = Pass | Fail(error: Error)
}
