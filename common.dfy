/**
 * Values shared by every module of the model: the exception kinds the
 * sources throw, the usual Option/Result/Outcome wrappers used to model a
 * throw as an error return, and raw pointers (`void*`) as opaque addresses.
 */
module Common {

  /** The sprockit exception classes thrown by the modelled code. */
  datatype Error =
    | ValueError          // sprockit::value_error
    | NullError           // sprockit::null_error
    | IllformedError      // sprockit::illformed_error
    | UnimplementedError  // sprockit::unimplemented_error

  datatype Option<+T> = None | Some(value: T)

  datatype Result<+T, +E> = Success(value: T) | Failure(error: E)

  /** The result of an operation that returns nothing but may throw. */
  datatype Outcome<+E> = Pass | Fail(error: E)

  /** A machine address other than 0: a non-null pointer never holds address 0. */
  type Address = a: nat | a > 0 witness 1

  /** A `void*`: either `nullptr` or some address the model never dereferences. */
  datatype Ptr = Null | Addr(address: Address)
}
