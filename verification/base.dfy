/** Failure-carrying wrappers shared by the renderer model. */
module Base {

  /** An optional value: JavaScript's `undefined` on one side, a value on the other. */
  datatype Option<+T> = None | Some(value: T)

  /** The result of an operation that may throw. */
  datatype Result<+T, +E> = Success(value: T) | Failure(error: E)
}
