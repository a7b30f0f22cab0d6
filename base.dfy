/** Primitive types and failure wrappers shared by every module of the model. */
module Base {

  /** One byte of a UTF-8 encoded Rust `String`. */
  type byte = x: int | 0 <= x < 0x100

  /** Rust's `u16`. */
  type u16 = x: int | 0 <= x < 0x1_0000

  datatype Option<+T> = None | Some(value: T)

  datatype Result<+T, +E> = Success(value: T) | Failure(error: E)
}
