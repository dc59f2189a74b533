/** Small value types shared by every module of the model. */
module Common {

  /** Go's `[]byte`. A Go `string` is also a byte sequence, so both are
      modelled as `string`, one `char` per byte; the conversions
      `string(b)` and `[]byte(s)` are then the identity. */
  type Bytes = string

  datatype Option<+T> = None | Some(value: T)

  datatype Result<+R, +E> = Success(value: R) | Failure(error: E)
}
