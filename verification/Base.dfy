/** Value types shared by the model: optional values, checked results and bytes. */
module Base {
  datatype Option<+T> = None | Some(value: T)

  /** What a checked operation yields: a value, or the text of the exception it raised. */
  datatype Result<+T> = Ok(value: T) | Raised(message: string)

  type Byte = b: nat | b < 256
}
