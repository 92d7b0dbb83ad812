/** Values shared by every part of the model: absence, errors and bytes. */
module Base {

  /** Go's nil-able pointer: either nothing or a value. */
  datatype Option<+T> = None | Some(value: T)

  /** A Go `error` value; only its message is kept. */
  datatype Error = Error(message: string)

  /** The (value, error) pair a Go collaborator returns, when exactly one of them is set. */
  datatype Result<+T> = Ok(value: T) | Err(error: Error)

  newtype byte = x: int | 0 <= x < 256
}
