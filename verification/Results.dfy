/** The two result shapes shared by every module of the project. */
module Results {
  datatype Option<+T> = None | Some(value: T)

  /** A value, or the error a source function throws. */
  datatype Result<+T, +E> = Ok(value: T) | Err(error: E)
}
