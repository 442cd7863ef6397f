/** Small datatypes shared by every component. */
module Base {

  datatype Option<+T> = None | Some(value: T)

  datatype Result<+T> = Ok(value: T) | Err

  newtype byte = x: int | 0 <= x < 256
}
