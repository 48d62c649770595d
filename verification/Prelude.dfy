/** Types shared by the components of the model. */
module Prelude {

  datatype Option<+T> = None | Some(value: T)

  datatype Result<+T> = Ok(value: T) | Err

  type Byte = x: int | 0 <= x < 256
}
