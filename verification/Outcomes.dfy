/** The two result shapes the model uses in place of `None` and of raised exceptions. */
module Outcomes {
  datatype Option<+T> = None | Some(value: T)

  datatype Result<+T, +E> = Ok(value: T) | Err(error: E)
}
