/** Success/failure wrappers standing in for the places where the engine
    returns a null handle or throws std::runtime_error. */
module Wrappers {

  datatype Option<+T> = None | Some(value: T)

  datatype Result<+T, +E> = Ok(value: T) | Err(error: E)

  datatype Outcome<+E> = Pass | Fail(error: E)
}
