/** Failure-carrying values shared by the other modules: an absent value (Go's nil)
    and a result that is either a value or an error (Go's panics and error returns). */
module Wrappers {

  datatype Option<+T> = None | Some(value: T)

  datatype Result<+T, +E> = Ok(value: T) | Err(error: E)
}
