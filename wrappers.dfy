/** Option and Result, used for the optional route and brain ids and for
    the outcomes of the external services. */
module Wrappers {

  datatype Option<+T> = None | Some(value: T)

  /** The outcome of an awaited call: the resolved value or the thrown error. */
  datatype Result<+T, +E> = Ok(value: T) | Err(error: E)
}
