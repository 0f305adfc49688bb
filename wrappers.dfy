/** Option and Result: Ruby's nil values and rescued errors, made explicit. */
module Wrappers {

  /** An optional value: `None` stands for Ruby's nil. */
  datatype Option<+T> = None | Some(value: T)

  /** The outcome of a computation that can fail with an error of type E. */
  datatype Result<+T, +E> = Ok(value: T) | Err(error: E)
}
