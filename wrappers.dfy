/**
 * Option and Result values shared by the models: `Option` stands for a
 * JavaScript value that may be `undefined`/`null` or a call that may fail,
 * `Result` for an operation that returns a value or throws.
 */
module Wrappers {

  datatype Option<+T> = None | Some(value: T)

  datatype Result<+T, +E> = Ok(value: T) | Err(error: E)
}
