/** The two wrappers the model uses: `Option` for a JavaScript value that may be
    `undefined`, and `Result` for a step that may end the run with an error. */
module Wrappers {

  datatype Option<+T> = None | Some(value: T)

  datatype Result<+T, +E> = Ok(value: T) | Err(error: E)
}
