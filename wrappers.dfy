/** The optional values and error results that the TypeScript code expresses
    with `undefined`, `null`, `try`/`catch` and rejected promises. */
module Wrappers {

  datatype Option<+T> = None | Some(value: T)

  /** The outcome of a call that either returns a value or throws an error
      carrying a message. */
  datatype Result<+T> = Ok(value: T) | Err(message: string)
}
