/** Small failure-carrying datatypes shared by the modules of this model. */
module Wrappers {

  /** A value that may be missing; for a JavaScript property read, `None` is `undefined`. */
  datatype Option<+T> = None | Some(value: T)

  /** The result of an operation that either yields a value or throws an `Error` with a message. */
  datatype Result<+T> = Ok(value: T) | Err(error: string)

  /** How a state-changing operation of the app ends: it runs to completion, or a
      JavaScript exception (a `TypeError` on a `null` or badly shaped value) escapes it
      after the writes it had already made. */
  datatype Outcome = Completed | Threw
}
