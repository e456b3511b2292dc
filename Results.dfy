/** Failure-carrying values for the places where the TypeScript code returns
    `null`, uses `??`, or throws an `Error` with a message. */
module Results {

  datatype Option<+T> = None | Some(value: T)

  /** A computation that either produced a value or threw `new Error(error)`. */
  datatype Result<+T> = Ok(value: T) | Err(error: string)

  /** A computation with no value (`Promise<void>`) that either finished or threw. */
  datatype Outcome = Pass | Fail(error: string)
}
