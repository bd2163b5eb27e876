/** Option and Result values, used where the dashboard code can throw or omit a value. */
module Wrappers {

  datatype Option<+T> = None | Some(value: T)

  /** The outcome of a step that either yields a value or throws an error whose
      `message` property is `error` ("" when the thrown value carries none). */
  datatype Result<+T> = Ok(value: T) | Err(error: string)
}
