/** Option and Result values used across the model. */
module Wrappers {

  datatype Option<+T> = None | Some(value: T)

  /** The ways the modelled Python code stops with an uncaught exception. */
  datatype Error =
    | IndexError   // a list index past the end
    | ValueError   // strptime rejected a string, or an empty array was reduced
    | KeyError     // a JSON document lacks a key
    | JsonError    // json.load could not decode the file

  datatype Result<+T> = Ok(value: T) | Err(error: Error)
}
