/** Optional values, results and the Python exceptions the modelled code raises or catches. */
module Outcomes {

  datatype Option<+T> = None | Some(value: T)

  /** The exceptions that matter to the modelled code, each with its message. */
  datatype Error =
    | AssertionError(msg: string)
    | FileNotFoundError(msg: string)
    | NotADirectoryError(msg: string)
    | ValueError(msg: string)
    | TypeError(msg: string)
    | CalledProcessError(msg: string)

  /** A value, or the exception that was raised instead of returning it. */
  datatype Result<+T> = Ok(value: T) | Err(error: Error)

  /** Python truthiness of an optional string argument: neither None nor "". */
  predicate Truthy(s: Option<string>) {
    s.Some? && s.value != ""
  }
}
