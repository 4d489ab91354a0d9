/** Optional values, the Python exceptions the modelled code raises, and results that carry them. */
module Wrappers {

  /** `X | None` in the source's annotations. */
  datatype Option<+T> = None | Some(value: T) {

    /** `x or default` for a value whose only falsy state is None or `default` itself. */
    function GetOr(default: T): T {
      if Some? then value else default
    }
  }

  /** The exceptions raised by the modelled code, with the message they carry. */
  datatype Error =
    | TypeError(message: string)
    | NotImplementedError(message: string)

  /** A value, or the exception raised while computing it. */
  datatype Result<+T> = Ok(value: T) | Err(error: Error)
}
