/** Optional values and error returns, used by every other module. */
module Wrappers {
  datatype Option<+T> = None | Some(value: T)

  datatype Result<+T> = Ok(value: T) | Err(error: Error)

  /** The error returns of the controller and the agent, by cause. */
  datatype Error =
    | InvalidRequest
    | NotFound
    | NoHealthyNode
    | NotEnoughRam
    | UnsupportedCidr
    | InvalidCidr
    | ForeignKey
    | DuplicateKey
    | Unavailable
}
