/** Optional values, fallible results and write outcomes shared by every model in this project. */
module Wrappers {

  datatype Option<+T> = None | Some(value: T)

  datatype Result<+T, +E> = Ok(value: T) | Err(error: E)

  /** How a write to the database ends: acknowledged, never carried out, or carried out with the acknowledgement lost. */
  datatype Outcome = Acked | Unreachable | AckLost
}
