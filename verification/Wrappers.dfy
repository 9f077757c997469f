/** Small shared types. */
module Wrappers {
  /** The model's `null` and `undefined`. */
  datatype Option<+T> = None | Some(value: T)

  /** Why a request was rejected: its signal was aborted, or anything else. */
  datatype Reason = Aborted | Other(message: string)
}
