/** The optional value used for the outcome of decoding a request body. */
module Wrappers {

  /** `None` stands for a body that could not be decoded; `Some(v)` for one that decoded to `v`. */
  datatype Option<+T> = None | Some(value: T)
}
