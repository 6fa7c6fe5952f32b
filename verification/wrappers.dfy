/** The optional value used for the parser's "current block, or none" slot. */
module Wrappers {

  /** `None` stands for JavaScript's `null`; `Some(v)` for a present object. */
  datatype Option<+T> = None | Some(value: T)
}
