/** Failure-compatible result used for the operations that raise in the source. */
module Wrappers {
  /** `None` stands for an operation that raises (here: a division by zero). */
  datatype Option<+T> = None | Some(value: T)
}
