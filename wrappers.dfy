/** A wrapper for possibly absent values, shared by the model's modules. */
module Wrappers {

  /** A value that may be absent: a pandas lookup that raises, a parse that fails. */
  datatype Option<+T> = None | Some(value: T)
}
