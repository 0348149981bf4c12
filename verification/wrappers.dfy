/** A value that may be missing: what the program's `None` stands for. */
module Wrappers {
  datatype Option<+T> = None | Some(value: T)
}
