/** A small Option type, for values that may be missing (an unopened file, a failed scan). */
module Wrappers {
  datatype Option<+T> = None | Some(value: T)
}
