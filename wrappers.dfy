/** Option, used where the source has `T | null` or `T | undefined`. */
module Wrappers {

  datatype Option<+T> = None | Some(value: T)
}
