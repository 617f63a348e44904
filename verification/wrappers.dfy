/** The "no data" marker used for band and region means. */
module Wrappers {
  datatype Option<+T> = None | Some(value: T)
}
