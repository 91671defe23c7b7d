/** Swift's `Optional`, used wherever the app writes `T?`. */
module Wrappers {

  datatype Option<+T> = None | Some(value: T)
}
