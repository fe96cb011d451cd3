/** Swift's `Optional`, as used for `String?` URL templates. */
module Wrappers {
  datatype Option<+T> = None | Some(value: T)
}
