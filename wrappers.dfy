/** The optional value used for PHP's nullable results. */
module Wrappers {
  datatype Option<+T> = None | Some(value: T)
}
