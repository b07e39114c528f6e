/** An optional value: a configuration variable that may be unset, a header
    that may be absent, a cache that may be empty. */
module Wrappers {
  datatype Option<+T> = None | Some(value: T)
}
