/** The optional values the monitor publishes (`Float?` in the source). */
module Wrappers {
  datatype Option<T> = None | Some(value: T)
}
