module Wrappers {
  /** A value that may be absent: None, nil, a missing key. */
  datatype Option<T> = None | Some(value: T)
}
