/** A value that may be absent: Python's `None` where a value is expected. */
module Options {
  datatype Option<T> = None | Some(value: T)
}
