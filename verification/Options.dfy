/** A value that may be absent: a null pointer, a missing field, a failed parse. */
module Options {
  datatype Option<T> = None | Some(value: T)
}
