/** A value that may be absent; a NULL pointer in the source is None. */
module Options {
  datatype Option<T> = None | Some(value: T)
}
