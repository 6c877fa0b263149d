/** A value that may be missing, in place of a null pointer. */
module Options {
  datatype Option<T> = None | Some(value: T)
}
