/** A value that may be missing, such as a null reference. */
module Options {
  datatype Option<T> = None | Some(value: T)
}
