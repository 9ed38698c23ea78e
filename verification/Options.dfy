/** A value that may be missing: a nil reference, an absent file, an unset field. */
module Options {
  datatype Option<T> = None | Some(value: T)
}
