/** A value that may be missing: a null pointer, an unset field, an event that has not
    happened. */
module Optional {
  datatype Option<+T> = None | Some(value: T)
}
