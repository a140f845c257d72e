/** An optional value: a stored preference, an attribute that may be missing. */
module Options {
  datatype Option<+T> = None | Some(value: T)
}
