/** The usual Some/None wrapper, standing in for a nil pointer or an absent value. */
module Options {
  datatype Option<+T> = None | Some(value: T)
}
