/** A value that may be absent: a nil pointer, a nil error, a failed lookup. */
module Options {
  datatype Option<+T> = None | Some(value: T)
}
