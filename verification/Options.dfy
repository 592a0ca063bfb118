/** A value that may be absent: the source's `null`, `undefined` and missing rows. */
module Options {
  datatype Option<+T> = None | Some(value: T)
}
