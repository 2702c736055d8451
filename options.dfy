/** A value that may be absent: `undefined` or `null` in the program being modelled. */
module Options {
  datatype Option<+T> = None | Some(value: T)
}
