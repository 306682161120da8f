/** A value that may be absent, as `null` and `undefined` are in the source. */
module Options {

  datatype Option<+T> = None | Some(value: T)
}
