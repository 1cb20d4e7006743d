/** Values that may be missing: a lookup that failed, a key that was not given, a panic. */
module Options {

  datatype Option<+T> = None | Some(value: T)
}
