/** An optional value: the repository's "value, ok" results and nil pointers. */
module Options {
  datatype Option<+T> = None | Some(value: T)
}
