/** An optional value: the None of the source. */
module Options {
  datatype Option<+T> = None | Some(value: T)
}
