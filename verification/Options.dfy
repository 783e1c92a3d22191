/** The usual optional value, used where the program has a nil pointer or a missing row. */
module Options {
  datatype Option<+T> = None | Some(value: T)
}
