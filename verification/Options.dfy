/** The optional values that allocation and lookup return. */
module Options {
  datatype Option<+T> = None | Some(value: T)
}
