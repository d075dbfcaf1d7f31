/** The value a field or a lookup may lack. */
module Options {
  datatype Option<+T> = None | Some(value: T)
}
