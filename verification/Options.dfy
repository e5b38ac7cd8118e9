/** The optional value used for null pointers throughout. */
module Options {
  datatype Option<+T> = None | Some(value: T)
}
