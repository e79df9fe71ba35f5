/** The optional value used for fields an option record may leave out. */
module Options {
  datatype Option<T> = None | Some(value: T)
}
