/** An optional value, standing for the nullable values of the scene nodes. */
module Options {
  datatype Option<T> = None | Some(value: T)
}
