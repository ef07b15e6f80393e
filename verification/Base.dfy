/** The option type shared by all modules; it stands for nullable pointers. */
module Base {
  datatype Option<+T> = None | Some(value: T)
}
