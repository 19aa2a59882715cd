module Options {
  /** A Go `(value, ok)` pair or a Python `Optional`. */
  datatype Option<+T> = None | Some(value: T)
}
