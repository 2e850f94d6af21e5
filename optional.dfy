/** The usual optional value, standing for Python's `X | None`. */
module Optional {

  datatype Option<+T> = None | Some(value: T)
}
