/** The optional value used wherever the portal's JavaScript has `null`/`undefined`. */
module Options {

  datatype Option<T> = None | Some(value: T)
}
