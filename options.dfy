/** The optional value used wherever the source returns an empty or invalid value. */
module Options {

  datatype Option<T> = None | Some(value: T)
}
