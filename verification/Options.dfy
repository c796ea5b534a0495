/** A value that may be absent: the source's nullable fields and optional arguments. */
module Options {
  datatype Option<T> = None | Some(value: T)
}
