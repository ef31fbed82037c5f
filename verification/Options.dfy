/** The optional value used wherever the source returns nil or a missing map entry. */
module Options {
  datatype Option<+T> = None | Some(value: T)
}
