/** The optional value used for "no command" and for an unread or absent field. */
module Options {
  datatype Option<+T> = None | Some(value: T)
}
