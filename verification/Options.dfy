/** The optional value used where the source uses `None`. */
module Options {
  datatype Option<+T> = None | Some(value: T)
}
